/**
 * The Hangouts `Client` sync coordinator: the watermark of the last batch
 * update, active-client negotiation, and dispatch of channel frames.
 *
 * Network calls are recorded as `Request`s appended to `sent`; a response
 * arriving is an explicit method call. The wall clock is the parameter `now`
 * (whole seconds since 1970). A runtime trap (`!`, `as!`, `try!`, an index out
 * of range) makes a method return `ok == false` and its pure counterpart
 * return `None`.
 */
module HangoutsClient {
  import opened Wrappers
  import opened Wire

  /** Timeout sent with setactiveclient requests. */
  const ACTIVE_TIMEOUT_SECS: int := 120
  /** Minimum time between two setactiveclient requests. */
  const SETACTIVECLIENT_LIMIT_SECS: int := 60
  /** Size limit sent with syncallnewevents requests. */
  const MAX_RESPONSE_SIZE_BYTES: int := 1048576

  type UInt64 = x: int | 0 <= x < 0x1_0000_0000_0000_0000

  datatype ActiveClientState = NoActive | IsActive | OtherActive

  datatype Event = Event(conversationId: string, timestamp: UInt64, eventId: string)

  /** A conversation's metadata, opaque to the sync logic. */
  datatype Snapshot = Snapshot(revision: nat)

  datatype Conversation = Conversation(snapshot: Snapshot, events: seq<Event>)

  /** One `conversation_state` entry of a sync response. */
  datatype ConversationState = ConversationState(conversationId: string, conversation: Snapshot, events: seq<Event>)

  datatype SyncResponse = SyncResponse(states: seq<ConversationState>, syncTimestamp: UInt64)

  /** A decoded batch update; header fields are optional, as in the decoded message. */
  datatype StateUpdateHeader = StateUpdateHeader(activeClientState: Option<ActiveClientState>, currentServerTime: Option<UInt64>)
  datatype StateUpdate = StateUpdate(header: Option<StateUpdateHeader>)
  datatype BatchUpdate = BatchUpdate(stateUpdates: seq<StateUpdate>)

  /** The outbound calls the client makes. */
  datatype Request =
    | SyncAllNewEvents(lastSyncTimestamp: UInt64, maxResponseSizeBytes: int)
    | SetActiveClient(isActive: bool, timeoutSecs: int)
    | GetSelfInfo
    | AddChannelServices(maps: seq<map<string, string>>)

  /** The client's fields as one value. */
  datatype ClientState = ClientState(
    email: Option<string>,
    clientId: Option<string>,
    lastActiveSecs: int,
    activeClientState: Option<ActiveClientState>,
    lastUpdate: UInt64,
    conversations: map<string, Conversation>,
    handled: seq<Event>,
    sent: seq<Request>)

  /** A new client over a conversation list loaded elsewhere. */
  function Initial(conversations: map<string, Conversation>): ClientState {
    ClientState(None, None, 0, None, 0, conversations, [], [])
  }

  /** `synchronize`: nothing before the first batch update, else one sync request from the watermark. */
  function SynchronizeSpec(s: ClientState): ClientState {
    if s.lastUpdate > 0 then s.(sent := s.sent + [SyncAllNewEvents(s.lastUpdate, MAX_RESPONSE_SIZE_BYTES)])
    else s
  }

  lemma SynchronizeRequests(s: ClientState)
    ensures s.lastUpdate == 0 ==> SynchronizeSpec(s) == s
    ensures s.lastUpdate > 0 ==>
      SynchronizeSpec(s) == s.(sent := s.sent + [SyncAllNewEvents(s.lastUpdate, 1048576)])
  {
  }

  /** A fresh client has no watermark yet, so connecting does not resync. */
  lemma FreshClientDoesNotSync(conversations: map<string, Conversation>)
    ensures Initial(conversations).lastUpdate == 0
    ensures SynchronizeSpec(Initial(conversations)) == Initial(conversations)
  {
  }

  /** The events of `evs` newer than `w`, in order. */
  function Newer(evs: seq<Event>, w: int): (r: seq<Event>)
    ensures |r| <= |evs|
    ensures forall i :: 0 <= i < |r| ==> r[i].timestamp > w && r[i] in evs
    ensures forall e :: e in r <==> e in evs && e.timestamp > w
  {
    if evs == [] then []
    else
      var e := evs[|evs| - 1];
      assert evs == evs[..|evs| - 1] + [e];
      Newer(evs[..|evs| - 1], w) + (if e.timestamp > w then [e] else [])
  }

  /** The events of `evs` newer than `w` that name one of `ids`, in order. */
  function Routed(evs: seq<Event>, w: int, ids: set<string>): (r: seq<Event>)
    ensures forall i :: 0 <= i < |r| ==> r[i].timestamp > w && r[i].conversationId in ids && r[i] in evs
  {
    if evs == [] then []
    else
      var e := evs[|evs| - 1];
      Routed(evs[..|evs| - 1], w, ids) + (if e.timestamp > w && e.conversationId in ids then [e] else [])
  }

  /** The events of `evs` newer than `w` that name conversation `id`, in order. */
  function Into(evs: seq<Event>, w: int, id: string): (r: seq<Event>)
    ensures forall i :: 0 <= i < |r| ==> r[i].timestamp > w && r[i].conversationId == id
  {
    if evs == [] then []
    else
      var e := evs[|evs| - 1];
      Into(evs[..|evs| - 1], w, id) + (if e.timestamp > w && e.conversationId == id then [e] else [])
  }

  /** One event of a known conversation's state: skipped if not newer, else added to the conversation it names. */
  function StepEvent(s: ClientState, e: Event, w: int): ClientState {
    if e.timestamp <= w || e.conversationId !in s.conversations then s
    else
      var c := s.conversations[e.conversationId];
      s.(conversations := s.conversations[e.conversationId := c.(events := c.events + [e])],
         handled := s.handled + [e])
  }

  /** The inner loop of the sync handler over `evs`, watermark `w`. */
  function ApplyEvents(s: ClientState, evs: seq<Event>, w: int): (r: ClientState)
    ensures r.conversations.Keys == s.conversations.Keys
    ensures r.(conversations := s.conversations, handled := s.handled) == s
  {
    if evs == [] then s
    else StepEvent(ApplyEvents(s, evs[..|evs| - 1], w), evs[|evs| - 1], w)
  }

  /** One conversation state: a known conversation is refreshed and gets the newer events; an unknown one is created. */
  function ApplyConversationState(s: ClientState, st: ConversationState, w: int): ClientState {
    var id := st.conversationId;
    if id in s.conversations then
      ApplyEvents(s.(conversations := s.conversations[id := s.conversations[id].(snapshot := st.conversation)]), st.events, w)
    else
      s.(conversations := s.conversations[id := Conversation(st.conversation, st.events)])
  }

  /** The outer loop of the sync handler. */
  function ApplyConversationStates(s: ClientState, sts: seq<ConversationState>, w: int): (r: ClientState)
    ensures s.conversations.Keys <= r.conversations.Keys
    ensures r.(conversations := s.conversations, handled := s.handled) == s
  {
    if sts == [] then s
    else ApplyConversationState(ApplyConversationStates(s, sts[..|sts| - 1], w), sts[|sts| - 1], w)
  }

  lemma ApplyEventsSnoc(s: ClientState, evs: seq<Event>, j: int, w: int)
    requires 0 <= j < |evs|
    ensures ApplyEvents(s, evs[..j + 1], w) == StepEvent(ApplyEvents(s, evs[..j], w), evs[j], w)
  {
    assert evs[..j + 1][..j] == evs[..j];
  }

  lemma ApplyStatesSnoc(s: ClientState, sts: seq<ConversationState>, i: int, w: int)
    requires 0 <= i < |sts|
    ensures ApplyConversationStates(s, sts[..i + 1], w) == ApplyConversationState(ApplyConversationStates(s, sts[..i], w), sts[i], w)
  {
    assert sts[..i + 1][..i] == sts[..i];
  }

  /** The sync response handler: fold the states against the current watermark, then assign the new one. */
  function SyncResponseSpec(s: ClientState, res: SyncResponse): ClientState {
    ApplyConversationStates(s, res.states, s.lastUpdate).(lastUpdate := res.syncTimestamp)
  }

  /** After a sync response the watermark is the response's timestamp; nothing but conversations and handled events changes. */
  lemma SyncAssignsWatermark(s: ClientState, res: SyncResponse)
    ensures SyncResponseSpec(s, res).lastUpdate == res.syncTimestamp
    ensures SyncResponseSpec(s, res).(conversations := s.conversations, handled := s.handled, lastUpdate := s.lastUpdate) == s
  {
  }

  /** The watermark is assigned, not raised: an older sync timestamp moves it back. */
  lemma WatermarkCanDecrease()
    ensures var s := Initial(map[]).(lastUpdate := 500);
      SyncResponseSpec(s, SyncResponse([], 300)).lastUpdate < s.lastUpdate
  {
  }

  /** One event: a known conversation gains it when it is newer and names that conversation. */
  lemma StepEventEffect(s: ClientState, e: Event, w: int, id: string)
    requires id in s.conversations
    ensures StepEvent(s, e, w).conversations[id]
      == s.conversations[id].(events := s.conversations[id].events + (if e.timestamp > w && e.conversationId == id then [e] else []))
  {
  }

  /** The handled log gains, in order, the newer events that name a known conversation; the others are skipped. */
  lemma {:induction false} ApplyEventsHandled(s: ClientState, evs: seq<Event>, w: int)
    ensures ApplyEvents(s, evs, w).handled == s.handled + Routed(evs, w, s.conversations.Keys)
  {
    if evs != [] {
      var prefix, e := evs[..|evs| - 1], evs[|evs| - 1];
      ApplyEventsHandled(s, prefix, w);
      var mid := ApplyEvents(s, prefix, w);
      assert e.conversationId in mid.conversations <==> e.conversationId in s.conversations.Keys;
      StepEventHandled(mid, e, w);
    }
  }

  /** One event: the handled log gains it when it is newer and names a known conversation. */
  lemma StepEventHandled(s: ClientState, e: Event, w: int)
    ensures StepEvent(s, e, w).handled
      == s.handled + (if e.timestamp > w && e.conversationId in s.conversations then [e] else [])
  {
  }

  /** A known conversation gains exactly the newer events that name it, in order. */
  lemma {:induction false} ApplyEventsConversation(s: ClientState, evs: seq<Event>, w: int, id: string)
    requires id in s.conversations
    ensures ApplyEvents(s, evs, w).conversations[id]
      == s.conversations[id].(events := s.conversations[id].events + Into(evs, w, id))
  {
    if evs != [] {
      var prefix, e := evs[..|evs| - 1], evs[|evs| - 1];
      ApplyEventsConversation(s, prefix, w, id);
      var mid := ApplyEvents(s, prefix, w);
      StepEventEffect(mid, e, w, id);
      var tail := if e.timestamp > w && e.conversationId == id then [e] else [];
      assert Into(evs, w, id) == Into(prefix, w, id) + tail;
      assert s.conversations[id].events + Into(prefix, w, id) + tail
          == s.conversations[id].events + Into(evs, w, id);
    }
  }

  /** When every event names conversation `id`, the events routed into it are exactly the newer ones. */
  lemma {:induction false} IntoOwnConversation(evs: seq<Event>, w: int, id: string)
    requires forall i :: 0 <= i < |evs| ==> evs[i].conversationId == id
    ensures Into(evs, w, id) == Newer(evs, w)
  {
    if evs != [] {
      IntoOwnConversation(evs[..|evs| - 1], w, id);
    }
  }

  /**
   * A known conversation is refreshed from the response and gains, in order,
   * only its events newer than the watermark.
   */
  lemma KnownConversationGetsNewerEvents(s: ClientState, st: ConversationState, w: int)
    requires st.conversationId in s.conversations
    requires forall i :: 0 <= i < |st.events| ==> st.events[i].conversationId == st.conversationId
    ensures ApplyConversationState(s, st, w).conversations[st.conversationId]
      == Conversation(st.conversation, s.conversations[st.conversationId].events + Newer(st.events, w))
    ensures ApplyConversationState(s, st, w).handled == s.handled + Newer(st.events, w)
  {
    var id := st.conversationId;
    var s1 := s.(conversations := s.conversations[id := s.conversations[id].(snapshot := st.conversation)]);
    ApplyEventsConversation(s1, st.events, w, id);
    ApplyEventsHandled(s1, st.events, w);
    IntoOwnConversation(st.events, w, id);
    RoutedOwnConversation(st.events, w, id, s1.conversations.Keys);
  }

  lemma {:induction false} RoutedOwnConversation(evs: seq<Event>, w: int, id: string, ids: set<string>)
    requires id in ids
    requires forall i :: 0 <= i < |evs| ==> evs[i].conversationId == id
    ensures Routed(evs, w, ids) == Newer(evs, w)
  {
    if evs != [] {
      RoutedOwnConversation(evs[..|evs| - 1], w, id, ids);
    }
  }

  /** An unknown conversation is created with the full, unfiltered event list, and nothing is handled. */
  lemma UnknownConversationGetsAllEvents(s: ClientState, st: ConversationState, w: int)
    requires st.conversationId !in s.conversations
    ensures ApplyConversationState(s, st, w).conversations[st.conversationId] == Conversation(st.conversation, st.events)
    ensures ApplyConversationState(s, st, w).handled == s.handled
  {
  }

  /** Watermark 100 and events at 90, 150 and 200: the last two are added, in order. */
  lemma SyncFiltersByWatermark()
    ensures
      var e90, e150, e200 := Event("c", 90, "a"), Event("c", 150, "b"), Event("c", 200, "d");
      var s := Initial(map["c" := Conversation(Snapshot(0), [])]).(lastUpdate := 100);
      var r := SyncResponseSpec(s, SyncResponse([ConversationState("c", Snapshot(1), [e90, e150, e200])], 250));
      r.conversations["c"] == Conversation(Snapshot(1), [e150, e200]) && r.handled == [e150, e200] && r.lastUpdate == 250
  {
    var e90, e150, e200 := Event("c", 90, "a"), Event("c", 150, "b"), Event("c", 200, "d");
    var s := Initial(map["c" := Conversation(Snapshot(0), [])]).(lastUpdate := 100);
    var st := ConversationState("c", Snapshot(1), [e90, e150, e200]);
    KnownConversationGetsNewerEvents(s, st, 100);
    assert [e90][..0] == [];
    assert [e90, e150][..1] == [e90];
    assert [e90, e150, e200][..2] == [e90, e150];
    assert Newer([e90], 100) == [];
    assert Newer([e90, e150], 100) == [e150];
    assert Newer([e90, e150, e200], 100) == [e150, e200];
    assert [st][..0] == [];
    assert ApplyConversationStates(s, [st], 100) == ApplyConversationState(s, st, 100);
  }

  /** `setActive` goes ahead: a client id is known, and the client is not active or the cooldown has passed. */
  predicate Proceeds(s: ClientState, now: int) {
    s.clientId.Some? && (s.activeClientState != Some(IsActive) || now - s.lastActiveSecs > SETACTIVECLIENT_LIMIT_SECS)
  }

  /** The requests a proceeding `setActive` issues, in order. */
  function SetActiveRequests(s: ClientState): seq<Request> {
    (if s.email.None? then [GetSelfInfo] else []) + [SetActiveClient(true, ACTIVE_TIMEOUT_SECS)]
  }

  /** `setActive`: the flags are updated before the requests go out. */
  function SetActiveSpec(s: ClientState, now: int): (r: ClientState)
    ensures !Proceeds(s, now) ==> r == s
    ensures Proceeds(s, now) ==>
      && r.activeClientState == Some(IsActive) && r.lastActiveSecs == now
      && r.sent == s.sent + SetActiveRequests(s)
      && r.(activeClientState := s.activeClientState, lastActiveSecs := s.lastActiveSecs, sent := s.sent) == s
  {
    if Proceeds(s, now) then
      s.(activeClientState := Some(IsActive), lastActiveSecs := now, sent := s.sent + SetActiveRequests(s))
    else s
  }

  /** The number of setactiveclient requests in `reqs`. */
  function CountSetActive(reqs: seq<Request>): (n: nat)
    ensures n <= |reqs|
  {
    if reqs == [] then 0
    else CountSetActive(reqs[..|reqs| - 1]) + (if reqs[|reqs| - 1].SetActiveClient? then 1 else 0)
  }

  lemma {:induction false} CountSetActiveAppend(a: seq<Request>, b: seq<Request>)
    ensures CountSetActive(a + b) == CountSetActive(a) + CountSetActive(b)
  {
    if b != [] {
      assert (a + b)[..|a + b| - 1] == a + b[..|b| - 1];
      CountSetActiveAppend(a, b[..|b| - 1]);
    } else {
      assert a + b == a;
    }
  }

  /** Each `setActive` call issues exactly one setactiveclient request when it proceeds and none otherwise. */
  lemma SetActiveCount(s: ClientState, now: int)
    ensures CountSetActive(SetActiveSpec(s, now).sent) == CountSetActive(s.sent) + (if Proceeds(s, now) then 1 else 0)
  {
    if Proceeds(s, now) {
      CountSetActiveAppend(s.sent, SetActiveRequests(s));
      var extra := SetActiveRequests(s);
      if s.email.None? {
        assert extra[..1] == [GetSelfInfo];
        assert CountSetActive(extra) == CountSetActive([GetSelfInfo]) + 1;
        assert [GetSelfInfo][..0] == [];
      } else {
        assert extra[..0] == [];
      }
    }
  }

  /**
   * Two calls no more than the cooldown apart issue at most one
   * setactiveclient request between them, and exactly one when the first
   * call proceeds: the second one finds the client active.
   */
  lemma SetActiveCooldown(s: ClientState, t1: int, t2: int)
    requires t1 <= t2 <= t1 + SETACTIVECLIENT_LIMIT_SECS
    ensures CountSetActive(SetActiveSpec(SetActiveSpec(s, t1), t2).sent) <= CountSetActive(s.sent) + 1
    ensures Proceeds(s, t1) ==> CountSetActive(SetActiveSpec(SetActiveSpec(s, t1), t2).sent) == CountSetActive(s.sent) + 1
  {
    SetActiveCount(s, t1);
    SetActiveCount(SetActiveSpec(s, t1), t2);
  }

  /** Once the cooldown has passed, a second call proceeds again: two calls, two requests. */
  lemma SetActiveCooldownExpires(s: ClientState, t1: int, t2: int)
    requires Proceeds(s, t1) && t2 > t1 + SETACTIVECLIENT_LIMIT_SECS
    ensures Proceeds(SetActiveSpec(s, t1), t2)
    ensures CountSetActive(SetActiveSpec(SetActiveSpec(s, t1), t2).sent) == CountSetActive(s.sent) + 2
  {
    SetActiveCount(s, t1);
    SetActiveCount(SetActiveSpec(s, t1), t2);
  }

  /** Without a client id `setActive` does nothing; a get-self-info request goes out only on a proceeding call without an email. */
  lemma SetActiveSelfInfo(s: ClientState, now: int)
    ensures s.clientId.None? ==> SetActiveSpec(s, now) == s
    ensures (GetSelfInfo in SetActiveSpec(s, now).sent[|s.sent|..]) <==> Proceeds(s, now) && s.email.None?
  {
    var r := SetActiveSpec(s, now);
    if Proceeds(s, now) {
      assert r.sent[|s.sent|..] == SetActiveRequests(s);
    } else {
      assert r.sent[|s.sent|..] == [];
    }
  }

  /** The `userInteractionState` getter. */
  predicate Interacting(s: ClientState) {
    s.activeClientState == Some(IsActive)
  }

  /** After `setActive` the client reads as interacting exactly when a client id is known or it already was. */
  lemma SetActiveMakesInteracting(s: ClientState, now: int)
    ensures Interacting(SetActiveSpec(s, now)) <==> s.clientId.Some? || Interacting(s)
  {
  }

  /** The `userInteractionState` setter as written: it tests the current value, not the new one. */
  function SetInteractionAsWritten(s: ClientState, newValue: bool, now: int): (r: ClientState)
    ensures !Interacting(s) ==> r == s
    ensures Interacting(s) && s.clientId.Some? ==> Interacting(r)
  {
    if Interacting(s) then SetActiveSpec(s, now) else s
  }

  /** Setting the flag to true on an inactive client with a client id never makes it interacting. */
  lemma SetterIgnoresNewValue()
    ensures var s := Initial(map[]).(clientId := Some("id"));
      !Interacting(SetInteractionAsWritten(s, true, 1000)) && SetInteractionAsWritten(s, true, 1000) == s
  {
  }

  /** The setter as evidently intended: setting true calls `setActive`, setting false lets the state expire. */
  function SetInteraction(s: ClientState, newValue: bool, now: int): (r: ClientState)
    ensures !newValue ==> r == s
    ensures newValue && s.clientId.Some? ==> Interacting(r)
    ensures newValue ==> r == SetActiveSpec(s, now)
  {
    if newValue then SetActiveSpec(s, now) else s
  }

  /** The `p` map of the add-services message for one service: the JSON text of `{"3":{"1":{"1":service}}}`. */
  function ServiceMap(service: string): map<string, string> {
    map["p" := "{\"3\":{\"1\":{\"1\":\"" + service + "\"}}}"]
  }

  /** The one add-services message: babel and babel_presence_last_seen. */
  const ChannelServices: seq<map<string, string>> := [ServiceMap("babel"), ServiceMap("babel_presence_last_seen")]

  /** A state update, or the trap its force-unwrapped header fields hit. */
  function ApplyUpdate(s: ClientState, u: StateUpdate): Option<ClientState> {
    if u.header.None? || u.header.value.activeClientState.None? || u.header.value.currentServerTime.None? then None
    else Some(s.(activeClientState := u.header.value.activeClientState, lastUpdate := u.header.value.currentServerTime.value))
  }

  /** A header with both fields set. */
  predicate Complete(u: StateUpdate) {
    u.header.Some? && u.header.value.activeClientState.Some? && u.header.value.currentServerTime.Some?
  }

  /**
   * The batch-update loop: each header overwrites the activity flag and the
   * watermark, so after the loop both come from the last update.
   */
  function ApplyUpdates(s: ClientState, ups: seq<StateUpdate>): (r: Option<ClientState>)
    ensures r.Some? <==> forall i :: 0 <= i < |ups| ==> Complete(ups[i])
    ensures r.Some? && ups == [] ==> r.value == s
    ensures r.Some? && ups != [] ==>
      && r.value.lastUpdate == ups[|ups| - 1].header.value.currentServerTime.value
      && r.value.activeClientState == ups[|ups| - 1].header.value.activeClientState
      && r.value.(lastUpdate := s.lastUpdate, activeClientState := s.activeClientState) == s
  {
    if ups == [] then Some(s)
    else
      match ApplyUpdates(s, ups[..|ups| - 1])
      case None => None
      case Some(mid) => ApplyUpdate(mid, ups[|ups| - 1])
  }

  /** Every value of a dictionary is a string: the `as! [String: String]` cast. */
  predicate AllStrings(m: map<string, Wire>) {
    forall k :: k in m ==> m[k].Str?
  }

  /** A wrapper's field `3`: the client id, followed by the add-services message. */
  function ClientIdStep(s: ClientState, wrapper: map<string, Wire>): (r: Option<ClientState>)
    ensures !("3" in wrapper && wrapper["3"].Dict?) ==> r == Some(s)
    ensures "3" in wrapper && wrapper["3"].Dict? ==>
      var id := wrapper["3"].entries;
      && (r.Some? <==> "2" in id && id["2"].Str?)
      && (r.Some? ==> r.value == s.(clientId := Some(id["2"].s), sent := s.sent + [AddChannelServices(ChannelServices)]))
  {
    if "3" in wrapper && wrapper["3"].Dict? then
      var id := wrapper["3"].entries;
      if "2" in id && id["2"].Str? then
        Some(s.(clientId := Some(id["2"].s), sent := s.sent + [AddChannelServices(ChannelServices)]))
      else None
    else Some(s)
  }

  /** A wrapper's field `2`: a JSON payload in its field `2`; a `cbu`-tagged one is a batch update. */
  function BatchStep(s: ClientState, wrapper: map<string, Wire>, parse: string -> Option<Wire>,
                     decodeBatch: seq<Wire> -> Option<BatchUpdate>): Option<ClientState>
  {
    if "2" in wrapper && wrapper["2"].Dict? then
      var cbu := wrapper["2"].entries;
      if !("2" in cbu && cbu["2"].Str?) then None
      else match parse(cbu["2"].s)
        case None => None
        case Some(payload) =>
          if !payload.Arr? || payload.elems == [] then None
          else if payload.elems[0] == Str("cbu") then
            match decodeBatch(payload.elems[1..])
            case None => None
            case Some(batch) => ApplyUpdates(s, batch.stateUpdates)
          else Some(s)
    else Some(s)
  }

  /** `channel(channel:didReceiveMessage:)`; `None` is a trap. */
  function FrameSpec(s: ClientState, message: seq<Wire>, parse: string -> Option<Wire>,
                     decodeBatch: seq<Wire> -> Option<BatchUpdate>): Option<ClientState>
  {
    if message == [] then None
    else if message[0] == Str("noop") then Some(s)
    else if !(message[0].Dict? && AllStrings(message[0].entries) && "p" in message[0].entries) then None
    else
      match parse(message[0].entries["p"].s)
      case None => None
      case Some(wrapper) =>
        if !wrapper.Dict? then None
        else
          match ClientIdStep(s, wrapper.entries)
          case None => None
          case Some(s1) => BatchStep(s1, wrapper.entries, parse, decodeBatch)
  }

  /** A keep-alive frame changes nothing; an empty frame traps. */
  lemma NoopFrame(s: ClientState, rest: seq<Wire>, parse: string -> Option<Wire>, decodeBatch: seq<Wire> -> Option<BatchUpdate>)
    ensures FrameSpec(s, [Str("noop")] + rest, parse, decodeBatch) == Some(s)
    ensures FrameSpec(s, [], parse, decodeBatch) == None
  {
  }

  /** A wrapper with only a client-id field sets the id and sends the add-services message once. */
  lemma ClientIdFrame(s: ClientState, p: string, id: string, rest: seq<Wire>,
                      parse: string -> Option<Wire>, decodeBatch: seq<Wire> -> Option<BatchUpdate>)
    requires parse(p) == Some(Dict(map["3" := Dict(map["2" := Str(id)])]))
    ensures FrameSpec(s, [Dict(map["p" := Str(p)])] + rest, parse, decodeBatch)
      == Some(s.(clientId := Some(id), sent := s.sent + [AddChannelServices(ChannelServices)]))
  {
    var m := [Dict(map["p" := Str(p)])] + rest;
    assert m[0] == Dict(map["p" := Str(p)]);
  }

  /** A batch update overwrites the flag and the watermark from its last state update. */
  lemma BatchUpdateFrame(s: ClientState, p: string, q: string, tail: seq<Wire>, batch: BatchUpdate,
                         parse: string -> Option<Wire>, decodeBatch: seq<Wire> -> Option<BatchUpdate>)
    requires parse(p) == Some(Dict(map["2" := Dict(map["2" := Str(q)])]))
    requires parse(q) == Some(Arr([Str("cbu")] + tail))
    requires decodeBatch(tail) == Some(batch)
    requires batch.stateUpdates != [] && forall i :: 0 <= i < |batch.stateUpdates| ==> Complete(batch.stateUpdates[i])
    ensures var r := FrameSpec(s, [Dict(map["p" := Str(p)])], parse, decodeBatch);
      var last := batch.stateUpdates[|batch.stateUpdates| - 1].header.value;
      && r.Some?
      && r.value.lastUpdate == last.currentServerTime.value
      && r.value.activeClientState == last.activeClientState
      && r.value.(lastUpdate := s.lastUpdate, activeClientState := s.activeClientState) == s
  {
    assert ([Str("cbu")] + tail)[1..] == tail;
  }

  /** A payload with another tag leaves the state as it was. */
  lemma OtherTagFrame(s: ClientState, p: string, q: string, tag: Wire, tail: seq<Wire>,
                      parse: string -> Option<Wire>, decodeBatch: seq<Wire> -> Option<BatchUpdate>)
    requires tag != Str("cbu")
    requires parse(p) == Some(Dict(map["2" := Dict(map["2" := Str(q)])]))
    requires parse(q) == Some(Arr([tag] + tail))
    ensures FrameSpec(s, [Dict(map["p" := Str(p)])], parse, decodeBatch) == Some(s)
  {
  }

  /** The `Client` object: its mutable fields and the log of requests it has sent. */
  class Client {
    var email: Option<string>
    var clientId: Option<string>
    var lastActiveSecs: int
    var activeClientState: Option<ActiveClientState>
    var lastUpdate: UInt64
    var conversations: map<string, Conversation>
    var handled: seq<Event>
    var sent: seq<Request>

    function State(): ClientState
      reads this
    {
      ClientState(email, clientId, lastActiveSecs, activeClientState, lastUpdate, conversations, handled, sent)
    }

    constructor (conversations: map<string, Conversation>)
      ensures State() == Initial(conversations)
    {
      email := None;
      clientId := None;
      lastActiveSecs := 0;
      activeClientState := None;
      lastUpdate := 0;
      this.conversations := conversations;
      handled := [];
      sent := [];
    }

    /** `synchronize`. */
    method Synchronize()
      modifies this
      ensures State() == SynchronizeSpec(old(State()))
    {
      if lastUpdate > 0 {
        sent := sent + [SyncAllNewEvents(lastUpdate, MAX_RESPONSE_SIZE_BYTES)];
      }
    }

    /** The sync response handler. */
    method OnSyncResponse(res: SyncResponse)
      modifies this
      ensures State() == SyncResponseSpec(old(State()), res)
    {
      ghost var s0 := State();
      var w := lastUpdate;
      var i := 0;
      while i < |res.states|
        invariant 0 <= i <= |res.states|
        invariant State() == ApplyConversationStates(s0, res.states[..i], w)
      {
        OnConversationState(res.states[i], w);
        ApplyStatesSnoc(s0, res.states, i, w);
        i := i + 1;
      }
      assert res.states[..|res.states|] == res.states;
      lastUpdate := res.syncTimestamp;
    }

    /** One conversation state of the response, against the watermark `w` read when the response arrived. */
    method OnConversationState(st: ConversationState, w: int)
      modifies this
      ensures State() == ApplyConversationState(old(State()), st, w)
    {
      if st.conversationId in conversations {
        conversations := conversations[st.conversationId := conversations[st.conversationId].(snapshot := st.conversation)];
        ghost var s1 := State();
        var j := 0;
        while j < |st.events|
          invariant 0 <= j <= |st.events|
          invariant State() == ApplyEvents(s1, st.events[..j], w)
        {
          var e := st.events[j];
          ghost var pre := State();
          if e.timestamp > w && e.conversationId in conversations {
            var c := conversations[e.conversationId];
            conversations := conversations[e.conversationId := c.(events := c.events + [e])];
            handled := handled + [e];
          }
          assert State() == StepEvent(pre, e, w);
          ApplyEventsSnoc(s1, st.events, j, w);
          j := j + 1;
        }
        assert st.events[..|st.events|] == st.events;
      } else {
        conversations := conversations[st.conversationId := Conversation(st.conversation, st.events)];
      }
    }

    /** `setActive` at time `now`. */
    method SetActive(now: int)
      modifies this
      ensures State() == SetActiveSpec(old(State()), now)
    {
      if clientId.None? {
        return;
      }
      var isActive := activeClientState == Some(IsActive);
      var timedOut := now - lastActiveSecs > SETACTIVECLIENT_LIMIT_SECS;
      if !isActive || timedOut {
        activeClientState := Some(IsActive);
        lastActiveSecs := now;
        if email.None? {
          sent := sent + [GetSelfInfo];
        }
        sent := sent + [SetActiveClient(true, ACTIVE_TIMEOUT_SECS)];
      }
    }

    /** The get-self-info response handler: the first email of the self entity, which must exist. */
    method OnSelfInfo(emails: seq<string>) returns (ok: bool)
      modifies this`email
      ensures ok <==> |emails| > 0
      ensures ok ==> email == Some(emails[0])
      ensures !ok ==> email == old(email)
    {
      if |emails| == 0 {
        return false;
      }
      email := Some(emails[0]);
      ok := true;
    }

    /** The `userInteractionState` getter. */
    function UserInteractionState(): (r: bool)
      reads this
      ensures r <==> Interacting(State())
    {
      activeClientState == Some(IsActive)
    }

    /**
     * The `userInteractionState` setter as written: the test reads the
     * getter, so the assigned value plays no part.
     */
    method SetUserInteractionState(newValue: bool, now: int)
      modifies this
      ensures State() == SetInteractionAsWritten(old(State()), newValue, now)
    {
      if activeClientState == Some(IsActive) {
        SetActive(now);
      }
    }

    /** The setter as evidently intended: assigning true calls `setActive`. */
    method SetUserInteractionStateIntended(newValue: bool, now: int)
      modifies this
      ensures State() == SetInteraction(old(State()), newValue, now)
    {
      if newValue {
        SetActive(now);
      }
    }

    /** The batch-update loop over the decoded state updates. */
    method ApplyBatch(ups: seq<StateUpdate>) returns (ok: bool)
      modifies this
      ensures ok <==> ApplyUpdates(old(State()), ups).Some?
      ensures ok ==> State() == ApplyUpdates(old(State()), ups).value
    {
      ghost var s0 := State();
      var i := 0;
      while i < |ups|
        invariant 0 <= i <= |ups|
        invariant ApplyUpdates(s0, ups[..i]) == Some(State())
      {
        var u := ups[i];
        assert ups[..i + 1][..i] == ups[..i];
        if u.header.None? || u.header.value.activeClientState.None? || u.header.value.currentServerTime.None? {
          assert !Complete(ups[i]);
          return false;
        }
        activeClientState := u.header.value.activeClientState;
        lastUpdate := u.header.value.currentServerTime.value;
        i := i + 1;
      }
      assert ups[..|ups|] == ups;
      ok := true;
    }

    /** `channel(channel:didReceiveMessage:)`. */
    method DidReceiveMessage(message: seq<Wire>, parse: string -> Option<Wire>, decodeBatch: seq<Wire> -> Option<BatchUpdate>)
      returns (ok: bool)
      modifies this
      ensures ok <==> FrameSpec(old(State()), message, parse, decodeBatch).Some?
      ensures ok ==> State() == FrameSpec(old(State()), message, parse, decodeBatch).value
    {
      if |message| == 0 {
        return false;
      }
      if message[0] == Str("noop") {
        return true;
      }
      if !(message[0].Dict? && AllStrings(message[0].entries) && "p" in message[0].entries) {
        return false;
      }
      var parsed := parse(message[0].entries["p"].s);
      if parsed.None? || !parsed.value.Dict? {
        return false;
      }
      var wrapper := parsed.value.entries;
      if "3" in wrapper && wrapper["3"].Dict? {
        var id := wrapper["3"].entries;
        if !("2" in id && id["2"].Str?) {
          return false;
        }
        clientId := Some(id["2"].s);
        sent := sent + [AddChannelServices(ChannelServices)];
      }
      if "2" in wrapper && wrapper["2"].Dict? {
        var cbu := wrapper["2"].entries;
        if !("2" in cbu && cbu["2"].Str?) {
          return false;
        }
        var payload := parse(cbu["2"].s);
        if payload.None? || !payload.value.Arr? || payload.value.elems == [] {
          return false;
        }
        if payload.value.elems[0] == Str("cbu") {
          var batch := decodeBatch(payload.value.elems[1..]);
          if batch.None? {
            return false;
          }
          ok := ApplyBatch(batch.value.stateUpdates);
          return;
        }
      }
      ok := true;
    }
  }
}
