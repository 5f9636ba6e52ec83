# PBLite decoder and Hangouts client sync, in Dafny

This project models two parts of a Hangouts client library written in Swift and proves properties of the model.

**The PBLite decoder.** PBLite is a JSON wire format for protocol-buffer messages.
- A message is a sparse array: slot *k* holds field *k + 1*.
- A trailing dictionary with numeric string keys carries extra fields.
- The server omits empty slots (`[1,,3]`). A sanitizer rewrites the text into JSON before parsing.

The model covers these parts:
- the sanitizer;
- `decode(data:)`;
- the positional-to-keyed `transform`;
- the root decoder, which opens one container unless several are allowed;
- the keyed, unkeyed and single-value containers, with their shared integer-coercion rule;
- the typed `decode` overloads;
- the decoder options and the coding key.

**The client sync coordinator.** It is a state machine over these fields:
- the watermark `lastUpdate` of the last batch update;
- the client id;
- the active-client flag and the time of its last update;
- the user's email.

It has three entry points:
- `synchronize` and its response handler;
- `setActive`, with a 60-second cooldown;
- frame dispatch, for keep-alive, client-id and batch-update frames.

The modules:
- `Wrappers`: `Option` and `Result`.
- `Wire`: the parsed JSON value tree (`Null | Bool | Num | Str | Arr | Dict`) and the fixed-width integer types. It holds Swift's `FixedWidthInteger.init?(String)` as `ParseInt`, decimal printing, the `as? T` casts, and the coercion rule "a number of the type, or a string that parses as the type".
- `Sanitizer`: the regular-expression rewrite, as a direct function on the text.
- `Positional`: `transform`, as a method with the source's two loops.
- `PBLite`: the decoder and its container classes. Their mutable state (the cursor `count` and the `children` lists) lives in class fields.
- `HangoutsClient`: the pure specification functions over a `ClientState` record, and the lemmas about them. It also holds the `Client` class, whose methods are proved equal to those functions.

The model stands in for what it does not run:
- Network calls are appended to the log `sent`.
- A response arriving is an explicit method call.
- The wall clock is the integer parameter `now`.
- The JSON parser, the UTF-8 decoder and the `Codable` decoder of `BatchUpdate` are function parameters.

A Swift runtime trap (`try!`, `as!`, a force-unwrap, an index out of range) becomes one of:
- `Fault.Trapped` in the decoder;
- `ok == false` in client methods;
- `None` in the client's specification functions.

## Model

| member | source | states |
|---|---|---|
| `Sanitizer.SanitizeUnchangedIff` | Hangouts/PBLiteDecoder.swift:56-60 | The sanitizer leaves the text unchanged exactly when no `,` or `[` is followed by optional white space and then a `,`. |
| `Sanitizer.SanitizeKeeps` | Hangouts/PBLiteDecoder.swift:56-60 | Only white space and the letters `n`, `u` and `l` differ between input and output. Every other character is kept, in the same order. |
| `Sanitizer.RewriteCopiesGap` | Hangouts/PBLiteDecoder.swift:56-60 | Text in which no match starts is copied unchanged, white space included. |
| `Sanitizer.SanitizeFirstSlot` | Hangouts/PBLiteDecoder.swift:56-60 | Everything before the first match is copied. The match becomes the last white-space character of its run, if there is one, then `null`, and its closing `,` is kept. |
| `Sanitizer.SanitizeFillsAll` | Hangouts/PBLiteDecoder.swift:56-60 | Every omitted element is filled. The output has no `,` or `[` followed by optional white space and then a `,`. |
| `Sanitizer.SanitizeFillsMiddleSlot` | Hangouts/PBLiteDecoder.swift:56-60 | `[1,,3]` becomes `[1,null,3]`. |
| `Sanitizer.SanitizeFillsLeadingSlot` | Hangouts/PBLiteDecoder.swift:56-60 | `[,1]` becomes `[null,1]`. |
| `Sanitizer.SanitizeKeepsTrailingComma` | Hangouts/PBLiteDecoder.swift:56-60 | A trailing `,]` is left untouched. |
| `Sanitizer.SanitizeKeepsLastSpace` | Hangouts/PBLiteDecoder.swift:56-60 | The `$1` of the template keeps the last white-space character of the run before `null`. |
| `Sanitizer.SkipSpace` | Hangouts/PBLiteDecoder.swift:60 | The `(\s)*` part of the pattern: the end of the maximal white-space run. |
| `Wire.ParseInt` | Hangouts/PBLiteDecoder.swift:124-126 | Swift's integer-from-string initializer. A result is in the type's range, and the text starts with a digit or a sign. |
| `Wire.ParseShowInt` | Hangouts/PBLiteDecoder.swift:124-126 | Every in-range integer, printed in decimal, parses back to itself. |
| `Wire.ShowNatDigits` | Hangouts/PBLiteDecoder.swift:561-563 | The decimal form of a natural number is a non-empty digit string whose value is that number. |
| `Wire.Cast` | Hangouts/PBLiteDecoder.swift:138 | `as? T` never turns a string into a number. Null never casts. An integer cast agrees with `AsInt`. |
| `Wire.Coerce` | Hangouts/PBLiteDecoder.swift:118-131 | The shared numeric rule: an in-range number, or a string that parses as the type. Null never coerces. |
| `Wire.CoerceStringAgrees` | Hangouts/PBLiteDecoder.swift:118-131 | An integer stored as a number and the same integer stored as its decimal string decode alike. |
| `Wire.CoerceExamples` | Hangouts/PBLiteDecoder.swift:118-131 | `"42"` and `42` both yield 42; `"abc"` yields nothing. |
| `Positional.Fields` | Hangouts/PBLiteDecoder.swift:217-227 | Slot k is stored under field k + 1 exactly when it is not null. No other field numbers appear. |
| `Positional.Transform` | Hangouts/PBLiteDecoder.swift:217-238 | The result satisfies `Transformed`. Without an extension block it is the positional fields. A block key that is not an `Int` traps. Otherwise the last field is removed and the block's entries are merged over the rest, null values included. |
| `Positional.MergedAdd` | Hangouts/PBLiteDecoder.swift:232-235 | Storing one more extension key under its parsed field number keeps the partial merge invariant: the keys are the positional ones minus the last slot plus the merged field numbers, other fields keep their positional value, and each merged field holds the value of some key that parses to it. |
| `Positional.NullOnlyFromExtension` | Hangouts/PBLiteDecoder.swift:217-238 | A stored null can only come from the extension block. |
| `Positional.SlotIsField` | Hangouts/PBLiteDecoder.swift:217-227 | A slot the block does not override is stored exactly when it is not null. |
| `Positional.StoredFieldOrigin` | Hangouts/PBLiteDecoder.swift:217-238 | Every stored field is either its non-null slot or a field named by the extension block. |
| `PBLite.OptionsIndependent` | Hangouts/PBLiteDecoder.swift:14-28 | The two options are distinct bits. The empty set holds neither, and their union holds both. |
| `PBLite.KeyRoundTrip` | Hangouts/PBLiteDecoder.swift:552-564 | An integer key always exists, and its string form parses back to the integer. A key is never made from a string. |
| `PBLite.PrepareRoot` | Hangouts/PBLiteDecoder.swift:42-60 | Bytes that are not UTF-8 raise `dataCorrupted`. A failed parse traps. A non-array raises `dataCorrupted`. An empty array traps on removing element 0. Otherwise element 0 is dropped. |
| `PBLite.PBLiteDecoder.Decode` | Hangouts/PBLiteDecoder.swift:36-39 | A fresh root container with an empty coding path over the value becomes the decoder's root. |
| `PBLite.PBLiteDecoder.DecodeData` | Hangouts/PBLiteDecoder.swift:42-51 | The root is built over the prepared array, or the error of `PrepareRoot` is returned. |
| `PBLite.DecoderContainer.OpenKeyedRoot` | Hangouts/PBLiteDecoder.swift:504-514 | A refused second container traps. Non-array content raises `dataCorrupted`. Otherwise the transformed container is recorded as a child. |
| `PBLite.DecoderContainer.OpenUnkeyedRoot` | Hangouts/PBLiteDecoder.swift:516-526 | The same policy. The cursor starts at the full element count. |
| `PBLite.DecoderContainer.OpenSingleValueRoot` | Hangouts/PBLiteDecoder.swift:528-533 | The same policy. Any content is accepted. |
| `PBLite.RequestTwoRootContainers` | Hangouts/PBLiteDecoder.swift:539-544 | A second container request succeeds exactly when `multipleRootContainers` is set; otherwise it traps. |
| `PBLite.KeyedContainer.DecodeNil` | Hangouts/PBLiteDecoder.swift:111-116 | True exactly when the field is stored, and stored as null. |
| `PBLite.KeyedSlot` | Hangouts/PBLiteDecoder.swift:111-155 | In a container over a message array, take a slot the extension block does not override. A null slot is not contained, not nil, a `typeMismatch` for the numeric read and the empty array for an array type. A non-null slot is contained, not nil, and decodes as a child one key deeper over its own value. |
| `PBLite.KeyedNilFromExtension` | Hangouts/PBLiteDecoder.swift:111-116 | `decodeNil(forKey:)` is true exactly for a field that the extension block stores as null. |
| `PBLite.KeyedContainer.AllKeys` | Hangouts/PBLiteDecoder.swift:207-209 | Exactly the stored field numbers that the message's key type names. |
| `PBLite.KeyedContainer.DecodeNumeric` | Hangouts/PBLiteDecoder.swift:118-131 | It succeeds exactly when the field is present and coerces, and then yields the coerced in-range value. An absent or null field raises `typeMismatch`, never `valueNotFound`. |
| `PBLite.KeyedContainer.DecodeValue` | Hangouts/PBLiteDecoder.swift:133-143 | A plain cast. A stored string never decodes as a non-string kind. Failures raise `typeMismatch`. |
| `PBLite.KeyedContainer.Decode` | Hangouts/PBLiteDecoder.swift:145-155 | An absent or null field gives the empty array for an array type and `typeMismatch` otherwise. A present field gives a child one key deeper over that value. |
| `PBLite.KeyedContainer.DecodeTyped` | Hangouts/PBLiteDecoder.swift:605-647 | The integer overloads use the numeric path. Bool, float, double and string use the plain cast. |
| `PBLite.KeyedContainer.NestedArray` | Hangouts/PBLiteDecoder.swift:160-186 | An absent or null field raises `keyNotFound`. A non-array raises `typeMismatch(Array)`. |
| `PBLite.KeyedContainer.NestedContainer` | Hangouts/PBLiteDecoder.swift:160-172 | Those errors, or a transformed child at path + key, appended to `children`. |
| `PBLite.KeyedContainer.NestedUnkeyedContainer` | Hangouts/PBLiteDecoder.swift:174-186 | Those errors, or a cursor over the array at path + key, appended to `children`. |
| `PBLite.UnkeyedContainer.CurrentIndex` | Hangouts/PBLiteDecoder.swift:251-253 | The current element is at `|content| - count`, within bounds. |
| `PBLite.UnkeyedContainer.IsAtEnd` | Hangouts/PBLiteDecoder.swift:391-393 | At the end exactly when the current index is the element count. |
| `PBLite.UnkeyedContainer.DecodeNil` | Hangouts/PBLiteDecoder.swift:292-294 | It answers whether the container is exhausted and never moves the cursor. |
| `PBLite.UnkeyedContainer.DecodeNumeric` | Hangouts/PBLiteDecoder.swift:296-311 | It returns the coerced current element. With nothing left it raises `typeMismatch`. Only a stored number advances the cursor; a parsed string leaves it in place. |
| `PBLite.UnkeyedContainer.DecodeValue` | Hangouts/PBLiteDecoder.swift:313-325 | A plain cast of the current element. Success advances by one; failure leaves the cursor. |
| `PBLite.UnkeyedContainer.Decode` | Hangouts/PBLiteDecoder.swift:327-335 | A child over the current element, advancing by one. With nothing left it raises `typeMismatch`. |
| `PBLite.UnkeyedContainer.DecodeTyped` | Hangouts/PBLiteDecoder.swift:730-785 | The typed overloads, with the cursor rules of the paths they use. |
| `PBLite.UnkeyedContainer.NestedContainer` | Hangouts/PBLiteDecoder.swift:341-356 | With nothing left it raises `dataCorrupted`; a non-array raises `typeMismatch`. Otherwise a transformed child, appended to `children`, and the cursor advances. |
| `PBLite.UnkeyedContainer.NestedUnkeyedContainer` | Hangouts/PBLiteDecoder.swift:358-373 | The same for a nested cursor. |
| `PBLite.ReadNumericStringTwice` | Hangouts/PBLiteDecoder.swift:303-305 | Two reads of a numeric string yield the same number, and the element is still unread. |
| `PBLite.ReadNumbersInOrder` | Hangouts/PBLiteDecoder.swift:296-311 | Two stored numbers are read in order, and the container is then at its end. |
| `PBLite.SingleValueContainer.DecodeNil` | Hangouts/PBLiteDecoder.swift:433-440 | True exactly when the value reads raise `valueNotFound`. |
| `PBLite.SingleValueContainer.DecodeNumeric` | Hangouts/PBLiteDecoder.swift:442-455 | Null raises `valueNotFound`. A value that does not coerce raises `typeMismatch` with an empty path. |
| `PBLite.SingleValueContainer.DecodeValue` | Hangouts/PBLiteDecoder.swift:457-468 | Null raises `valueNotFound`. A wrong type raises `typeMismatch`. |
| `PBLite.SingleValueContainer.Decode` | Hangouts/PBLiteDecoder.swift:470-480 | Null raises `valueNotFound`. Non-array content raises `typeMismatch`. An array goes to a child at path `[0]`. |
| `PBLite.SingleValueContainer.DecodeTyped` | Hangouts/PBLiteDecoder.swift:868-924 | The typed overloads over the single value. |
| `HangoutsClient.SynchronizeRequests` | Hangouts/Client.swift:107-111 | With watermark 0 nothing is sent. Otherwise exactly one sync request is sent, from the watermark, with a 1048576-byte limit. |
| `HangoutsClient.FreshClientDoesNotSync` | Hangouts/Client.swift:33 | A new client's watermark is 0, so it does not resync. |
| `HangoutsClient.Client.constructor` | Hangouts/Client.swift:27-33 | The initial field values. |
| `HangoutsClient.Client.Synchronize` | Hangouts/Client.swift:107-111 | Equals `SynchronizeSpec` on the client's fields. |
| `HangoutsClient.Newer` | Hangouts/Client.swift:116 | Exactly the events newer than the watermark: an event is in the result iff it is in the input and its timestamp is greater than the watermark. |
| `HangoutsClient.ApplyEvents` | Hangouts/Client.swift:115-126 | The inner loop keeps the set of known conversations, and changes nothing but conversations and handled events. |
| `HangoutsClient.ApplyConversationStates` | Hangouts/Client.swift:112-130 | The outer loop only adds conversations, and changes nothing but conversations and handled events. |
| `HangoutsClient.ApplyEventsConversation` | Hangouts/Client.swift:119-125 | Each known conversation gains exactly the events newer than the watermark that name it, in response order. |
| `HangoutsClient.ApplyEventsHandled` | Hangouts/Client.swift:115-126 | The handled log gains, in order, the newer events that name a known conversation. Events for unknown conversations are skipped. |
| `HangoutsClient.KnownConversationGetsNewerEvents` | Hangouts/Client.swift:113-126 | Suppose the conversation state's id is known and every one of its events names that same conversation. Then the conversation gets the response's snapshot, followed by its old events plus the newer ones, in order. |
| `HangoutsClient.UnknownConversationGetsAllEvents` | Hangouts/Client.swift:127-129 | An unknown conversation is created with the full, unfiltered event list. |
| `HangoutsClient.SyncFiltersByWatermark` | Hangouts/Client.swift:112-133 | With watermark 100, events at 90, 150 and 200 leave exactly the last two, in order. |
| `HangoutsClient.SyncAssignsWatermark` | Hangouts/Client.swift:133 | Afterwards the watermark is the response's timestamp, and no other scalar field changes. |
| `HangoutsClient.WatermarkCanDecrease` | Hangouts/Client.swift:133 | An older sync timestamp moves the watermark back: it is assigned, not raised. |
| `HangoutsClient.Client.OnSyncResponse` | Hangouts/Client.swift:111-135 | The outer loop, then the watermark assignment, equals `SyncResponseSpec`. |
| `HangoutsClient.Client.OnConversationState` | Hangouts/Client.swift:112-130 | One conversation state, with the inner event loop, equals `ApplyConversationState` against the watermark read when the response arrived. |
| `HangoutsClient.SetActiveSpec` | Hangouts/Client.swift:143-171 | Without a client id, or while active within the cooldown, nothing changes. Otherwise the flag becomes active, the time becomes `now`, and the requests are sent; nothing else changes. |
| `HangoutsClient.SetActiveCount` | Hangouts/Client.swift:155-170 | A proceeding call sends exactly one setactiveclient request. Other calls send none. |
| `HangoutsClient.SetActiveCooldown` | Hangouts/Client.swift:151-170 | Two calls at most 60 s apart send at most one setactiveclient request between them, and exactly one when the first call proceeds. |
| `HangoutsClient.SetActiveCooldownExpires` | Hangouts/Client.swift:151-170 | After a proceeding call, a call more than 60 s later proceeds too. The two calls send two setactiveclient requests. |
| `HangoutsClient.SetActiveSelfInfo` | Hangouts/Client.swift:146-167 | Without a client id nothing happens. A get-self-info request goes out exactly on a proceeding call while the email is unknown. |
| `HangoutsClient.Client.SetActive` | Hangouts/Client.swift:143-171 | Equals `SetActiveSpec` at time `now`. |
| `HangoutsClient.Client.OnSelfInfo` | Hangouts/Client.swift:164-166 | The first email is stored. An empty list traps. |
| `HangoutsClient.SetActiveMakesInteracting` | Hangouts/Client.swift:173-176 | After `setActive` the client reads as interacting exactly when a client id is known or it already did. |
| `HangoutsClient.Client.UserInteractionState` | Hangouts/Client.swift:173-176 | True exactly when the active-client state is `IsActive`. |
| `HangoutsClient.SetInteractionAsWritten` | Hangouts/Client.swift:177-183 | The setter as written: it calls `setActive` only when the client already reads as interacting. |
| `HangoutsClient.SetterIgnoresNewValue` | Hangouts/Client.swift:177-183 | In the setter as written, setting true on an inactive client with a client id changes nothing. |
| `HangoutsClient.SetInteraction` | Hangouts/Client.swift:177-183 | Corrected setter: setting true calls `setActive`, which makes a client with an id interacting. Setting false changes nothing. |
| `HangoutsClient.Client.SetUserInteractionState` | Hangouts/Client.swift:177-183 | The setter as written: equals `SetInteractionAsWritten`, so the result depends on the getter and not on the assigned value. |
| `HangoutsClient.Client.SetUserInteractionStateIntended` | Hangouts/Client.swift:177-183 | The corrected setter: equals `SetInteraction`. |
| `HangoutsClient.ApplyUpdates` | Hangouts/Client.swift:232-239 | It succeeds exactly when every header is complete. Then the flag and watermark come from the last update, and nothing else changes. |
| `HangoutsClient.Client.ApplyBatch` | Hangouts/Client.swift:232-239 | The loop equals `ApplyUpdates`. |
| `HangoutsClient.ClientIdStep` | Hangouts/Client.swift:200-222 | Wrapper field `3` must carry a string `2`, else it traps. The client id is set, and one add-services message for babel and babel_presence_last_seen is sent. Without field `3` nothing changes. |
| `HangoutsClient.NoopFrame` | Hangouts/Client.swift:208-210 | A `noop` frame changes nothing. An empty frame traps. |
| `HangoutsClient.ClientIdFrame` | Hangouts/Client.swift:215-222 | A client-id frame sets the id and sends the add-services message once. |
| `HangoutsClient.BatchUpdateFrame` | Hangouts/Client.swift:223-239 | A `cbu` frame leaves the flag and the watermark from its last state update, and nothing else changes. |
| `HangoutsClient.OtherTagFrame` | Hangouts/Client.swift:229-242 | A payload with another tag leaves the state as it was. |
| `HangoutsClient.Client.DidReceiveMessage` | Hangouts/Client.swift:187-244 | It succeeds exactly when `FrameSpec` does not trap, and then the new fields equal its result. |

## Left out

- MochaUI (window transforms, monogram drawing): user-interface and floating-point code.
- JSON tokenizing, the regular-expression engine and UTF-8 decoding. Parsing is a function parameter from text to an optional value tree. The sanitizer is a direct function on the text, and UTF-8 decoding is a parameter.
- Swift `Codable` reflection. A requested `Kind` stands for the type `T`. A decode that would call `T(from:)` returns the child decoder (`Decoded.Child`) it would read. The type-name test for arrays is `expected == ArrayKind`. The `BatchUpdate` decoder used by the client is a function parameter.
- `superDecoder` in the keyed and unkeyed containers, and the `matchesType` helpers: neither is called by the modelled operations.
- The commented-out `decodeIfPresent` overloads, and the `primitiveRootValues` option, which nothing reads.
- Float and Double decoding: a plain tag check on a number, with no floating-point values.
- Bridging between Foundation numbers and Booleans: the model's casts look only at the value's own tag.
- Diagnostic messages and logging. Coding paths are kept. The unkeyed container's child paths use the remaining count, as the source does.
- The coding key's fatal error on a key without an integer value: every key in the model is an integer.
- `Channel`, notifications, observers, dispatch queues and asynchronous callbacks. Requests are appended to `sent`, and responses are method calls.
- The wall clock: `now` is an integer parameter. Both of `setActive`'s clock reads are the same `now`. The comparison with the 60-second limit is on whole seconds rather than `Double`s.
- The force-unwraps of optional fields in the sync response: the model's sync response always has these fields, so these traps are not modelled. They are:
  - the response itself;
  - `conversation_id`, `timestamp` and `sync_timestamp`;
  - `conv_state.conversation!`, which is unwrapped when the snapshot is updated and when a new conversation is added (Client.swift:114, 128).
- The force-unwraps in the get-self-info callback (`res!.self_entity!.properties!`, Client.swift:165). `Client.OnSelfInfo` receives the email list directly, so only the trap of `email[0]` on an empty list is modelled.
- The conversation list and its conversations are a map from conversation id to a snapshot and an event list. `update_conversation` replaces the snapshot. `add` appends the event, and `handleEvent` appends it to the `handled` log. A new conversation is stored under the id of its conversation state.
- The `channel` of the client is taken to be present, so `addChannelServices` always sends its message.
- The wrapper's `decodeJSON` result is required to be a dictionary, and anything else is a trap. Both JSON parses in frame dispatch use the same parser parameter.

## Findings

| source | as written | input that shows it | evidently intended | confidence | as-written member | corrected member |
|---|---|---|---|---|---|---|
| Hangouts/Client.swift:177-183 | The `userInteractionState` setter tests the getter (`if userInteractionState`) instead of the assigned value. | An inactive client with a client id, assigned `true`: `setActive` is never called and the client stays inactive. | Assigning `true` calls `setActive`; assigning `false` lets the state expire. | medium, not executed | `HangoutsClient.SetInteractionAsWritten`, `HangoutsClient.SetterIgnoresNewValue`, `HangoutsClient.Client.SetUserInteractionState` | `HangoutsClient.SetInteraction`, `HangoutsClient.Client.SetUserInteractionStateIntended` |
