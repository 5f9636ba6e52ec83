/**
 * `PBLiteDecoder`: the decoder object, its root `DecoderContainer`, and the
 * keyed, unkeyed and single-value containers it hands to message types.
 *
 * Swift's `Decodable` machinery is replaced by an explicit requested `Kind`:
 * where the source calls `T(from: DecoderContainer(...))`, the model returns
 * the child decoder it would have built (`Decoded.Child`).
 */
module PBLite {
  import opened Wrappers
  import opened Wire
  import opened Positional
  import opened Sanitizer

  /** A coding path: the integer keys walked from the root. */
  type Path = seq<int>

  /** Swift's `DecodingError` cases that the decoder throws. */
  datatype DecodeError =
    | TypeMismatch(expected: Kind, path: Path)
    | ValueNotFound(expected: Kind, path: Path)
    | KeyNotFound(key: int, path: Path)
    | DataCorrupted(path: Path)

  /** A thrown `DecodingError`, or a runtime trap (a failing `try!`, `as!` or `!`). */
  datatype Fault = Thrown(error: DecodeError) | Trapped

  /**
   * What a decode call yields: a primitive, the empty array produced for an
   * absent array field, or the child decoder that `T(from:)` would read.
   */
  datatype Decoded = Primitive(value: Value) | EmptyArray | Child(path: Path, content: Wire)

  /** `PBLiteDecoder.Options`, an `OptionSet` over an `Int` raw value. */
  datatype Options = Options(rawValue: bv64) {
    predicate Contains(member: Options) {
      rawValue & member.rawValue == member.rawValue
    }

    function Union(other: Options): Options {
      Options(rawValue | other.rawValue)
    }
  }

  const NoOptions: Options := Options(0)
  const MultipleRootContainers: Options := Options(1)
  const PrimitiveRootValues: Options := Options(2)

  /** The two flags are independent bits, and the default set holds neither. */
  lemma OptionsIndependent()
    ensures !NoOptions.Contains(MultipleRootContainers) && !NoOptions.Contains(PrimitiveRootValues)
    ensures !MultipleRootContainers.Contains(PrimitiveRootValues)
    ensures !PrimitiveRootValues.Contains(MultipleRootContainers)
    ensures MultipleRootContainers.Union(PrimitiveRootValues).Contains(MultipleRootContainers)
    ensures MultipleRootContainers.Union(PrimitiveRootValues).Contains(PrimitiveRootValues)
  {
  }

  /** `PBLiteKey`: a coding key that only has an integer form. */
  datatype PBLiteKey = PBLiteKey(intValue: Option<int>) {
    function StringValue(): string {
      ShowInt(intValue.GetOr(0))
    }
  }

  /** `PBLiteKey.init?(intValue:)` always succeeds. */
  function KeyFromInt(i: int): Option<PBLiteKey> {
    Some(PBLiteKey(Some(i)))
  }

  /** `PBLiteKey.init?(stringValue:)` always fails. */
  function KeyFromString(s: string): Option<PBLiteKey> {
    None
  }

  /** A key made from an `Int` prints as a string that parses back to that `Int`. */
  lemma KeyRoundTrip(i: int)
    requires InRange(i, Int64)
    ensures KeyFromInt(i).Some? && ParseInt(KeyFromInt(i).value.StringValue(), Int64) == Some(i)
    ensures KeyFromString(KeyFromInt(i).value.StringValue()) == None
  {
    ParseShowInt(i, Int64);
  }

  /**
   * `data` decoded as UTF-8, sanitized, parsed as JSON, and stripped of its
   * first element: the content `decode(data:)` hands to the root decoder.
   */
  function PrepareRoot(data: seq<bv8>, utf8: seq<bv8> -> Option<string>, parse: string -> Option<Wire>)
    : (r: Result<seq<Wire>, Fault>)
    ensures utf8(data).None? ==> r == Err(Thrown(DataCorrupted([])))
    ensures utf8(data).Some? ==>
      var parsed := parse(Sanitize(utf8(data).value));
      && (parsed.None? ==> r == Err(Trapped))
      && (parsed.Some? && !parsed.value.Arr? ==> r == Err(Thrown(DataCorrupted([]))))
      && (parsed == Some(Arr([])) ==> r == Err(Trapped))
      && (parsed.Some? && parsed.value.Arr? && |parsed.value.elems| > 0 ==>
            r == Ok(parsed.value.elems[1..]))
  {
    match utf8(data)
    case None => Err(Thrown(DataCorrupted([])))
    case Some(script) =>
      match parse(Sanitize(script))
      case None => Err(Trapped)                          // `try! st.decodeJSON()`
      case Some(json) =>
        if !json.Arr? then Err(Thrown(DataCorrupted([]))) // `as? [Any]` gave nil
        else if json.elems == [] then Err(Trapped)        // `parsed.remove(at: 0)` on []
        else Ok(json.elems[1..])
  }

  /** The owner of all containers of one decode: its options and its current root. */
  class PBLiteDecoder {
    const options: Options
    var root: DecoderContainer?

    constructor (options: Options)
      ensures this.options == options && root == null
    {
      this.options := options;
      root := null;
    }

    /** `decode(_ value: Any)`: a fresh root container over the value. */
    method Decode(value: Wire) returns (d: DecoderContainer)
      modifies this`root
      ensures fresh(d) && root == d
      ensures d.owner == this && d.path == [] && d.content == value && d.children == []
    {
      d := new DecoderContainer(this, [], value);
      root := d;
    }

    /** `decode(data:)`: `utf8` and `parse` stand for Foundation's UTF-8 decoding and JSON parser. */
    method DecodeData(data: seq<bv8>, utf8: seq<bv8> -> Option<string>, parse: string -> Option<Wire>)
      returns (r: Result<DecoderContainer, Fault>)
      modifies this`root
      ensures PrepareRoot(data, utf8, parse).Err? ==>
        r == Err(PrepareRoot(data, utf8, parse).error) && root == old(root)
      ensures PrepareRoot(data, utf8, parse).Ok? ==>
        && r.Ok? && fresh(r.value) && root == r.value
        && r.value.owner == this && r.value.path == [] && r.value.children == []
        && r.value.content == Arr(PrepareRoot(data, utf8, parse).value)
    {
      var prepared := PrepareRoot(data, utf8, parse);
      if prepared.Err? {
        return Err(prepared.error);
      }
      var d := Decode(Arr(prepared.value));
      r := Ok(d);
    }
  }

  /** A keyed container over `elems`, or the trap `transform` hits. */
  method OpenKeyed(owner: PBLiteDecoder, path: Path, elems: seq<Wire>) returns (r: Result<KeyedContainer, Fault>)
    ensures r.Ok? ==>
      && fresh(r.value) && r.value.owner == owner && r.value.path == path
      && Transformed(elems, Some(r.value.content)) && r.value.children == []
    ensures r.Err? ==> r.error == Trapped && Transformed(elems, None)
  {
    var m := Transform(elems);
    if m.None? {
      return Err(Trapped);
    }
    var c := new KeyedContainer(owner, path, m.value);
    r := Ok(c);
  }

  /** The decoder handed to `T(from:)`: it opens one container over its content. */
  class DecoderContainer {
    const owner: PBLiteDecoder
    const path: Path
    const content: Wire
    var children: seq<object>

    constructor (owner: PBLiteDecoder, path: Path, content: Wire)
      ensures this.owner == owner && this.path == path && this.content == content && children == []
    {
      this.owner := owner;
      this.path := path;
      this.content := content;
      children := [];
    }

    /** `throwIfExists` passes: no container was opened yet, or the owner allows several. */
    predicate MayOpen()
      reads this
    {
      |children| == 0 || owner.options.Contains(MultipleRootContainers)
    }

    /** `container(keyedBy:)`. `throwIfExists` is called with `try!`, so a refused second container traps. */
    method OpenKeyedRoot() returns (r: Result<KeyedContainer, Fault>)
      modifies this`children
      ensures !old(MayOpen()) ==> r == Err(Trapped) && children == old(children)
      ensures old(MayOpen()) && !content.Arr? ==>
        r == Err(Thrown(DataCorrupted(path))) && children == old(children)
      ensures old(MayOpen()) && content.Arr? && r.Ok? ==>
        && fresh(r.value) && r.value.owner == owner && r.value.path == path
        && Transformed(content.elems, Some(r.value.content))
        && children == old(children) + [r.value]
      ensures old(MayOpen()) && content.Arr? && r.Err? ==>
        r.error == Trapped && Transformed(content.elems, None)
    {
      if !MayOpen() {
        return Err(Trapped);
      }
      if !content.Arr? {
        return Err(Thrown(DataCorrupted(path)));
      }
      r := OpenKeyed(owner, path, content.elems);
      if r.Ok? {
        children := children + [r.value];
      }
    }

    /** `unkeyedContainer()`. */
    method OpenUnkeyedRoot() returns (r: Result<UnkeyedContainer, Fault>)
      modifies this`children
      ensures !old(MayOpen()) ==> r == Err(Trapped) && children == old(children)
      ensures old(MayOpen()) && !content.Arr? ==>
        r == Err(Thrown(DataCorrupted(path))) && children == old(children)
      ensures old(MayOpen()) && content.Arr? ==>
        && r.Ok? && fresh(r.value) && r.value.Valid()
        && r.value.owner == owner && r.value.path == path
        && r.value.content == content.elems && r.value.count == |content.elems|
        && children == old(children) + [r.value]
    {
      if !MayOpen() {
        return Err(Trapped);
      }
      if !content.Arr? {
        return Err(Thrown(DataCorrupted(path)));
      }
      var c := new UnkeyedContainer(owner, path, content.elems);
      children := children + [c];
      r := Ok(c);
    }

    /** `singleValueContainer()`: any content, array or not. */
    method OpenSingleValueRoot() returns (r: Result<SingleValueContainer, Fault>)
      modifies this`children
      ensures !old(MayOpen()) ==> r == Err(Trapped) && children == old(children)
      ensures old(MayOpen()) ==>
        && r.Ok? && fresh(r.value) && r.value.owner == owner && r.value.content == content
        && children == old(children) + [r.value]
    {
      if !MayOpen() {
        return Err(Trapped);
      }
      var c := new SingleValueContainer(owner, content);
      children := children + [c];
      r := Ok(c);
    }
  }

  /** `KeyedContainer`: the fields of one message, by field number. */
  class KeyedContainer {
    const owner: PBLiteDecoder
    const path: Path
    const content: map<int, Wire>
    var children: seq<object>

    constructor (owner: PBLiteDecoder, path: Path, content: map<int, Wire>)
      ensures this.owner == owner && this.path == path && this.content == content && children == []
    {
      this.owner := owner;
      this.path := path;
      this.content := content;
      children := [];
    }

    /** The guard every decode starts with: the field is stored and is not null. */
    function Lookup(key: int): (r: Option<Wire>)
      ensures r.Some? <==> key in content && content[key] != Null
      ensures r.Some? ==> r.value == content[key]
    {
      if key in content && content[key] != Null then Some(content[key]) else None
    }

    /** `decodeNil(forKey:)`: the field is stored, and stored as null. */
    function DecodeNil(key: int): (r: bool)
      ensures r <==> Contains(key) && Lookup(key).None?
    {
      key in content && content[key] == Null
    }

    /** `contains(_:)`: the field is stored, null or not. */
    function Contains(key: int): (r: bool)
      ensures r <==> Lookup(key).Some? || (key in content && content[key] == Null)
    {
      key in content
    }

    /**
     * `allKeys`: the stored field numbers for which the message's key type
     * has a case (`Key(intValue:)` is not nil).
     */
    function AllKeys(isKey: int -> bool): (r: set<int>)
      ensures forall f :: f in r <==> Contains(f) && isKey(f)
    {
      set f | f in content && isKey(f)
    }

    /**
     * `decodeNumeric(forKey:)`: the stored integer, or the stored string
     * parsed as the type. An absent or null field is a type mismatch, not a
     * missing value.
     */
    function DecodeNumeric(key: int, t: IntType): (r: Result<int, DecodeError>)
      ensures r.Ok? <==> Lookup(key).Some? && Coerce(content[key], t).Some?
      ensures r.Ok? ==> r.value == Coerce(content[key], t).value && InRange(r.value, t)
      ensures r.Err? ==> r.error == TypeMismatch(IntKind(t), path)
    {
      match Lookup(key)
      case None => Err(TypeMismatch(IntKind(t), path))
      case Some(v) =>
        match Coerce(v, t)
        case Some(n) => Ok(n)
        case None => Err(TypeMismatch(IntKind(t), path))
    }

    /** `decodeValue(forKey:)`: a plain `as? T`, never a string parse. */
    function DecodeValue(key: int, k: Kind): (r: Result<Value, DecodeError>)
      ensures r.Ok? <==> Lookup(key).Some? && Cast(content[key], k).Some?
      ensures r.Ok? ==> r.value == Cast(content[key], k).value
      ensures r.Err? ==> r.error == TypeMismatch(k, path)
      ensures k != StringKind && Lookup(key).Some? && content[key].Str? ==> r.Err?
    {
      match Lookup(key)
      case None => Err(TypeMismatch(k, path))
      case Some(v) =>
        match Cast(v, k)
        case Some(x) => Ok(x)
        case None => Err(TypeMismatch(k, path))
    }

    /**
     * Generic `decode<T>(_:forKey:)`: an absent or null field is the empty
     * array when T is an array type and a type mismatch otherwise; a present
     * one is decoded by a child decoder one key deeper.
     */
    function Decode(key: int, expected: Kind): (r: Result<Decoded, DecodeError>)
      ensures Lookup(key).None? && expected == ArrayKind ==> r == Ok(EmptyArray)
      ensures Lookup(key).None? && expected != ArrayKind ==> r == Err(TypeMismatch(expected, path))
      ensures Lookup(key).Some? ==>
        && r.Ok? && r.value.Child?
        && r.value.path == path + [key] && r.value.content == content[key]
    {
      match Lookup(key)
      case None => if expected == ArrayKind then Ok(EmptyArray) else Err(TypeMismatch(expected, path))
      case Some(v) => Ok(Child(path + [key], v))
    }

    /** The typed `decode(_:forKey:)` overloads: integers go through the numeric path, other primitives through `decodeValue`. */
    function DecodeTyped(key: int, k: Kind): (r: Result<Decoded, DecodeError>)
      ensures k.IntKind? ==> (r.Ok? <==> DecodeNumeric(key, k.t).Ok?)
      ensures k.IntKind? && r.Ok? ==> r.value == Primitive(VInt(DecodeNumeric(key, k.t).value))
      ensures (k == BoolKind || k == StringKind || k == FloatKind || k == DoubleKind) ==>
        (r.Ok? <==> DecodeValue(key, k).Ok?) && (r.Ok? ==> r.value == Primitive(DecodeValue(key, k).value))
      ensures (k == ArrayKind || k == NestedKind) ==> r == Decode(key, k)
      ensures r.Err? ==> r.error == TypeMismatch(k, path)
    {
      match k
      case IntKind(t) =>
        (match DecodeNumeric(key, t)
         case Ok(n) => Ok(Primitive(VInt(n)))
         case Err(e) => Err(e))
      case ArrayKind => Decode(key, k)
      case NestedKind => Decode(key, k)
      case _ =>
        (match DecodeValue(key, k)
         case Ok(x) => Ok(Primitive(x))
         case Err(e) => Err(e))
    }

    /** The guard of both nested-container calls: the field must be there and be an array. */
    function NestedArray(key: int): (r: Result<seq<Wire>, DecodeError>)
      ensures Lookup(key).None? ==> r == Err(KeyNotFound(key, path))
      ensures Lookup(key).Some? && !content[key].Arr? ==> r == Err(TypeMismatch(ArrayKind, path))
      ensures Lookup(key).Some? && content[key].Arr? ==> r == Ok(content[key].elems)
    {
      match Lookup(key)
      case None => Err(KeyNotFound(key, path))
      case Some(v) => if v.Arr? then Ok(v.elems) else Err(TypeMismatch(ArrayKind, path))
    }

    /** `nestedContainer(keyedBy:forKey:)`. */
    method NestedContainer(key: int) returns (r: Result<KeyedContainer, Fault>)
      modifies this`children
      ensures NestedArray(key).Err? ==> r == Err(Thrown(NestedArray(key).error)) && children == old(children)
      ensures NestedArray(key).Ok? && r.Ok? ==>
        && fresh(r.value) && r.value.owner == owner && r.value.path == path + [key]
        && Transformed(NestedArray(key).value, Some(r.value.content))
        && children == old(children) + [r.value]
      ensures NestedArray(key).Ok? && r.Err? ==>
        r.error == Trapped && Transformed(NestedArray(key).value, None)
    {
      var inside := NestedArray(key);
      if inside.Err? {
        return Err(Thrown(inside.error));
      }
      r := OpenKeyed(owner, path + [key], inside.value);
      if r.Ok? {
        children := children + [r.value];
      }
    }

    /** `nestedUnkeyedContainer(forKey:)`. */
    method NestedUnkeyedContainer(key: int) returns (r: Result<UnkeyedContainer, DecodeError>)
      modifies this`children
      ensures NestedArray(key).Err? ==> r == Err(NestedArray(key).error) && children == old(children)
      ensures NestedArray(key).Ok? ==>
        && r.Ok? && fresh(r.value) && r.value.Valid()
        && r.value.owner == owner && r.value.path == path + [key]
        && r.value.content == NestedArray(key).value && r.value.count == |r.value.content|
        && children == old(children) + [r.value]
    {
      var inside := NestedArray(key);
      if inside.Err? {
        return Err(inside.error);
      }
      var c := new UnkeyedContainer(owner, path + [key], inside.value);
      children := children + [c];
      r := Ok(c);
    }
  }

  /**
   * A keyed container over a message array, at field k + 1 for a slot k the
   * extension block does not override: a null slot is not contained, is not
   * nil, is a type mismatch for the numeric reads and decodes as an empty
   * array; a non-null slot is contained, not nil, and decodes as a child one
   * key deeper over the slot's own value.
   */
  lemma KeyedSlot(elems: seq<Wire>, c: KeyedContainer, k: int, t: IntType)
    requires Transformed(elems, Some(c.content))
    requires 0 <= k < |elems|
    requires HasExtension(elems) ==> k < |elems| - 1 && k + 1 !in ExtensionFields(Extension(elems))
    ensures c.Contains(k + 1) <==> elems[k] != Null
    ensures !c.DecodeNil(k + 1)
    ensures elems[k] == Null ==>
      && c.Decode(k + 1, ArrayKind) == Ok(EmptyArray)
      && c.DecodeNumeric(k + 1, t) == Err(TypeMismatch(IntKind(t), c.path))
    ensures elems[k] != Null ==>
      && c.Lookup(k + 1) == Some(elems[k])
      && c.Decode(k + 1, NestedKind) == Ok(Child(c.path + [k + 1], elems[k]))
  {
    SlotIsField(elems, c.content, k);
  }

  /** `decodeNil(forKey:)` holds exactly for the fields the extension block stores as null. */
  lemma KeyedNilFromExtension(elems: seq<Wire>, c: KeyedContainer, f: int)
    requires Transformed(elems, Some(c.content))
    ensures c.DecodeNil(f) <==>
      HasExtension(elems) && f in ExtensionFields(Extension(elems)) && f in c.content && c.content[f] == Null
  {
    if f in c.content {
      NullOnlyFromExtension(elems, c.content, f);
    }
  }

  /**
   * `UnkeyedContainer`: a cursor over an array. `count` is the number of
   * elements not yet read; the current element is at `|content| - count`.
   */
  class UnkeyedContainer {
    const owner: PBLiteDecoder
    const path: Path
    const content: seq<Wire>
    var count: int
    var children: seq<object>

    ghost predicate Valid()
      reads this
    {
      0 <= count <= |content|
    }

    constructor (owner: PBLiteDecoder, path: Path, content: seq<Wire>)
      ensures this.owner == owner && this.path == path && this.content == content
      ensures count == |content| && children == [] && Valid()
    {
      this.owner := owner;
      this.path := path;
      this.content := content;
      count := |content|;
      children := [];
    }

    /** `currentIndex`. */
    function CurrentIndex(): (i: int)
      reads this
      ensures Valid() ==> 0 <= i <= |content|
    {
      |content| - count
    }

    /** `isAtEnd`. */
    function IsAtEnd(): (r: bool)
      reads this
      ensures Valid() ==> (r <==> CurrentIndex() == |content|)
    {
      count == 0
    }

    /** The element the next read looks at. */
    function Current(): Wire
      reads this
      requires Valid() && count > 0
    {
      content[|content| - count]
    }

    /** `decodeNil()`: answers whether the container is exhausted, and never moves the cursor. */
    method DecodeNil() returns (r: bool)
      requires Valid()
      ensures r <==> IsAtEnd()
    {
      r := count == 0;
    }

    /**
     * `decodeNumeric()`: the coercion rule on the current element. A stored
     * integer moves the cursor; a parsed string does not.
     */
    method DecodeNumeric(t: IntType) returns (r: Result<int, DecodeError>)
      requires Valid()
      modifies this`count
      ensures Valid()
      ensures old(count) == 0 ==> r == Err(TypeMismatch(IntKind(t), path)) && count == 0
      ensures old(count) > 0 ==>
        && (r.Ok? <==> Coerce(old(Current()), t).Some?)
        && (r.Ok? ==> r.value == Coerce(old(Current()), t).value)
        && (r.Err? ==> r.error == TypeMismatch(IntKind(t), path))
        && count == (if AsInt(old(Current()), t).Some? then old(count) - 1 else old(count))
    {
      if count == 0 {
        return Err(TypeMismatch(IntKind(t), path));
      }
      var v := content[|content| - count];
      match AsInt(v, t)
      case Some(n) =>
        count := count - 1;
        r := Ok(n);
      case None =>
        if v.Str? && ParseInt(v.s, t).Some? {
          return Ok(ParseInt(v.s, t).value);  // no decrement here
        }
        r := Err(TypeMismatch(IntKind(t), path));
    }

    /** `decodeValue()`: a plain `as? T` on the current element; only a success moves the cursor. */
    method DecodeValue(k: Kind) returns (r: Result<Value, DecodeError>)
      requires Valid()
      modifies this`count
      ensures Valid()
      ensures old(count) == 0 ==> r == Err(TypeMismatch(k, path)) && count == 0
      ensures old(count) > 0 ==>
        && (r.Ok? <==> Cast(old(Current()), k).Some?)
        && (r.Ok? ==> r.value == Cast(old(Current()), k).value && count == old(count) - 1)
        && (r.Err? ==> r.error == TypeMismatch(k, path) && count == old(count))
    {
      if count == 0 {
        return Err(TypeMismatch(k, path));
      }
      var v := content[|content| - count];
      match Cast(v, k)
      case Some(x) =>
        count := count - 1;
        r := Ok(x);
      case None =>
        r := Err(TypeMismatch(k, path));
    }

    /** Generic `decode<T>(_:)`: the current element, whatever it is, read by a child decoder. */
    method Decode(expected: Kind) returns (r: Result<Decoded, DecodeError>)
      requires Valid()
      modifies this`count
      ensures Valid()
      ensures old(count) == 0 ==> r == Err(TypeMismatch(expected, path)) && count == 0
      ensures old(count) > 0 ==>
        r == Ok(Child(path + [old(count) - 1], old(Current()))) && count == old(count) - 1
    {
      if count == 0 {
        return Err(TypeMismatch(expected, path));
      }
      var v := content[|content| - count];
      count := count - 1;
      r := Ok(Child(path + [count], v));
    }

    /** The typed `decode(_:)` overloads. */
    method DecodeTyped(k: Kind) returns (r: Result<Decoded, DecodeError>)
      requires Valid()
      modifies this`count
      ensures Valid()
      ensures old(count) == 0 ==> r == Err(TypeMismatch(k, path)) && count == 0
      ensures old(count) > 0 && k.IntKind? ==>
        && (r.Ok? <==> Coerce(old(Current()), k.t).Some?)
        && (r.Ok? ==> r.value == Primitive(VInt(Coerce(old(Current()), k.t).value)))
        && count == (if AsInt(old(Current()), k.t).Some? then old(count) - 1 else old(count))
      ensures old(count) > 0 && (k == BoolKind || k == StringKind || k == FloatKind || k == DoubleKind) ==>
        && (r.Ok? <==> Cast(old(Current()), k).Some?)
        && (r.Ok? ==> r.value == Primitive(Cast(old(Current()), k).value) && count == old(count) - 1)
        && (r.Err? ==> count == old(count))
      ensures old(count) > 0 && (k == ArrayKind || k == NestedKind) ==>
        r == Ok(Child(path + [old(count) - 1], old(Current()))) && count == old(count) - 1
      ensures r.Err? ==> r.error == TypeMismatch(k, path)
    {
      match k
      case IntKind(t) =>
        var n := DecodeNumeric(t);
        r := if n.Ok? then Ok(Primitive(VInt(n.value))) else Err(n.error);
      case ArrayKind =>
        r := Decode(k);
      case NestedKind =>
        r := Decode(k);
      case _ =>
        var x := DecodeValue(k);
        r := if x.Ok? then Ok(Primitive(x.value)) else Err(x.error);
    }

    /** `nestedContainer(keyedBy:)`: the current element must be an array. */
    method NestedContainer() returns (r: Result<KeyedContainer, Fault>)
      requires Valid()
      modifies this`count, this`children
      ensures Valid()
      ensures old(count) == 0 ==>
        r == Err(Thrown(DataCorrupted(path))) && count == 0 && children == old(children)
      ensures old(count) > 0 && !old(Current()).Arr? ==>
        r == Err(Thrown(TypeMismatch(ArrayKind, path))) && count == old(count) && children == old(children)
      ensures old(count) > 0 && old(Current()).Arr? && r.Ok? ==>
        && fresh(r.value) && r.value.owner == owner && r.value.path == path + [old(count)]
        && Transformed(old(Current()).elems, Some(r.value.content))
        && children == old(children) + [r.value] && count == old(count) - 1
      ensures old(count) > 0 && old(Current()).Arr? && r.Err? ==>
        r.error == Trapped && Transformed(old(Current()).elems, None)
    {
      if count == 0 {
        return Err(Thrown(DataCorrupted(path)));
      }
      var v := content[|content| - count];
      if !v.Arr? {
        return Err(Thrown(TypeMismatch(ArrayKind, path)));
      }
      r := OpenKeyed(owner, path + [count], v.elems);
      if r.Ok? {
        children := children + [r.value];
        count := count - 1;
      }
    }

    /** `nestedUnkeyedContainer()`: the current element must be an array. */
    method NestedUnkeyedContainer() returns (r: Result<UnkeyedContainer, DecodeError>)
      requires Valid()
      modifies this`count, this`children
      ensures Valid()
      ensures old(count) == 0 ==>
        r == Err(DataCorrupted(path)) && count == 0 && children == old(children)
      ensures old(count) > 0 && !old(Current()).Arr? ==>
        r == Err(TypeMismatch(ArrayKind, path)) && count == old(count) && children == old(children)
      ensures old(count) > 0 && old(Current()).Arr? ==>
        && r.Ok? && fresh(r.value) && r.value.Valid()
        && r.value.owner == owner && r.value.path == path + [old(count)]
        && r.value.content == old(Current()).elems && r.value.count == |r.value.content|
        && children == old(children) + [r.value] && count == old(count) - 1
    {
      if count == 0 {
        return Err(DataCorrupted(path));
      }
      var v := content[|content| - count];
      if !v.Arr? {
        return Err(TypeMismatch(ArrayKind, path));
      }
      var c := new UnkeyedContainer(owner, path + [count], v.elems);
      children := children + [c];
      count := count - 1;
      r := Ok(c);
    }
  }

  /** `SingleValueContainer`: the whole content as one value; its coding path is empty. */
  class SingleValueContainer {
    const owner: PBLiteDecoder
    const content: Wire

    constructor (owner: PBLiteDecoder, content: Wire)
      ensures this.owner == owner && this.content == content
    {
      this.owner := owner;
      this.content := content;
    }

    /** `decodeNil()`. */
    function DecodeNil(): (r: bool)
      ensures r <==> DecodeValue(BoolKind).Err? && DecodeValue(BoolKind).error.ValueNotFound?
      ensures r <==> DecodeNumeric(Int64).Err? && DecodeNumeric(Int64).error.ValueNotFound?
    {
      content == Null
    }

    /** `decodeNumeric()`: null is a missing value; anything the coercion rule rejects is a type mismatch. */
    function DecodeNumeric(t: IntType): (r: Result<int, DecodeError>)
      ensures content == Null ==> r == Err(ValueNotFound(IntKind(t), []))
      ensures content != Null ==>
        && (r.Ok? <==> Coerce(content, t).Some?)
        && (r.Ok? ==> r.value == Coerce(content, t).value)
        && (r.Err? ==> r.error == TypeMismatch(IntKind(t), []))
    {
      if content == Null then Err(ValueNotFound(IntKind(t), []))
      else match Coerce(content, t)
        case Some(n) => Ok(n)
        case None => Err(TypeMismatch(IntKind(t), []))
    }

    /** `decodeValue()`: null is a missing value; a value of another type is a type mismatch. */
    function DecodeValue(k: Kind): (r: Result<Value, DecodeError>)
      ensures content == Null ==> r == Err(ValueNotFound(k, []))
      ensures content != Null ==>
        && (r.Ok? <==> Cast(content, k).Some?)
        && (r.Ok? ==> r.value == Cast(content, k).value)
        && (r.Err? ==> r.error == TypeMismatch(k, []))
    {
      if content == Null then Err(ValueNotFound(k, []))
      else match Cast(content, k)
        case Some(x) => Ok(x)
        case None => Err(TypeMismatch(k, []))
    }

    /** Generic `decode<T>(_:)`: only array content can be decoded further, by a child at path `[0]`. */
    function Decode(expected: Kind): (r: Result<Decoded, DecodeError>)
      ensures content == Null ==> r == Err(ValueNotFound(expected, []))
      ensures content != Null && !content.Arr? ==> r == Err(TypeMismatch(expected, []))
      ensures content.Arr? ==> r == Ok(Child([0], content))
    {
      if content == Null then Err(ValueNotFound(expected, []))
      else if !content.Arr? then Err(TypeMismatch(expected, []))
      else Ok(Child([0], content))
    }

    /** The typed `decode(_:)` overloads. */
    function DecodeTyped(k: Kind): (r: Result<Decoded, DecodeError>)
      ensures content == Null ==> r == Err(ValueNotFound(k, []))
      ensures k.IntKind? && content != Null ==>
        (r.Ok? <==> Coerce(content, k.t).Some?) && (r.Ok? ==> r.value == Primitive(VInt(Coerce(content, k.t).value)))
      ensures (k == BoolKind || k == StringKind || k == FloatKind || k == DoubleKind) && content != Null ==>
        (r.Ok? <==> Cast(content, k).Some?) && (r.Ok? ==> r.value == Primitive(Cast(content, k).value))
      ensures (k == ArrayKind || k == NestedKind) ==> r == Decode(k)
      ensures content != Null && r.Err? ==> r.error == TypeMismatch(k, [])
    {
      match k
      case IntKind(t) =>
        (match DecodeNumeric(t)
         case Ok(n) => Ok(Primitive(VInt(n)))
         case Err(e) => Err(e))
      case ArrayKind => Decode(k)
      case NestedKind => Decode(k)
      case _ =>
        (match DecodeValue(k)
         case Ok(x) => Ok(Primitive(x))
         case Err(e) => Err(e))
    }
  }

  /**
   * The root policy seen from a message type: asking the same decoder for a
   * second container traps unless the owner allows several root containers.
   */
  method RequestTwoRootContainers(options: Options, elems: seq<Wire>) returns (second: Result<UnkeyedContainer, Fault>)
    ensures second.Ok? <==> options.Contains(MultipleRootContainers)
    ensures second.Err? ==> second.error == Trapped
    ensures second.Ok? ==> second.value.content == elems && second.value.count == |elems|
  {
    var decoder := new PBLiteDecoder(options);
    var root := decoder.Decode(Arr(elems));
    var first := root.OpenUnkeyedRoot();
    second := root.OpenUnkeyedRoot();
  }

  /**
   * The string-coerced numeric read of an unkeyed container does not advance
   * the cursor: two reads of a numeric string yield the same number twice,
   * and the string is still the current element afterwards.
   */
  method ReadNumericStringTwice(path: Path, s: string, rest: seq<Wire>, t: IntType)
    returns (first: Result<int, DecodeError>, second: Result<int, DecodeError>, remaining: int)
    requires ParseInt(s, t).Some?
    ensures first == second == Ok(ParseInt(s, t).value)
    ensures remaining == 1 + |rest|
  {
    var decoder := new PBLiteDecoder(NoOptions);
    var c := new UnkeyedContainer(decoder, path, [Str(s)] + rest);
    first := c.DecodeNumeric(t);
    second := c.DecodeNumeric(t);
    remaining := c.count;
  }

  /** A stored integer, by contrast, is consumed: two reads see two consecutive elements. */
  method ReadNumbersInOrder(path: Path, m: int, n: int, t: IntType)
    returns (first: Result<int, DecodeError>, second: Result<int, DecodeError>, atEnd: bool)
    requires InRange(m, t) && InRange(n, t)
    ensures first == Ok(m) && second == Ok(n) && atEnd
  {
    var decoder := new PBLiteDecoder(NoOptions);
    var c := new UnkeyedContainer(decoder, path, [Num(m), Num(n)]);
    first := c.DecodeNumeric(t);
    second := c.DecodeNumeric(t);
    atEnd := c.IsAtEnd();
  }
}
