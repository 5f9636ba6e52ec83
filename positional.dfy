/**
 * `KeyedContainer.transform`: a PBLite message array becomes a map from
 * field number to value. Slot k holds field k + 1; null slots are left out.
 * When the last slot holds a dictionary, that dictionary is an extension
 * block: its keys are field numbers written as strings.
 */
module Positional {
  import opened Wrappers
  import opened Wire

  /** The positional fields: field k + 1 is slot k, when that slot is not null. */
  function Fields(content: seq<Wire>): (m: map<int, Wire>)
    ensures forall f :: f in m ==> 1 <= f <= |content|
    ensures forall k :: 0 <= k < |content| ==> (k + 1 in m <==> content[k] != Null)
    ensures forall k :: 0 <= k < |content| && content[k] != Null ==> m[k + 1] == content[k]
  {
    if content == [] then map[]
    else
      var last := content[|content| - 1];
      var m := Fields(content[..|content| - 1]);
      if last == Null then m else m[|content| := last]
  }

  /** The last slot holds a dictionary, field number `|content|`. */
  predicate HasExtension(content: seq<Wire>) {
    |content| > 0 && content[|content| - 1].Dict?
  }

  function Extension(content: seq<Wire>): map<string, Wire>
    requires HasExtension(content)
  {
    content[|content| - 1].entries
  }

  /** Every key of the block reads as a Swift `Int`. */
  predicate KeysParse(ext: map<string, Wire>) {
    forall key :: key in ext ==> ParseInt(key, Int64).Some?
  }

  /** The field numbers the keys of the block stand for. */
  function ExtensionFields(ext: map<string, Wire>): set<int> {
    set key | key in ext && ParseInt(key, Int64).Some? :: ParseInt(key, Int64).value
  }

  /**
   * `m` is `base` without field `last`, with every entry of `ext` stored
   * under its parsed key. Entries of the block, null ones included, win over
   * positional fields with the same number; when two keys name one field
   * ("7" and "07") either value may be the one kept.
   */
  ghost predicate Merged(base: map<int, Wire>, last: int, ext: map<string, Wire>, m: map<int, Wire>) {
    && m.Keys == (base.Keys - {last}) + ExtensionFields(ext)
    && (forall f :: f in m && f !in ExtensionFields(ext) ==> m[f] == base[f])
    && (forall f :: f in ExtensionFields(ext) ==>
          exists key :: key in ext && ParseInt(key, Int64) == Some(f) && m[f] == ext[key])
  }

  /** What `transform` produces; `None` when it traps on a key that is not a number. */
  ghost predicate Transformed(content: seq<Wire>, r: Option<map<int, Wire>>) {
    if !HasExtension(content) then r == Some(Fields(content))
    else if !KeysParse(Extension(content)) then r == None
    else r.Some? && Merged(Fields(content), |content|, Extension(content), r.value)
  }

  method Transform(content: seq<Wire>) returns (r: Option<map<int, Wire>>)
    ensures Transformed(content, r)
  {
    var dicted: map<int, Wire> := map[];
    var k := 0;
    while k < |content|
      invariant 0 <= k <= |content|
      invariant dicted == Fields(content[..k])
    {
      assert content[..k + 1][..k] == content[..k];
      if content[k] != Null {
        dicted := dicted[k + 1 := content[k]];
      }
      k := k + 1;
    }
    assert content[..k] == content;
    if |content| in dicted && dicted[|content|].Dict? {
      var extras := dicted[|content|].entries;
      ghost var base := dicted;
      dicted := dicted - {|content|};
      var todo := extras.Keys;
      MergedNothing(base, |content|, extras);
      while todo != {}
        invariant todo <= extras.Keys
        invariant forall key :: key in extras.Keys - todo ==> ParseInt(key, Int64).Some?
        invariant Merged(base, |content|, extras - todo, dicted)
        decreases todo
      {
        var key :| key in todo;
        var idx := ParseInt(key, Int64);
        if idx.None? {
          // `Int(k as! String)!` traps
          return None;
        }
        MergedAdd(base, |content|, extras, todo, key, dicted);
        dicted := dicted[idx.value := extras[key]];
        todo := todo - {key};
      }
      assert extras - {} == extras;
      r := Some(dicted);
    } else {
      r := Some(dicted);
    }
  }

  lemma ExtensionFieldsAdd(ext: map<string, Wire>, todo: set<string>, key: string)
    requires key in todo && key in ext && ParseInt(key, Int64).Some?
    ensures ExtensionFields(ext - (todo - {key})) == ExtensionFields(ext - todo) + {ParseInt(key, Int64).value}
  {
    var n := ParseInt(key, Int64).value;
    var after := ext - (todo - {key});
    assert key in after && after[key] == ext[key];
    assert n in ExtensionFields(after);
  }

  /** Before any key of the block is merged, the map is `base` without field `last`. */
  lemma MergedNothing(base: map<int, Wire>, last: int, ext: map<string, Wire>)
    ensures Merged(base, last, ext - ext.Keys, base - {last})
  {
    assert ExtensionFields(ext - ext.Keys) == {};
  }

  /** Merging one more key of the block keeps `Merged` for the keys handled so far. */
  lemma MergedAdd(base: map<int, Wire>, last: int, ext: map<string, Wire>, todo: set<string>, key: string, m: map<int, Wire>)
    requires key in todo && key in ext && ParseInt(key, Int64).Some?
    requires Merged(base, last, ext - todo, m)
    ensures Merged(base, last, ext - (todo - {key}), m[ParseInt(key, Int64).value := ext[key]])
  {
    var n := ParseInt(key, Int64).value;
    var before, after := ext - todo, ext - (todo - {key});
    var m' := m[n := ext[key]];
    ExtensionFieldsAdd(ext, todo, key);
    assert m'.Keys == m.Keys + {n};
    forall f | f in m' && f !in ExtensionFields(after)
      ensures m'[f] == base[f]
    {
      assert f != n && f !in ExtensionFields(before);
    }
    forall f | f in ExtensionFields(after)
      ensures exists k :: k in after && ParseInt(k, Int64) == Some(f) && m'[f] == after[k]
    {
      if f == n {
        assert key in after && ParseInt(key, Int64) == Some(f) && m'[f] == after[key];
      } else {
        assert f in ExtensionFields(before);
        var k :| k in before && ParseInt(k, Int64) == Some(f) && m[f] == before[k];
        assert k in after && m'[f] == after[k];
      }
    }
  }

  /**
   * A stored null can only come from the extension block: positional null
   * slots are never stored. So `decodeNil(forKey:)` is true only for
   * extension fields.
   */
  lemma NullOnlyFromExtension(content: seq<Wire>, m: map<int, Wire>, f: int)
    requires Transformed(content, Some(m))
    requires f in m
    ensures m[f] == Null ==> HasExtension(content) && f in ExtensionFields(Extension(content))
  {
    StoredFieldOrigin(content, m, f);
  }

  /**
   * Slot k, when it is not the last slot (or there is no extension block)
   * and the block does not name field k + 1, is field k + 1: stored exactly
   * when it is not null, with its own value.
   */
  lemma SlotIsField(content: seq<Wire>, m: map<int, Wire>, k: int)
    requires Transformed(content, Some(m))
    requires 0 <= k < |content|
    requires HasExtension(content) ==> k < |content| - 1 && k + 1 !in ExtensionFields(Extension(content))
    ensures k + 1 in m <==> content[k] != Null
    ensures k + 1 in m ==> m[k + 1] == content[k]
  {
  }

  /** Conversely, every stored field number is a non-null slot or a key of the block. */
  lemma StoredFieldOrigin(content: seq<Wire>, m: map<int, Wire>, f: int)
    requires Transformed(content, Some(m))
    requires f in m
    ensures (1 <= f <= |content| && content[f - 1] != Null && m[f] == content[f - 1])
         || (HasExtension(content) && f in ExtensionFields(Extension(content)))
  {
    if !HasExtension(content) || f !in ExtensionFields(Extension(content)) {
      var base := Fields(content);
      assert f in base;
      var k := f - 1;
      assert base[k + 1] == content[k];
    }
  }
}
