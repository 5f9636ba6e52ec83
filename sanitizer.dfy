/**
 * The PBLite sanitizer: the server omits the elements of sparse arrays
 * (`[1,,3]`), which is not JSON. The decoder rewrites the text with the regular
 * expression `(?<=,|\[)(\s)*(?=,)` and the template `$1null`: every run of
 * white space that stands right after a `,` or `[` and right before a `,`
 * becomes its last white-space character followed by `null`. This module
 * states that rewrite as a direct function on the text.
 */
module Sanitizer {

  /** `\s` of the ICU regular-expression engine: `[\t\n\f\r\p{Z}]`. */
  predicate IsSpace(c: char) {
    c == '\t' || c == '\n' || c == '\U{000C}' || c == '\r'
    || c == ' ' || c == '\U{00A0}' || c == '\U{1680}'
    || ('\U{2000}' <= c <= '\U{200A}')
    || c == '\U{2028}' || c == '\U{2029}' || c == '\U{202F}' || c == '\U{205F}' || c == '\U{3000}'
  }

  /** The end of the maximal run of white space that starts at `i`. */
  function SkipSpace(s: string, i: nat): (j: nat)
    requires i <= |s|
    ensures i <= j <= |s|
    ensures j < |s| ==> !IsSpace(s[j])
    decreases |s| - i
  {
    if i < |s| && IsSpace(s[i]) then SkipSpace(s, i + 1) else i
  }

  /** Everything `SkipSpace` passes over is white space. */
  lemma {:induction false} SkipSpaceRun(s: string, i: nat)
    requires i <= |s|
    ensures forall k :: i <= k < SkipSpace(s, i) ==> IsSpace(s[k])
    decreases |s| - i
  {
    if i < |s| && IsSpace(s[i]) {
      SkipSpaceRun(s, i + 1);
    }
  }

  /**
   * The regular expression matches at `i`: the character before `i` is a `,`
   * or `[` (the look-behind), then white space, then a `,` (the look-ahead).
   */
  predicate SlotAt(s: string, i: nat)
    requires i <= |s|
  {
    0 < i && (s[i - 1] == ',' || s[i - 1] == '[')
    && SkipSpace(s, i) < |s| && s[SkipSpace(s, i)] == ','
  }

  /** No empty array slot anywhere in the text. */
  predicate NoSlot(s: string) {
    forall i :: 0 <= i < |s| ==> !SlotAt(s, i)
  }

  /** The template `$1null`: the last character of the matched run, if any, then `null`. */
  function Fill(s: string, i: nat, j: nat): string
    requires i <= j <= |s|
  {
    (if i < j then [s[j - 1]] else []) + "null"
  }

  /**
   * The text from position `i` on, rewritten. A match never overlaps the
   * next one: after a match the `,` that closes it is copied, and the search
   * goes on after it.
   */
  function Rewrite(s: string, i: nat): string
    requires i <= |s|
    decreases |s| - i
  {
    if i == |s| then []
    else if SlotAt(s, i) then
      var j := SkipSpace(s, i);
      Fill(s, i, j) + [s[j]] + Rewrite(s, j + 1)
    else [s[i]] + Rewrite(s, i + 1)
  }

  /** `PBLiteDecoder.sanitize` up to the JSON parse. */
  function Sanitize(s: string): string {
    Rewrite(s, 0)
  }

  lemma {:induction false} RewriteUnchangedIff(s: string, i: nat)
    requires i <= |s|
    ensures Rewrite(s, i) == s[i..] <==> forall k :: i <= k < |s| ==> !SlotAt(s, k)
    decreases |s| - i
  {
    if i < |s| {
      RewriteUnchangedIff(s, i + 1);
      var r := Rewrite(s, i);
      if SlotAt(s, i) {
        var j := SkipSpace(s, i);
        assert !IsSpace('n');
        if j == i {
          assert r[0] == 'n' && s[i..][0] == ',';
        } else {
          assert r[0] == s[j - 1] && r[1] == 'n';
          assert s[i..][1] == s[i + 1];
          assert j == i + 1 ==> s[i + 1] == ',';
        }
      } else {
        assert s[i..] == [s[i]] + s[i + 1..];
        if r == s[i..] {
          assert Rewrite(s, i + 1) == r[1..];
        }
      }
    }
  }

  /** The sanitizer leaves a text alone exactly when it has no empty slot. */
  lemma SanitizeUnchangedIff(s: string)
    ensures Sanitize(s) == s <==> NoSlot(s)
  {
    RewriteUnchangedIff(s, 0);
  }

  /** A character the template never writes and a match never removes. */
  predicate Kept(c: char) {
    !IsSpace(c) && c != 'n' && c != 'u' && c != 'l'
  }

  /** The kept characters of `x`, in order: `x` without white space and the letters of `null`. */
  function Strip(x: string): string {
    if x == [] then [] else (if Kept(x[0]) then [x[0]] else []) + Strip(x[1..])
  }

  lemma {:induction false} StripAppend(a: string, b: string)
    ensures Strip(a + b) == Strip(a) + Strip(b)
  {
    if a == [] {
      assert a + b == b;
    } else {
      var h := if Kept(a[0]) then [a[0]] else [];
      assert (a + b)[0] == a[0] && (a + b)[1..] == a[1..] + b;
      assert Strip(a + b) == h + Strip(a[1..] + b);
      StripAppend(a[1..], b);
      assert h + (Strip(a[1..]) + Strip(b)) == (h + Strip(a[1..])) + Strip(b);
    }
  }

  lemma {:induction false} StripNone(x: string)
    requires forall k :: 0 <= k < |x| ==> !Kept(x[k])
    ensures Strip(x) == []
  {
    if x != [] {
      StripNone(x[1..]);
    }
  }

  /** One match, unfolded. */
  lemma RewriteSlotUnfold(s: string, i: nat)
    requires i < |s| && SlotAt(s, i)
    ensures Rewrite(s, i)
         == Fill(s, i, SkipSpace(s, i)) + [s[SkipSpace(s, i)]] + Rewrite(s, SkipSpace(s, i) + 1)
  {
  }

  /** The filled text: the last white-space character of the run, if any, then `null`. */
  lemma FillShape(s: string, i: nat)
    requires i < |s| && SlotAt(s, i)
    ensures var f := Fill(s, i, SkipSpace(s, i));
      forall k :: 0 <= k < |f| ==> !Kept(f[k]) && f[k] != ',' && f[k] != '['
  {
    var j := SkipSpace(s, i);
    if i < j {
      SkipSpaceRun(s, i);
      assert IsSpace(s[j - 1]);
    }
  }

  /** A match: the filled text holds no kept character, then the closing `,` is copied. */
  lemma RewriteSlotStep(s: string, i: nat)
    requires i < |s| && SlotAt(s, i)
    ensures Strip(Rewrite(s, i)) == Strip([s[SkipSpace(s, i)]]) + Strip(Rewrite(s, SkipSpace(s, i) + 1))
  {
    var j := SkipSpace(s, i);
    RewriteSlotUnfold(s, i);
    FillShape(s, i);
    var f, rest := Fill(s, i, j), Rewrite(s, j + 1);
    StripNone(f);
    StripAppend(f + [s[j]], rest);
    StripAppend(f, [s[j]]);
  }

  /** The matched text: white space, which holds no kept character, then the closing `,`. */
  lemma SliceSlotStep(s: string, i: nat)
    requires i < |s| && SlotAt(s, i)
    ensures Strip(s[i..]) == Strip([s[SkipSpace(s, i)]]) + Strip(s[SkipSpace(s, i) + 1..])
  {
    var j := SkipSpace(s, i);
    SkipSpaceRun(s, i);
    assert s[i..] == s[i..j] + [s[j]] + s[j + 1..];
    StripNone(s[i..j]);
    StripAppend(s[i..j] + [s[j]], s[j + 1..]);
    StripAppend(s[i..j], [s[j]]);
  }

  /** A match keeps the kept characters, given that the rest of the rewrite does. */
  lemma SlotKeeps(s: string, i: nat)
    requires i < |s| && SlotAt(s, i)
    requires Strip(Rewrite(s, SkipSpace(s, i) + 1)) == Strip(s[SkipSpace(s, i) + 1..])
    ensures Strip(Rewrite(s, i)) == Strip(s[i..])
  {
    RewriteSlotStep(s, i);
    SliceSlotStep(s, i);
  }

  /** A copied character keeps the kept characters, given that the rest of the rewrite does. */
  lemma OtherKeeps(s: string, i: nat)
    requires i < |s| && !SlotAt(s, i)
    requires Strip(Rewrite(s, i + 1)) == Strip(s[i + 1..])
    ensures Strip(Rewrite(s, i)) == Strip(s[i..])
  {
    assert Rewrite(s, i) == [s[i]] + Rewrite(s, i + 1);
    assert s[i..] == [s[i]] + s[i + 1..];
    StripAppend([s[i]], Rewrite(s, i + 1));
    StripAppend([s[i]], s[i + 1..]);
  }

  lemma {:induction false} RewriteKeeps(s: string, i: nat)
    requires i <= |s|
    ensures Strip(Rewrite(s, i)) == Strip(s[i..])
    decreases |s| - i
  {
    if i < |s| {
      if SlotAt(s, i) {
        RewriteKeeps(s, SkipSpace(s, i) + 1);
        SlotKeeps(s, i);
      } else {
        RewriteKeeps(s, i + 1);
        OtherKeeps(s, i);
      }
    }
  }

  /**
   * The rewrite only fills slots: leaving out white space and the letters of
   * `null`, the result is the input, in the same order, so commas, brackets,
   * braces, quotes and digits are all kept where they were.
   */
  lemma SanitizeKeeps(s: string)
    ensures Strip(Sanitize(s)) == Strip(s)
  {
    RewriteKeeps(s, 0);
    assert s[0..] == s;
  }

  /** `t` does not start with white space followed by a `,`. */
  predicate Guarded(t: string) {
    t == [] || (if IsSpace(t[0]) then Guarded(t[1..]) else t[0] != ',')
  }

  /** A position where no match starts is copied, given that the text up to `k` after it is. */
  lemma GapStep(s: string, i: nat, k: nat)
    requires i < k <= |s| && !SlotAt(s, i)
    requires Rewrite(s, i + 1) == s[i + 1..k] + Rewrite(s, k)
    ensures Rewrite(s, i) == s[i..k] + Rewrite(s, k)
  {
    var a, r := s[i + 1..k], Rewrite(s, k);
    assert Rewrite(s, i) == [s[i]] + (a + r);
    assert s[i..k] == [s[i]] + a;
    assert [s[i]] + (a + r) == ([s[i]] + a) + r;
  }

  /** Text with no match in it is copied as it is. */
  lemma {:induction false} RewriteCopiesGap(s: string, i: nat, k: nat)
    requires i <= k <= |s|
    requires forall m :: i <= m < k ==> !SlotAt(s, m)
    ensures Rewrite(s, i) == s[i..k] + Rewrite(s, k)
    decreases k - i
  {
    if i < k {
      RewriteCopiesGap(s, i + 1, k);
      GapStep(s, i, k);
    } else {
      assert s[i..k] == [];
    }
  }

  /**
   * Everything before the first match is copied; the match becomes the last
   * white-space character of its run, if any, then `null`, and the closing
   * `,` is copied.
   */
  lemma SanitizeFirstSlot(s: string, i: nat)
    requires i < |s| && SlotAt(s, i)
    requires forall m :: 0 <= m < i ==> !SlotAt(s, m)
    ensures var j := SkipSpace(s, i);
      Sanitize(s) == s[..i] + (if i < j then [s[j - 1]] else []) + "null," + Rewrite(s, j + 1)
  {
    var j := SkipSpace(s, i);
    RewriteCopiesGap(s, 0, i);
    RewriteSlotUnfold(s, i);
    assert s[0..i] == s[..i];
  }

  /** `Guarded` after position `p` is the absence of a match at `p`, given a `,` or `[` before it. */
  lemma {:induction false} GuardedAt(t: string, p: nat)
    requires p <= |t|
    ensures Guarded(t[p..]) <==> !(SkipSpace(t, p) < |t| && t[SkipSpace(t, p)] == ',')
    decreases |t| - p
  {
    if p < |t| && IsSpace(t[p]) {
      GuardedAt(t, p + 1);
      assert t[p..][1..] == t[p + 1..];
    }
  }

  lemma {:induction false} GuardedAfterSpace(x: string, y: string)
    requires forall k :: 0 <= k < |x| ==> IsSpace(x[k])
    requires Guarded(y)
    ensures Guarded(x + y)
  {
    if x == [] {
      assert x + y == y;
    } else {
      assert (x + y)[1..] == x[1..] + y;
      GuardedAfterSpace(x[1..], y);
    }
  }

  /** Every `,` and `[` of `t` is followed by something other than white space and a `,`. */
  predicate Clean(t: string) {
    t == [] || (((t[0] == ',' || t[0] == '[') ==> Guarded(t[1..])) && Clean(t[1..]))
  }

  lemma {:induction false} CleanAfter(x: string, y: string)
    requires forall k :: 0 <= k < |x| ==> x[k] != ',' && x[k] != '['
    requires Clean(y)
    ensures Clean(x + y)
  {
    if x == [] {
      assert x + y == y;
    } else {
      assert (x + y)[1..] == x[1..] + y;
      CleanAfter(x[1..], y);
    }
  }

  /** A clean text has no match after position `q`. */
  lemma {:induction false} CleanNoSlotAt(t: string, q: nat, p: nat)
    requires q < p < |t|
    requires Clean(t[q..])
    ensures !SlotAt(t, p)
    decreases p - q
  {
    assert t[q..][1..] == t[q + 1..];
    if p == q + 1 {
      GuardedAt(t, p);
    } else {
      CleanNoSlotAt(t, q + 1, p);
    }
  }

  /**
   * The white space after a copied `,` or `[` in the rewrite is not followed
   * by a `,`: either it was a slot and `null` was written, or it was not.
   */
  lemma RewriteGuarded(s: string, m: nat)
    requires 0 < m <= |s| && (s[m - 1] == ',' || s[m - 1] == '[')
    ensures Guarded(Rewrite(s, m))
  {
    if m < |s| {
      var j := SkipSpace(s, m);
      if SlotAt(s, m) {
        RewriteSlotUnfold(s, m);
        var t := Rewrite(s, m);
        if m < j {
          SkipSpaceRun(s, m);
          assert t[0] == s[j - 1] && t[1..][0] == 'n';
        } else {
          assert t[0] == 'n';
        }
      } else {
        SkipSpaceRun(s, m);
        RewriteCopiesRun(s, m);
        assert Guarded(Rewrite(s, j)) by {
          if j < |s| {
            assert !SlotAt(s, j) by {
              if m < j {
                assert IsSpace(s[j - 1]);
              }
            }
          }
        }
        GuardedAfterSpace(s[m..j], Rewrite(s, j));
      }
    }
  }

  /** A run of white space that does not end a match is copied as it is. */
  lemma RewriteCopiesRun(s: string, m: nat)
    requires 0 < m <= |s| && !SlotAt(s, m)
    ensures Rewrite(s, m) == s[m..SkipSpace(s, m)] + Rewrite(s, SkipSpace(s, m))
  {
    var j := SkipSpace(s, m);
    SkipSpaceRun(s, m);
    forall q | m <= q < j
      ensures !SlotAt(s, q)
    {
      if m < q {
        assert IsSpace(s[q - 1]);
      }
    }
    RewriteCopiesGap(s, m, j);
  }

  lemma CleanCons(c: char, t: string)
    requires (c == ',' || c == '[') ==> Guarded(t)
    requires Clean(t)
    ensures Clean([c] + t)
  {
    assert ([c] + t)[1..] == t;
  }

  /** A fill, then a `,` whose rest is guarded, in front of a clean text is clean. */
  lemma CleanFillStep(f: string, c: char, rest: string)
    requires forall k :: 0 <= k < |f| ==> f[k] != ',' && f[k] != '['
    requires Guarded(rest) && Clean(rest)
    ensures Clean(f + [c] + rest)
  {
    CleanCons(c, rest);
    CleanAfter(f, [c] + rest);
    assert f + [c] + rest == f + ([c] + rest);
  }

  /** A match stays clean, given that the rest of the rewrite is. */
  lemma SlotClean(s: string, i: nat)
    requires i < |s| && SlotAt(s, i)
    requires Clean(Rewrite(s, SkipSpace(s, i) + 1))
    ensures Clean(Rewrite(s, i))
  {
    var j := SkipSpace(s, i);
    RewriteSlotUnfold(s, i);
    RewriteGuarded(s, j + 1);
    FillShape(s, i);
    CleanFillStep(Fill(s, i, j), s[j], Rewrite(s, j + 1));
  }

  /** A copied character stays clean, given that the rest of the rewrite is. */
  lemma OtherClean(s: string, i: nat)
    requires i < |s| && !SlotAt(s, i)
    requires Clean(Rewrite(s, i + 1))
    ensures Clean(Rewrite(s, i))
  {
    assert Rewrite(s, i) == [s[i]] + Rewrite(s, i + 1);
    if s[i] == ',' || s[i] == '[' {
      RewriteGuarded(s, i + 1);
    }
    CleanCons(s[i], Rewrite(s, i + 1));
  }

  lemma {:induction false} RewriteClean(s: string, i: nat)
    requires i <= |s|
    ensures Clean(Rewrite(s, i))
    decreases |s| - i
  {
    if i < |s| {
      if SlotAt(s, i) {
        RewriteClean(s, SkipSpace(s, i) + 1);
        SlotClean(s, i);
      } else {
        RewriteClean(s, i + 1);
        OtherClean(s, i);
      }
    }
  }

  /** Every omitted element is filled: the sanitized text has no empty slot left. */
  lemma SanitizeFillsAll(s: string)
    ensures NoSlot(Sanitize(s))
  {
    var t := Sanitize(s);
    RewriteClean(s, 0);
    assert t[0..] == t;
    forall p | 0 <= p < |t|
      ensures !SlotAt(t, p)
    {
      if p > 0 {
        CleanNoSlotAt(t, 0, p);
      }
    }
  }

  /** The examples the wire format is known for. */
  lemma SanitizeFillsMiddleSlot()
    ensures Sanitize("[1,,3]") == "[1,null,3]"
  {
    var s := "[1,,3]";
    assert SkipSpace(s, 4) == 4 && !SlotAt(s, 4) && !SlotAt(s, 5);
    assert Rewrite(s, 4) == "3]";
    assert SkipSpace(s, 3) == 3 && SlotAt(s, 3);
    assert Rewrite(s, 3) == "null,3]";
    assert !SlotAt(s, 0) && !SlotAt(s, 1) && !SlotAt(s, 2);
  }

  lemma SanitizeFillsLeadingSlot()
    ensures Sanitize("[,1]") == "[null,1]"
  {
  }

  lemma SanitizeKeepsTrailingComma()
    ensures Sanitize("[1,]") == "[1,]"
  {
  }

  lemma SanitizeKeepsLastSpace()
    ensures Sanitize("[1, \t,3]") == "[1,\tnull,3]"
  {
    var s := "[1, \t,3]";
    assert SkipSpace(s, 6) == 6 && !SlotAt(s, 6) && !SlotAt(s, 7);
    assert Rewrite(s, 6) == "3]";
    assert SkipSpace(s, 3) == 5 && SlotAt(s, 3);
    assert Rewrite(s, 3) == "\tnull,3]";
    assert !SlotAt(s, 0) && !SlotAt(s, 1) && !SlotAt(s, 2);
  }
}
