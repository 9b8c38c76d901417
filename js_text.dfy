/**
 * The two JavaScript string operations the timer screen relies on:
 * `String.prototype.trim` (category names, the session goal) and
 * `String.prototype.toLowerCase` (the case-insensitive duplicate check
 * on category names).
 */
module JsText {

  /** The code points ECMAScript counts as WhiteSpace or LineTerminator,
      which is exactly what `trim` removes from both ends. */
  predicate IsJsWhitespace(c: char) {
    || c == '\t' || c == '\n' || c == '\U{B}' || c == '\U{C}' || c == '\r' || c == ' '
    || c == '\U{A0}' || c == '\U{1680}' || ('\U{2000}' <= c <= '\U{200A}')
    || c == '\U{2028}' || c == '\U{2029}' || c == '\U{202F}' || c == '\U{205F}'
    || c == '\U{3000}' || c == '\U{FEFF}'
  }

  predicate AllWhitespace(s: string) {
    forall k :: 0 <= k < |s| ==> IsJsWhitespace(s[k])
  }

  /** The first position at or after `i` that does not hold whitespace,
      or |s| when there is none. */
  function SkipLeading(s: string, i: nat): (j: nat)
    requires i <= |s|
    ensures i <= j <= |s|
    ensures j < |s| ==> !IsJsWhitespace(s[j])
    decreases |s| - i
  {
    if i < |s| && IsJsWhitespace(s[i]) then SkipLeading(s, i + 1) else i
  }

  /** The end of `s[lo..hi]` once its trailing whitespace is dropped. */
  function SkipTrailing(s: string, lo: nat, hi: nat): (e: nat)
    requires lo <= hi <= |s|
    ensures lo <= e <= hi
    ensures lo < e ==> !IsJsWhitespace(s[e - 1])
  {
    if lo < hi && IsJsWhitespace(s[hi - 1]) then SkipTrailing(s, lo, hi - 1) else hi
  }

  /** Everything SkipLeading passes over is whitespace. */
  lemma {:induction false} SkipLeadingPassesWhitespace(s: string, i: nat, k: nat)
    requires i <= |s| && i <= k < SkipLeading(s, i)
    ensures IsJsWhitespace(s[k])
    decreases |s| - i
  {
    if k > i {
      SkipLeadingPassesWhitespace(s, i + 1, k);
    }
  }

  /** Everything SkipTrailing drops is whitespace. */
  lemma {:induction false} SkipTrailingDropsWhitespace(s: string, lo: nat, hi: nat, k: nat)
    requires lo <= hi <= |s|
    requires SkipTrailing(s, lo, hi) <= k < hi
    ensures IsJsWhitespace(s[k])
  {
    if k < hi - 1 {
      SkipTrailingDropsWhitespace(s, lo, hi - 1, k);
    }
  }

  /** Neither end is whitespace. */
  predicate IsTrimmed(s: string) {
    s == [] || (!IsJsWhitespace(s[0]) && !IsJsWhitespace(s[|s| - 1]))
  }

  /** `s.trim()`: the stretch of `s` left once its leading and its
      trailing whitespace are removed. */
  function Trim(s: string): (r: string)
    ensures IsTrimmed(r)
    ensures exists b, e :: 0 <= b <= e <= |s| && r == s[b..e]
                          && AllWhitespace(s[..b]) && AllWhitespace(s[e..])
  {
    var b := SkipLeading(s, 0);
    var e := SkipTrailing(s, b, |s|);
    forall k | 0 <= k < b ensures IsJsWhitespace(s[..b][k]) {
      SkipLeadingPassesWhitespace(s, 0, k);
    }
    forall k | 0 <= k < |s| - e ensures IsJsWhitespace(s[e..][k]) {
      SkipTrailingDropsWhitespace(s, b, |s|, e + k);
    }
    s[b..e]
  }

  /** A trimmed name is empty exactly when the input held only whitespace:
      this is the `!newCategoryName.trim()` guard. */
  lemma TrimEmptyIffAllWhitespace(s: string)
    ensures Trim(s) == [] <==> AllWhitespace(s)
  {
    var b := SkipLeading(s, 0);
    var e := SkipTrailing(s, b, |s|);
    if Trim(s) == [] {
      if b < |s| {
        // s[b] is not whitespace, so SkipTrailing stops after it
        SkipTrailingDropsWhitespace(s, b, |s|, b);
      }
      forall k | 0 <= k < |s| ensures IsJsWhitespace(s[k]) {
        SkipLeadingPassesWhitespace(s, 0, k);
      }
    }
  }

  /** The trimmed strings are exactly the ones `trim` leaves alone; in
      particular trimming twice changes nothing, so a stored category or
      goal is already in its trimmed form. */
  lemma TrimFixesTrimmed(s: string)
    ensures IsTrimmed(s) <==> Trim(s) == s
    ensures Trim(Trim(s)) == Trim(s)
  {
    var r := Trim(s);
    assert IsTrimmed(r) ==> SkipLeading(r, 0) == 0 && SkipTrailing(r, 0, |r|) == |r|;
    if IsTrimmed(s) {
      assert SkipLeading(s, 0) == 0 && SkipTrailing(s, 0, |s|) == |s|;
    }
  }

  /** Lower-case form of one character, following Unicode's simple
      lower-case mapping for ASCII, Latin-1 and the Turkish letters
      Ğ and Ş. */
  function LowerChar(c: char): (r: char)
    ensures 'A' <= c <= 'Z' ==> r as int == c as int + 32
    ensures 'a' <= c <= 'z' ==> r == c
  {
    if 'A' <= c <= 'Z' then (c as int + 32) as char
    else if '\U{C0}' <= c <= '\U{DE}' && c != '\U{D7}' then (c as int + 32) as char
    else if c == '\U{11E}' then '\U{11F}'
    else if c == '\U{15E}' then '\U{15F}'
    else c
  }

  /** `s.toLowerCase()`, character by character. */
  function ToLowerCase(s: string): (r: string)
    ensures |r| == |s|
    ensures forall k :: 0 <= k < |s| ==> r[k] == LowerChar(s[k])
  {
    if s == [] then [] else [LowerChar(s[0])] + ToLowerCase(s[1..])
  }

  /** `a.toLowerCase() === b.toLowerCase()` */
  predicate EqualsIgnoringCase(a: string, b: string) {
    ToLowerCase(a) == ToLowerCase(b)
  }

  /** `names.some((c) => c.toLowerCase() === name.toLowerCase())` */
  predicate ContainsIgnoringCase(names: seq<string>, name: string) {
    exists k :: 0 <= k < |names| && EqualsIgnoringCase(names[k], name)
  }

  /** No two entries of `names` are equal ignoring case. */
  predicate DistinctIgnoringCase(names: seq<string>) {
    forall i, j :: 0 <= i < j < |names| ==> !EqualsIgnoringCase(names[i], names[j])
  }

  /** Two names that lower-case differently at some position are not
      equal ignoring case. */
  lemma DifferentAt(a: string, b: string, k: nat)
    requires k < |a| && k < |b| && LowerChar(a[k]) != LowerChar(b[k])
    ensures !EqualsIgnoringCase(a, b)
  {
    assert ToLowerCase(a)[k] != ToLowerCase(b)[k];
  }

  /** Appending a name that is not already present ignoring case keeps the
      list free of case-insensitive duplicates. */
  lemma AppendKeepsDistinct(names: seq<string>, name: string)
    requires DistinctIgnoringCase(names)
    requires !ContainsIgnoringCase(names, name)
    ensures DistinctIgnoringCase(names + [name])
  {
    var r := names + [name];
    forall i, j | 0 <= i < j < |r| ensures !EqualsIgnoringCase(r[i], r[j]) {
      if j == |names| {
        assert r[i] == names[i];
      } else {
        assert r[i] == names[i] && r[j] == names[j];
      }
    }
  }
}
