/**
 * The few JavaScript string operations the core relies on, over Dafny strings
 * (`seq<char>`): `trim`, `toLowerCase` (ASCII letters only), `endsWith`,
 * `includes` and the first-occurrence form of `replace`.
 */
module Text {
  import opened Opt

  /** The characters `String.prototype.trim` strips: ECMAScript WhiteSpace and LineTerminator. */
  predicate IsTrimmable(c: char) {
    || c == '\t' || c == '\n' || c == '\U{000B}' || c == '\U{000C}' || c == '\r' || c == ' '
    || c == '\U{00A0}' || c == '\U{1680}' || ('\U{2000}' <= c <= '\U{200A}')
    || c == '\U{2028}' || c == '\U{2029}' || c == '\U{202F}' || c == '\U{205F}'
    || c == '\U{3000}' || c == '\U{FEFF}'
  }

  /** `s` with its leading trimmable characters removed. */
  function TrimStart(s: string): string {
    if s != [] && IsTrimmable(s[0]) then TrimStart(s[1..]) else s
  }

  /** `s` with its trailing trimmable characters removed. */
  function TrimEnd(s: string): string {
    if s != [] && IsTrimmable(s[|s| - 1]) then TrimEnd(s[..|s| - 1]) else s
  }

  /** `s.trim()`. */
  function Trim(s: string): string {
    TrimEnd(TrimStart(s))
  }

  lemma {:induction false} TrimStartDrops(s: string)
    ensures var r := TrimStart(s);
      && |r| <= |s| && r == s[|s| - |r|..]
      && (forall k :: 0 <= k < |s| - |r| ==> IsTrimmable(s[k]))
      && (r == [] || !IsTrimmable(r[0]))
  {
    if s != [] && IsTrimmable(s[0]) {
      TrimStartDrops(s[1..]);
    }
  }

  lemma {:induction false} TrimEndDrops(s: string)
    ensures var r := TrimEnd(s);
      && |r| <= |s| && r == s[..|r|]
      && (forall k :: |r| <= k < |s| ==> IsTrimmable(s[k]))
      && (r == [] || !IsTrimmable(r[|r| - 1]))
  {
    if s != [] && IsTrimmable(s[|s| - 1]) {
      TrimEndDrops(s[..|s| - 1]);
    }
  }

  /** `r` occurs in `s` at `i`, and everything before and after it is trimmable. */
  ghost predicate TrimmableAround(s: string, r: string, i: nat) {
    && StartsAt(s, r, i)
    && (forall k :: 0 <= k < i ==> IsTrimmable(s[k]))
    && (forall k :: i + |r| <= k < |s| ==> IsTrimmable(s[k]))
  }

  /**
   * `s.trim()` is an infix of `s` that neither starts nor ends with a trimmable
   * character, and everything around it in `s` is trimmable.
   */
  lemma TrimIsInfix(s: string)
    ensures var r := Trim(s);
      && (exists i: nat :: TrimmableAround(s, r, i))
      && (r == [] || (!IsTrimmable(r[0]) && !IsTrimmable(r[|r| - 1])))
  {
    var t := TrimStart(s);
    TrimStartDrops(s);
    TrimEndDrops(t);
    var r := TrimEnd(t);
    var off: nat := |s| - |t|;
    assert Trim(s) == r;
    assert r != [] ==> r[0] == t[0];
    assert s[off..off + |r|] == s[off..][..|r|];
    assert forall k :: off + |r| <= k < |s| ==> s[k] == t[k - off];
    assert TrimmableAround(s, r, off);
  }

  function LowerChar(c: char): char {
    if 'A' <= c <= 'Z' then (c as int + 32) as char else c
  }

  /** `s.toLowerCase()` restricted to ASCII letters. */
  function LowerAscii(s: string): (r: string)
    ensures |r| == |s|
  {
    seq(|s|, i requires 0 <= i < |s| => LowerChar(s[i]))
  }

  predicate EndsWith(s: string, suffix: string) {
    |suffix| <= |s| && s[|s| - |suffix|..] == suffix
  }

  predicate StartsAt(s: string, pat: string, i: nat) {
    i + |pat| <= |s| && s[i..i + |pat|] == pat
  }

  /** `s.includes(pat)`. */
  predicate Contains(s: string, pat: string) {
    exists i: nat | i <= |s| :: StartsAt(s, pat, i)
  }

  /** `s.indexOf(pat)`, as an option: the first position at which `pat` occurs. */
  function IndexOf(s: string, pat: string, from: nat := 0): (r: Option<nat>)
    requires from <= |s|
    ensures r.Some? ==> from <= r.value && StartsAt(s, pat, r.value)
    ensures forall i: nat :: from <= i && (r.None? || i < r.value) ==> !StartsAt(s, pat, i)
    decreases |s| - from
  {
    if StartsAt(s, pat, from) then Some(from)
    else if from == |s| then None
    else IndexOf(s, pat, from + 1)
  }

  /** `s.replace(pat, rep)` with a string pattern: only the first occurrence is replaced. */
  function ReplaceFirst(s: string, pat: string, rep: string): string {
    match IndexOf(s, pat)
    case None => s
    case Some(i) => s[..i] + rep + s[i + |pat|..]
  }

  /**
   * When the only occurrence of `pat` in `stem + pat` can be at the end, because `pat`
   * starts with a character that `stem` does not contain, replacing the first occurrence
   * swaps that suffix.
   */
  lemma {:induction false} ReplaceSuffix(stem: string, pat: string, rep: string)
    requires pat != [] && pat[0] !in stem
    ensures ReplaceFirst(stem + pat, pat, rep) == stem + rep
  {
    var s := stem + pat;
    assert StartsAt(s, pat, |stem|);
    forall i: nat | i < |stem|
      ensures !StartsAt(s, pat, i)
    {
      if i + |pat| <= |s| {
        assert s[i..i + |pat|][0] == s[i] == stem[i] != pat[0];
      }
    }
    var r := IndexOf(s, pat);
    assert r == Some(|stem|);
    assert s[..|stem|] == stem;
    assert s[|stem| + |pat|..] == [];
  }

  /** The eight spellings of "yes" that differ only in letter case. */
  lemma {:induction false} LowerIsYes(a: string)
    ensures LowerAscii(a) == "yes" <==>
      |a| == 3 && a[0] in "yY" && a[1] in "eE" && a[2] in "sS"
  {
    if LowerAscii(a) == "yes" {
      var l := LowerAscii(a);
      assert l[0] == LowerChar(a[0]) && l[1] == LowerChar(a[1]) && l[2] == LowerChar(a[2]);
    }
    if |a| == 3 && a[0] in "yY" && a[1] in "eE" && a[2] in "sS" {
      assert LowerAscii(a) == [LowerChar(a[0]), LowerChar(a[1]), LowerChar(a[2])];
    }
  }
}
