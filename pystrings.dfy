/**
  The few operations on Python `str` values that the uploaders use:
  `endswith`, `rstrip(ch)`, `strip()` and `split(sep, 1)`, and the
  first-occurrence search behind `c in s` and `split`.
  Strings are sequences of characters; no encoding is involved.
*/
module PyStrings {

  /** `str.isspace()` for one character: the characters `str.strip()` removes. */
  predicate IsSpace(c: char) {
    || ('\t' <= c <= '\r')
    || ('\U{1C}' <= c <= ' ')
    || c == '\U{85}' || c == '\U{A0}' || c == '\U{1680}'
    || ('\U{2000}' <= c <= '\U{200A}')
    || c == '\U{2028}' || c == '\U{2029}' || c == '\U{202F}'
    || c == '\U{205F}' || c == '\U{3000}'
  }

  predicate EndsWith(s: string, c: char) {
    |s| > 0 && s[|s| - 1] == c
  }

  /** The first occurrence of `c` in `s`, as `c in s` and `s.split(c, 1)` find
      it (and `urlsplit`'s `find`), or `|s|` when there is none. */
  function IndexOf(s: string, c: char): (i: nat)
    ensures i <= |s|
    ensures i < |s| <==> c in s
    ensures i < |s| ==> s[i] == c
    ensures forall j :: 0 <= j < i ==> s[j] != c
  {
    if s == [] then 0
    else if s[0] == c then 0
    else 1 + IndexOf(s[1..], c)
  }

  /** The position just after the last `c` of `s`, or 0 when `s` has none:
      `s.rfind(c) + 1`. */
  function AfterLast(s: string, c: char): (k: nat)
    ensures k <= |s|
    ensures k > 0 ==> s[k - 1] == c
    ensures forall j :: k <= j < |s| ==> s[j] != c
  {
    if s == [] then 0
    else if s[|s| - 1] == c then |s|
    else AfterLast(s[..|s| - 1], c)
  }

  /** `s.rstrip(c)` for a one-character argument. */
  function RStrip(s: string, c: char): (r: string)
    ensures r <= s
    ensures !EndsWith(r, c)
    ensures forall i :: |r| <= i < |s| ==> s[i] == c
  {
    if EndsWith(s, c) then RStrip(s[..|s| - 1], c) else s
  }

  /** `s.rstrip()`: drops trailing whitespace. */
  function RStripSpace(s: string): (r: string)
    ensures r <= s
    ensures r == [] || !IsSpace(r[|r| - 1])
    ensures forall i :: |r| <= i < |s| ==> IsSpace(s[i])
  {
    if |s| > 0 && IsSpace(s[|s| - 1]) then RStripSpace(s[..|s| - 1]) else s
  }

  /** `s.lstrip()`: drops leading whitespace. */
  function LStripSpace(s: string): (r: string)
    ensures |r| <= |s| && r == s[|s| - |r|..]
    ensures r == [] || !IsSpace(r[0])
    ensures forall i :: 0 <= i < |s| - |r| ==> IsSpace(s[i])
  {
    if |s| > 0 && IsSpace(s[0]) then LStripSpace(s[1..]) else s
  }

  /** `s.strip()`: drops whitespace at both ends. */
  function Strip(s: string): string {
    LStripSpace(RStripSpace(s))
  }

  /** The result of `strip()` begins and ends with a non-space, and is empty only
      when every character of the input is whitespace. */
  lemma StripTrims(s: string)
    ensures var r := Strip(s);
      && (r == [] || (!IsSpace(r[0]) && !IsSpace(r[|r| - 1])))
      && (r == [] <==> forall i :: 0 <= i < |s| ==> IsSpace(s[i]))
  {
    var t := RStripSpace(s);
    var r := LStripSpace(t);
    if r != [] {
      assert r[|r| - 1] == t[|t| - 1];
    }
    if r == [] {
      forall i | 0 <= i < |s| ensures IsSpace(s[i]) {
        if i >= |t| {
        } else {
          assert s[i] == t[i];
        }
      }
    }
  }

  /** The result of `strip()` is a contiguous piece of the input with only
      whitespace cut away on either side. */
  lemma StripIsInfix(s: string)
    ensures exists lo :: StrippedAt(s, Strip(s), lo)
  {
    var t := RStripSpace(s);
    var r := LStripSpace(t);
    var lo := |t| - |r|;
    PrefixKeepsSpaces(s, t, lo);
    assert r == s[lo..lo + |r|] by {
      assert t == s[..|t|];
    }
    assert StrippedAt(s, Strip(s), lo);
  }

  /** Whitespace at the front of a prefix is whitespace at the front of the whole. */
  lemma PrefixKeepsSpaces(s: string, t: string, lo: int)
    requires t <= s && 0 <= lo <= |t|
    requires forall i :: 0 <= i < lo ==> IsSpace(t[i])
    ensures forall i :: 0 <= i < lo ==> IsSpace(s[i])
  {
    forall i | 0 <= i < lo ensures IsSpace(s[i]) {
      assert s[i] == t[i];
    }
  }

  /** `r` sits at offset `lo` of `s`, and everything of `s` around it is whitespace. */
  ghost predicate StrippedAt(s: string, r: string, lo: int) {
    && 0 <= lo && lo + |r| <= |s|
    && r == s[lo..lo + |r|]
    && (forall i :: 0 <= i < lo ==> IsSpace(s[i]))
    && (forall i :: lo + |r| <= i < |s| ==> IsSpace(s[i]))
  }

  /** `s.split(c, 1)` on a string that contains `c`: the text before the first `c`
      and everything after it. */
  function SplitFirst(s: string, c: char): (parts: (string, string))
    requires c in s
    ensures c !in parts.0
    ensures s == parts.0 + [c] + parts.1
  {
    var i := IndexOf(s, c);
    assert s == s[..i] + [c] + s[i + 1..];
    (s[..i], s[i + 1..])
  }
}
