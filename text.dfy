/** The string operations the instrument-id conversions are built from, as Go's
    `strings` package performs them on ASCII text. */
module Text {

  function LowerChar(c: char): char {
    if 'A' <= c <= 'Z' then (c as int + 32) as char else c
  }

  function UpperChar(c: char): char {
    if 'a' <= c <= 'z' then (c as int - 32) as char else c
  }

  /** `strings.ToLower`, restricted to ASCII case mapping. */
  function ToLower(s: string): (r: string)
    ensures |r| == |s|
    ensures forall i :: 0 <= i < |s| ==> r[i] == LowerChar(s[i])
  {
    seq(|s|, i requires 0 <= i < |s| => LowerChar(s[i]))
  }

  /** `strings.ToUpper`, restricted to ASCII case mapping. */
  function ToUpper(s: string): (r: string)
    ensures |r| == |s|
    ensures forall i :: 0 <= i < |s| ==> r[i] == UpperChar(s[i])
  {
    seq(|s|, i requires 0 <= i < |s| => UpperChar(s[i]))
  }

  /** The suffix test behind `util.StringEndWith`. */
  predicate HasSuffix(s: string, suffix: string) {
    |suffix| <= |s| && s[|s| - |suffix|..] == suffix
  }

  predicate IsPrefix(p: string, s: string) {
    |p| <= |s| && s[..|p|] == p
  }

  /** `strings.ReplaceAll` for a non-empty pattern: scans left to right and
      replaces every non-overlapping occurrence of `pat` by `rep`. */
  function ReplaceAll(s: string, pat: string, rep: string): string
    requires |pat| > 0
    decreases |s|
  {
    if |s| == 0 then ""
    else if IsPrefix(pat, s) then rep + ReplaceAll(s[|pat|..], pat, rep)
    else [s[0]] + ReplaceAll(s[1..], pat, rep)
  }

  /** Character-by-character substitution of `a` by `b`. */
  function ReplaceChar(s: string, a: char, b: char): (r: string)
    ensures |r| == |s|
    ensures forall i :: 0 <= i < |s| ==> r[i] == (if s[i] == a then b else s[i])
  {
    seq(|s|, i requires 0 <= i < |s| => if s[i] == a then b else s[i])
  }

  /** Replacing a one-character pattern by a one-character text is the
      character substitution. */
  lemma {:induction false} ReplaceAllSingleChar(s: string, a: char, b: char)
    ensures ReplaceAll(s, [a], [b]) == ReplaceChar(s, a, b)
    decreases |s|
  {
    if |s| > 0 {
      ReplaceAllSingleChar(s[1..], a, b);
      if s[0] == a {
        assert IsPrefix([a], s);
        assert [b] + ReplaceChar(s[1..], a, b) == ReplaceChar(s, a, b);
      } else {
        assert [s[0]] + ReplaceChar(s[1..], a, b) == ReplaceChar(s, a, b);
      }
    }
  }

  /** Position of the first `sep` in `s`, or |s| when there is none. */
  function IndexOf(s: string, sep: char): (k: nat)
    ensures k <= |s|
    ensures forall i :: 0 <= i < k ==> s[i] != sep
    ensures k < |s| ==> s[k] == sep
  {
    if |s| == 0 then 0
    else if s[0] == sep then 0
    else 1 + IndexOf(s[1..], sep)
  }

  /** `strings.Split(s, sep)[0]`: the text before the first separator, or all
      of `s` when it holds none. */
  function FirstField(s: string, sep: char): (r: string)
    ensures IsPrefix(r, s)
    ensures sep !in r
    ensures sep !in s ==> r == s
  {
    s[..IndexOf(s, sep)]
  }
}
