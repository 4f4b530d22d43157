/** The string operations the screens rely on: ASCII case mapping
    (`toLowerCase`, `toUpperCase`), substring search (`includes`) and the
    capitalised label built from `charAt(0).toUpperCase() + slice(1)`. */
module Text {

  /** `c.toLowerCase()` restricted to ASCII. */
  function LowerChar(c: char): char
  {
    if 'A' <= c <= 'Z' then (c as int + 32) as char else c
  }

  /** `c.toUpperCase()` restricted to ASCII. */
  function UpperChar(c: char): char
  {
    if 'a' <= c <= 'z' then (c as int - 32) as char else c
  }

  /** True when `c` is an ASCII capital letter. */
  predicate IsUpperAscii(c: char)
  {
    'A' <= c <= 'Z'
  }

  /** `s.toLowerCase()`: the same string with every ASCII capital
      replaced by its small letter, and nothing else touched. */
  function ToLower(s: string): (r: string)
    ensures |r| == |s|
    ensures forall i :: 0 <= i < |s| ==> !IsUpperAscii(r[i])
    ensures forall i :: 0 <= i < |s| && !IsUpperAscii(s[i]) ==> r[i] == s[i]
    ensures forall i :: 0 <= i < |s| ==> LowerChar(r[i]) == LowerChar(s[i])
  {
    seq(|s|, i requires 0 <= i < |s| => LowerChar(s[i]))
  }

  /** `t` occurs in `s` starting at index `i`. */
  ghost predicate OccursAt(s: string, t: string, i: nat)
  {
    i + |t| <= |s| && s[i..i + |t|] == t
  }

  /** Reference definition of "`t` is a substring of `s`". */
  ghost predicate IsSubstring(t: string, s: string)
  {
    exists i: nat :: OccursAt(s, t, i)
  }

  lemma OccursInTail(s: string, t: string, i: nat)
    requires s != [] && OccursAt(s[1..], t, i)
    ensures OccursAt(s, t, i + 1)
  {
  }

  lemma OccursLaterInTail(s: string, t: string, i: nat)
    ensures 0 < i && OccursAt(s, t, i) ==> OccursAt(s[1..], t, i - 1)
    ensures OccursAt(s, t, 0) <==> t <= s
  {
  }

  /** `s.includes(t)`: a left-to-right search for `t` in `s`; the empty
      string occurs in every string. */
  function Includes(s: string, t: string): (b: bool)
    ensures b <==> IsSubstring(t, s)
    decreases |s|
  {
    if |t| > |s| then
      assert forall i: nat :: !OccursAt(s, t, i);
      false
    else if t <= s then
      assert OccursAt(s, t, 0);
      true
    else
      var rest := Includes(s[1..], t);
      if rest then
        assert IsSubstring(t, s) by {
          var j: nat :| OccursAt(s[1..], t, j);
          OccursInTail(s, t, j);
        }
        true
      else
        assert forall i: nat :: !OccursAt(s, t, i) by {
          forall i: nat ensures !OccursAt(s, t, i) {
            OccursLaterInTail(s, t, i);
          }
        }
        false
  }

  /** `s.charAt(0).toUpperCase() + s.slice(1)`; on the empty string both
      halves are empty. */
  function Capitalize(s: string): (r: string)
    ensures |r| == |s|
    ensures s != [] ==> r[0] == UpperChar(s[0]) && r[1..] == s[1..]
  {
    if s == [] then [] else [UpperChar(s[0])] + s[1..]
  }

  /** Capitalising changes only letter case: the lower-cased result is the
      lower-cased input. */
  lemma CapitalizeOnlyChangesCase(s: string)
    ensures ToLower(Capitalize(s)) == ToLower(s)
  {
  }
}
