/** The few facts about Go's `strings` and `fmt` package that the model needs. */
module Strings {

  /** ASCII lower-casing of one character (Unicode case folding is not modelled). */
  function LowerChar(c: char): char {
    if 'A' <= c <= 'Z' then (c as int + 32) as char else c
  }

  /** `strings.ToLower`, over ASCII. */
  function ToLower(s: string): string {
    seq(|s|, i requires 0 <= i < |s| => LowerChar(s[i]))
  }

  /** `strings.Contains(s, sub)`: `sub` occurs in `s` at some offset. */
  predicate Contains(s: string, sub: string) {
    exists i :: 0 <= i <= |s| && OccursAt(s, sub, i)
  }

  /** `sub` occurs in `s` starting at offset `i`. */
  predicate OccursAt(s: string, sub: string, i: int) {
    0 <= i && i + |sub| <= |s| && s[i..i + |sub|] == sub
  }

  /** Lower-casing keeps every occurrence: what `s` contains, `ToLower(s)` contains lower-cased. */
  lemma ContainsToLower(s: string, sub: string)
    requires Contains(s, sub)
    ensures Contains(ToLower(s), ToLower(sub))
  {
    var i :| 0 <= i <= |s| && OccursAt(s, sub, i);
    var low := ToLower(s);
    assert |low| == |s| && |ToLower(sub)| == |sub|;
    assert low[i..i + |sub|] == ToLower(sub) by {
      forall k | 0 <= k < |sub|
        ensures low[i..i + |sub|][k] == ToLower(sub)[k]
      {
        assert s[i..i + |sub|][k] == s[i + k];
      }
    }
    assert OccursAt(low, ToLower(sub), i);
  }

  /** `strings.Join(parts, sep)`. */
  function Join(parts: seq<string>, sep: string): string
    decreases |parts|
  {
    if |parts| == 0 then ""
    else if |parts| == 1 then parts[0]
    else parts[0] + sep + Join(parts[1..], sep)
  }

  /** Joining a concatenation is joining the halves with one separator between them. */
  lemma {:induction false} JoinAppend(p: seq<string>, q: seq<string>, sep: string)
    requires p != [] && q != []
    ensures Join(p + q, sep) == Join(p, sep) + sep + Join(q, sep)
    decreases |p|
  {
    if |p| == 1 {
      assert (p + q)[1..] == q;
    } else {
      assert (p + q)[1..] == p[1..] + q;
      JoinAppend(p[1..], q, sep);
    }
  }

  /** `fmt`'s `%q` verb, without Go's escaping of special characters. */
  function Quote(s: string): string {
    "\"" + s + "\""
  }
}
