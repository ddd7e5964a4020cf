/** String helpers shared by the compliance filter and the scoring engine:
    an Option type, substring search (`String.prototype.includes` / `indexOf`),
    ASCII lower-casing, and `String.prototype.replace` with a string pattern. */
module Text {

  datatype Option<+T> = None | Some(value: T)

  /** `needle` occurs in `hay` starting at position `i`. */
  predicate OccursAt(needle: string, hay: string, i: nat) {
    i + |needle| <= |hay| && hay[i..i + |needle|] == needle
  }

  /** An occurrence of `needle` in `hay` is one in `hay[1..]`, shifted by one. */
  lemma OccursAtShift(needle: string, hay: string, i: nat)
    requires |hay| > 0
    ensures OccursAt(needle, hay[1..], i) <==> OccursAt(needle, hay, i + 1)
  {
    if i + 1 + |needle| <= |hay| {
      assert hay[1..][i..i + |needle|] == hay[i + 1..i + 1 + |needle|];
    }
  }

  /** `hay.includes(needle)`: whether `needle` occurs anywhere in `hay`. */
  function Includes(hay: string, needle: string): (r: bool)
    ensures r <==> exists i: nat :: OccursAt(needle, hay, i)
    decreases |hay|
  {
    if needle <= hay then
      assert OccursAt(needle, hay, 0);
      true
    else if |hay| == 0 then
      false
    else
      var rest := Includes(hay[1..], needle);
      assert rest ==> exists i: nat :: OccursAt(needle, hay, i) by {
        if rest {
          var i: nat :| OccursAt(needle, hay[1..], i);
          OccursAtShift(needle, hay, i);
        }
      }
      assert (exists i: nat :: OccursAt(needle, hay, i)) ==> rest by {
        if exists i: nat :: OccursAt(needle, hay, i) {
          var i: nat :| OccursAt(needle, hay, i);
          assert i != 0;
          OccursAtShift(needle, hay, i - 1);
        }
      }
      rest
  }

  /** `s` is always found inside `a + s + b`, right after `a`. */
  lemma OccursInMiddle(a: string, s: string, b: string)
    ensures OccursAt(s, a + s + b, |a|)
    ensures Includes(a + s + b, s)
  {
    var t := a + s + b;
    assert t[|a|..|a| + |s|] == s;
    assert OccursAt(s, t, |a|);
    assert exists i: nat :: OccursAt(s, t, i);
  }

  /** `s` is found inside `a + s + b + c`. */
  lemma IncludesInMiddle(a: string, s: string, b: string, c: string)
    ensures Includes(a + s + b + c, s)
  {
    OccursInMiddle(a, s, b + c);
    assert a + s + b + c == a + s + (b + c);
  }

  /** Position of the first occurrence of `pat` in `s` at or after `from`. */
  function IndexFrom(s: string, pat: string, from: nat): (r: Option<nat>)
    requires from <= |s| + 1
    ensures r.Some? ==> from <= r.value && OccursAt(pat, s, r.value)
    ensures forall j: nat :: from <= j && (r.None? || j < r.value) ==> !OccursAt(pat, s, j)
    decreases |s| + 1 - from
  {
    if from + |pat| > |s| then None
    else if s[from..from + |pat|] == pat then Some(from)
    else IndexFrom(s, pat, from + 1)
  }

  /** `s.indexOf(pat)`: the first position at which `pat` occurs, if any. */
  function IndexOf(s: string, pat: string): (r: Option<nat>)
    ensures r.Some? ==> OccursAt(pat, s, r.value)
    ensures forall j: nat :: (r.None? || j < r.value) ==> !OccursAt(pat, s, j)
  {
    IndexFrom(s, pat, 0)
  }

  /** ASCII lower-casing of one character. */
  function LowerChar(c: char): char {
    if 'A' <= c <= 'Z' then (c as int + 32) as char else c
  }

  /** `s.toLowerCase()` restricted to ASCII letters: each capital becomes its
      small letter, every other character stays, and no capital is left. */
  function Lower(s: string): (r: string)
    ensures |r| == |s|
    ensures forall i :: 0 <= i < |s| ==> !('A' <= r[i] <= 'Z')
    ensures forall i :: 0 <= i < |s| && !('A' <= s[i] <= 'Z') ==> r[i] == s[i]
    ensures forall i :: 0 <= i < |s| && 'A' <= s[i] <= 'Z' ==> r[i] as int == s[i] as int + 32
  {
    seq(|s|, i requires 0 <= i < |s| => LowerChar(s[i]))
  }

  /** Lower-casing twice is lower-casing once. */
  lemma LowerIdempotent(s: string)
    ensures Lower(Lower(s)) == Lower(s)
  {
  }

  /** The replacement text that `String.prototype.replace` inserts for a string
      pattern (the GetSubstitution operation of ECMAScript, with no
      capture groups): `$$` is a dollar sign, `$&` the matched text, `` $` ``
      the text before the match, `$'` the text after it; any other character,
      including a lone `$`, stands for itself. */
  function Substitution(rep: string, matched: string, before: string, after: string): (r: string)
    ensures '$' !in rep ==> r == rep
    decreases |rep|
  {
    if |rep| == 0 then ""
    else if |rep| >= 2 && rep[0] == '$' && rep[1] == '$' then "$" + Substitution(rep[2..], matched, before, after)
    else if |rep| >= 2 && rep[0] == '$' && rep[1] == '&' then matched + Substitution(rep[2..], matched, before, after)
    else if |rep| >= 2 && rep[0] == '$' && rep[1] == '`' then before + Substitution(rep[2..], matched, before, after)
    else if |rep| >= 2 && rep[0] == '$' && rep[1] == '\'' then after + Substitution(rep[2..], matched, before, after)
    else
      assert '$' !in rep ==> '$' !in rep[1..] && [rep[0]] + rep[1..] == rep;
      [rep[0]] + Substitution(rep[1..], matched, before, after)
  }

  /** `s.replace(pat, rep)` with a string pattern: only the FIRST occurrence of
      `pat` is replaced; without an occurrence `s` is returned unchanged. */
  function ReplaceFirst(s: string, pat: string, rep: string): (r: string)
    ensures !Includes(s, pat) ==> r == s
    ensures Includes(s, pat) ==>
      (IndexOf(s, pat).Some? &&
       var i := IndexOf(s, pat).value;
       r == s[..i] + Substitution(rep, pat, s[..i], s[i + |pat|..]) + s[i + |pat|..])
  {
    match IndexOf(s, pat)
    case None => s
    case Some(i) =>
      s[..i] + Substitution(rep, pat, s[..i], s[i + |pat|..]) + s[i + |pat|..]
  }

  /** When the only place a pattern can start is its occurrence at the end of
      `s + pat`, `replace` swaps exactly that trailing occurrence. */
  lemma ReplaceTrailing(s: string, pat: string, rep: string)
    requires |pat| > 0 && pat[0] !in s
    ensures ReplaceFirst(s + pat, pat, rep) == s + Substitution(rep, pat, s, "")
  {
    var t := s + pat;
    OccursInMiddle(s, pat, "");
    assert s + pat + "" == t;
    forall j: nat | j < |s|
      ensures !OccursAt(pat, t, j)
    {
      assert t[j] == s[j] != pat[0];
    }
    var r := IndexOf(t, pat);
    assert r.Some? && r.value == |s|;
    assert t[..|s|] == s;
    assert t[|s| + |pat|..] == "";
  }
}
