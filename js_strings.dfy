/**
 * The few JavaScript string operations the pages rely on: `toLowerCase`,
 * `toUpperCase` (ASCII letters only), `includes` and a global single-character
 * `replace`.
 */
module JsStrings {

  predicate IsUpperAscii(ch: char) { 'A' <= ch <= 'Z' }

  predicate IsLowerAscii(ch: char) { 'a' <= ch <= 'z' }

  /** ASCII lower-casing of one character. */
  function LowerChar(ch: char): (r: char)
    ensures !IsUpperAscii(r)
    ensures IsUpperAscii(ch) || r == ch
  {
    if IsUpperAscii(ch) then (ch as int + 32) as char else ch
  }

  /** ASCII upper-casing of one character. */
  function UpperChar(ch: char): (r: char)
    ensures !IsLowerAscii(r)
    ensures IsLowerAscii(ch) || r == ch
  {
    if IsLowerAscii(ch) then (ch as int - 32) as char else ch
  }

  /** `s.toLowerCase()` */
  function Lower(s: string): (r: string)
    ensures |r| == |s|
    ensures forall i :: 0 <= i < |s| ==> r[i] == LowerChar(s[i])
  {
    seq(|s|, i requires 0 <= i < |s| => LowerChar(s[i]))
  }

  /** `s.toUpperCase()` */
  function Upper(s: string): (r: string)
    ensures |r| == |s|
    ensures forall i :: 0 <= i < |s| ==> r[i] == UpperChar(s[i])
  {
    seq(|s|, i requires 0 <= i < |s| => UpperChar(s[i]))
  }

  /** `s.replace(/x/g, y)` for a single character `x` replaced by a single character `y`. */
  function ReplaceAll(s: string, x: char, y: char): (r: string)
    ensures |r| == |s|
    ensures forall i :: 0 <= i < |s| ==> r[i] == (if s[i] == x then y else s[i])
  {
    seq(|s|, i requires 0 <= i < |s| => if s[i] == x then y else s[i])
  }

  /** `t` occurs in `s` starting at position `i`. */
  ghost predicate OccursAt(s: string, t: string, i: nat) {
    i + |t| <= |s| && s[i..i + |t|] == t
  }

  /**
   * `s.includes(t)`: scan `s` left to right for a position where `t` is a
   * prefix. The empty string is included everywhere; a longer string never is.
   */
  predicate Includes(s: string, t: string): (b: bool)
    ensures t == "" ==> b
    ensures b ==> |t| <= |s|
    decreases |s|
  {
    t <= s || (|s| > 0 && Includes(s[1..], t))
  }

  /** `Includes` holds exactly when `t` occurs somewhere in `s`. */
  lemma {:induction false} IncludesIff(s: string, t: string)
    ensures Includes(s, t) <==> exists i: nat :: OccursAt(s, t, i)
    decreases |s|
  {
    assert OccursAt(s, t, 0) <==> t <= s;
    if t <= s {
      assert OccursAt(s, t, 0);
    } else if |s| == 0 {
      assert |t| > 0;
    } else {
      IncludesIff(s[1..], t);
      if Includes(s[1..], t) {
        var i: nat :| OccursAt(s[1..], t, i);
        assert s[1..][i..i + |t|] == s[i + 1..i + 1 + |t|];
        assert OccursAt(s, t, i + 1);
      }
      if i: nat :| OccursAt(s, t, i) {
        assert i > 0;
        assert s[1..][i - 1..i - 1 + |t|] == s[i..i + |t|];
        assert OccursAt(s[1..], t, i - 1);
      }
    }
  }

  /** A string that contains `t + u` contains `t`. */
  lemma IncludesPatternPrefix(s: string, t: string, u: string)
    ensures Includes(s, t + u) ==> Includes(s, t)
  {
    IncludesIff(s, t + u);
    IncludesIff(s, t);
    if Includes(s, t + u) {
      var i: nat :| OccursAt(s, t + u, i);
      assert s[i..i + |t|] == s[i..i + |t + u|][..|t|];
      assert OccursAt(s, t, i);
    }
  }

  /** Lower-casing distributes over concatenation. */
  lemma LowerConcat(a: string, b: string)
    ensures Lower(a + b) == Lower(a) + Lower(b)
  {
    assert forall i :: 0 <= i < |a + b| ==> Lower(a + b)[i] == (Lower(a) + Lower(b))[i];
  }

  /** Lower-casing ignores the case the input was in. */
  lemma LowerOfUpper(s: string)
    ensures Lower(Upper(s)) == Lower(s)
    ensures Lower(Lower(s)) == Lower(s)
  {
    assert forall i :: 0 <= i < |s| ==> Lower(Upper(s))[i] == Lower(s)[i];
    assert forall i :: 0 <= i < |s| ==> Lower(Lower(s))[i] == Lower(s)[i];
  }
}
