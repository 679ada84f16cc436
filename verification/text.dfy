/** The few string operations the weather app relies on: `toLowerCase`,
    `includes`, `split(" ")[0]` and number-to-text interpolation. */
module Text {

  /** Lower-cases one character. Only the ASCII letters are mapped; every
      other character is left as it is. */
  function LowerChar(c: char): (r: char)
    ensures 'A' <= c <= 'Z' ==> 'a' <= r <= 'z' && r as int == c as int + 32
    ensures !('A' <= c <= 'Z') ==> r == c
  {
    if 'A' <= c <= 'Z' then (c as int + 32) as char else c
  }

  /** `s.toLowerCase()` restricted to ASCII letters. */
  function Lower(s: string): (r: string)
    ensures |r| == |s|
    ensures forall i :: 0 <= i < |s| ==> r[i] == LowerChar(s[i])
  {
    seq(|s|, i requires 0 <= i < |s| => LowerChar(s[i]))
  }

  /** A string is lower case when it holds no ASCII capital. */
  predicate IsLower(s: string) {
    forall i :: 0 <= i < |s| ==> !('A' <= s[i] <= 'Z')
  }

  /** Lower-casing leaves no capital behind, and changes nothing in a string
      that has none. */
  lemma LowerIsLower(s: string)
    ensures IsLower(Lower(s))
    ensures IsLower(s) ==> Lower(s) == s
  {
  }

  /** Lower-casing is idempotent: matching against `Lower(Lower(s))` is the
      same as matching against `Lower(s)`. */
  lemma LowerIdempotent(s: string)
    ensures Lower(Lower(s)) == Lower(s)
  {
    LowerIsLower(s);
  }

  /** `w` occurs in `s` starting at position `i`. */
  ghost predicate OccursAt(s: string, w: string, i: int) {
    0 <= i && i + |w| <= |s| && s[i..i + |w|] == w
  }

  /** `s.includes(w)`: scans `s` left to right for an occurrence of `w`. The
      empty string occurs in every string, as in JavaScript. */
  function Contains(s: string, w: string): (r: bool)
    ensures r ==> |w| <= |s|
    decreases |s|
  {
    if |s| < |w| then false
    else if s[..|w|] == w then true
    else Contains(s[1..], w)
  }

  /** The scan finds an occurrence exactly when one exists. */
  lemma {:induction false} ContainsIff(s: string, w: string)
    ensures Contains(s, w) <==> exists i :: OccursAt(s, w, i)
    decreases |s|
  {
    if |s| < |w| {
    } else if s[..|w|] == w {
      assert OccursAt(s, w, 0);
    } else {
      ContainsIff(s[1..], w);
      assert forall i :: OccursAt(s[1..], w, i) ==> OccursAt(s, w, i + 1);
      assert forall i :: OccursAt(s, w, i) ==> i >= 1 && OccursAt(s[1..], w, i - 1);
    }
  }

  /** An occurrence of `w` anywhere inside `s` makes `s` contain `w`. */
  lemma ContainsAt(s: string, w: string, i: int)
    requires 0 <= i && i + |w| <= |s| && s[i..i + |w|] == w
    ensures Contains(s, w)
  {
    assert OccursAt(s, w, i);
    ContainsIff(s, w);
  }

  /** If some character of `w` never appears in `s`, then `s` cannot contain
      `w`. This is how a keyword is shown to be absent from a message. */
  lemma NotContainsMissingChar(s: string, w: string, c: char)
    requires c in w && c !in s
    ensures !Contains(s, w)
  {
    ContainsIff(s, w);
  }

  /** Containment survives text added on either side. */
  lemma ContainsInContext(a: string, s: string, b: string, w: string)
    requires Contains(s, w)
    ensures Contains(a + s + b, w)
  {
    ContainsIff(s, w);
    var i :| OccursAt(s, w, i);
    assert (a + s + b)[|a| + i..|a| + i + |w|] == s[i..i + |w|];
    ContainsAt(a + s + b, w, |a| + i);
  }

  /** `s.split(" ")[0]`: the text before the first space, or all of `s` when
      it has no space. */
  function FirstToken(s: string): (r: string)
    ensures r <= s
    ensures ' ' !in r
    ensures |r| < |s| ==> s[|r|] == ' '
  {
    if s == [] || s[0] == ' ' then [] else [s[0]] + FirstToken(s[1..])
  }

  /** The three properties of `FirstToken` pin it down: any prefix without a
      space that ends at a space or at the end of `s` is the first token. */
  lemma {:induction false} FirstTokenUnique(s: string, t: string)
    requires t <= s && ' ' !in t
    requires |t| < |s| ==> s[|t|] == ' '
    ensures FirstToken(s) == t
  {
    if s != [] && s[0] != ' ' {
      assert |t| > 0 && t[0] == s[0];
      assert t[1..] <= s[1..];
      FirstTokenUnique(s[1..], t[1..]);
      assert t == [s[0]] + t[1..];
    }
  }

  /** A day name followed by a space and more words yields the day name. */
  lemma FirstTokenOfPhrase(word: string, rest: string)
    requires ' ' !in word
    ensures FirstToken(word + " " + rest) == word
  {
    var s := word + " " + rest;
    assert s[|word|] == ' ';
    assert word <= s;
    FirstTokenUnique(s, word);
  }

  predicate IsDigit(c: char) {
    '0' <= c <= '9'
  }

  /** Decimal text of a natural number, as template interpolation renders it. */
  function NatToDecimal(n: nat): (r: string)
    ensures |r| >= 1
    ensures forall i :: 0 <= i < |r| ==> IsDigit(r[i])
    ensures n < 10 ==> r == [('0' as int + n) as char]
  {
    var d := [('0' as int + n % 10) as char];
    if n < 10 then d else NatToDecimal(n / 10) + d
  }

  /** Decimal text of an integer, with a leading minus sign when negative. */
  function IntToDecimal(n: int): (r: string)
    ensures n >= 0 ==> r == NatToDecimal(n)
    ensures n < 0 ==> r == "-" + NatToDecimal(-n)
  {
    if n >= 0 then NatToDecimal(n) else "-" + NatToDecimal(-n)
  }
}
