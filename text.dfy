/** The string operations the pages use: `toLowerCase` and `includes` in the
    search boxes, and `length` in the phone-number check. Lower-casing is
    modelled on ASCII letters only. */
module Text {

  function ToLowerChar(c: char): char {
    if 'A' <= c <= 'Z' then (c as int + 32) as char else c
  }

  function ToLower(s: string): string {
    seq(|s|, i requires 0 <= i < |s| => ToLowerChar(s[i]))
  }

  /** `needle` occurs in `hay` starting at position `i`. */
  predicate OccursAt(hay: string, needle: string, i: int) {
    0 <= i && i + |needle| <= |hay| && hay[i..i + |needle|] == needle
  }

  /** `String.prototype.includes`: some position of `hay` starts a copy of `needle`. */
  function Includes(hay: string, needle: string): (r: bool)
    ensures r <==> exists i :: OccursAt(hay, needle, i)
    decreases |hay|
  {
    if |needle| > |hay| then
      assert forall i :: !OccursAt(hay, needle, i);
      false
    else if hay[..|needle|] == needle then
      assert OccursAt(hay, needle, 0);
      true
    else
      var rest := Includes(hay[1..], needle);
      assert forall i :: OccursAt(hay[1..], needle, i) ==> OccursAt(hay, needle, i + 1) by {
        forall i | OccursAt(hay[1..], needle, i) ensures OccursAt(hay, needle, i + 1) {
          assert hay[i + 1..i + 1 + |needle|] == hay[1..][i..i + |needle|];
        }
      }
      assert forall i :: OccursAt(hay, needle, i) && i > 0 ==> OccursAt(hay[1..], needle, i - 1) by {
        forall i | OccursAt(hay, needle, i) && i > 0 ensures OccursAt(hay[1..], needle, i - 1) {
          var k := i - 1;
          assert hay[1..][k..k + |needle|] == hay[k + 1..k + 1 + |needle|];
        }
      }
      rest
  }

  /** The empty string occurs in every string, so an empty query matches everything. */
  lemma IncludesEmpty(hay: string)
    ensures Includes(hay, "")
  {
    assert OccursAt(hay, "", 0);
  }

  /** Lower-casing twice is lower-casing once. */
  lemma ToLowerIdempotent(s: string)
    ensures ToLower(ToLower(s)) == ToLower(s)
  {
  }

  /** How many UTF-16 code units JavaScript spends on one character: two
      (a surrogate pair) above U+FFFF, one otherwise. */
  function Utf16Units(c: char): (n: nat)
    ensures n == 1 || n == 2
    ensures n == 2 <==> c as int > 0xFFFF
  {
    if c as int > 0xFFFF then 2 else 1
  }

  /** `String.prototype.length`: the number of UTF-16 code units. */
  function Utf16Length(s: string): (n: nat)
    ensures |s| <= n <= 2 * |s|
  {
    if s == [] then 0 else Utf16Units(s[0]) + Utf16Length(s[1..])
  }

  /** On text without characters above U+FFFF, JavaScript's length is the character count. */
  lemma {:induction false} BmpUtf16Length(s: string)
    requires forall i :: 0 <= i < |s| ==> s[i] as int <= 0xFFFF
    ensures Utf16Length(s) == |s|
  {
    if s != [] {
      assert forall i :: 0 <= i < |s[1..]| ==> s[1..][i] == s[i + 1];
      BmpUtf16Length(s[1..]);
    }
  }

  /** Each character above U+FFFF adds one unit: the length is the character
      count plus the number of such characters. */
  lemma {:induction false} Utf16LengthCountsAstral(s: string)
    ensures Utf16Length(s) == |s| + |AstralPositions(s)|
  {
    if s != [] {
      Utf16LengthCountsAstral(s[1..]);
      var tail := AstralPositions(s[1..]);
      var shifted := Shift(tail);
      assert |shifted| == |tail| by {
        ShiftCardinality(tail);
      }
      forall i ensures i in AstralPositions(s) <==> (i == 0 && s[0] as int > 0xFFFF) || i in shifted {
        if i in AstralPositions(s) && i > 0 {
          assert s[1..][i - 1] == s[i];
          assert i - 1 in tail;
        }
        if i in shifted {
          assert s[1..][i - 1] == s[i];
        }
      }
      if s[0] as int > 0xFFFF {
        assert AstralPositions(s) == {0} + shifted;
      } else {
        assert AstralPositions(s) == shifted;
      }
    }
  }

  /** The positions of the characters above U+FFFF. */
  ghost function AstralPositions(s: string): set<nat> {
    set i: nat | i < |s| && s[i] as int > 0xFFFF
  }

  /** Every position moved one place on. */
  ghost function Shift(a: set<nat>): set<nat> {
    set i | i in a :: i + 1
  }

  lemma {:induction false} ShiftCardinality(a: set<nat>)
    ensures |Shift(a)| == |a|
    decreases |a|
  {
    if a != {} {
      var x :| x in a;
      var b := a - {x};
      ShiftCardinality(b);
      forall y ensures y in Shift(a) <==> y in Shift(b) || y == x + 1 {
        if y in Shift(a) {
          var i :| i in a && y == i + 1;
          assert i == x || i in b;
        }
        if y == x + 1 {
          assert x in a;
        }
      }
      assert Shift(a) == Shift(b) + {x + 1};
      assert x + 1 !in Shift(b);
    } else {
      assert Shift(a) == {};
    }
  }
}
