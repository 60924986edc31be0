/** String length as JavaScript reports it: the number of UTF-16 code units, one
    for a character of the Basic Multilingual Plane and two (a surrogate pair)
    for any other. */
module Utf16 {

  /** The UTF-16 code units of one character. */
  function Units(c: char): (u: seq<int>)
    ensures |u| == 1 <==> c as int < 0x10000
    ensures |u| == 1 || |u| == 2
    ensures |u| == 1 ==> u[0] == c as int
    ensures |u| == 2 ==> 0xD800 <= u[0] < 0xDC00 && 0xDC00 <= u[1] < 0xE000
    ensures |u| == 2 ==> (u[0] - 0xD800) * 0x400 + (u[1] - 0xDC00) + 0x10000 == c as int
  {
    var v := c as int;
    if v < 0x10000 then [v]
    else [0xD800 + (v - 0x10000) / 0x400, 0xDC00 + (v - 0x10000) % 0x400]
  }

  /** The code units of a string, character by character. */
  function Encode(s: string): seq<int>
  {
    if s == [] then [] else Encode(s[..|s| - 1]) + Units(s[|s| - 1])
  }

  /** `s.length`. */
  function Length(s: string): (n: nat)
    ensures |s| <= n <= 2 * |s|
  {
    if s == [] then 0 else Length(s[..|s| - 1]) + (if s[|s| - 1] as int < 0x10000 then 1 else 2)
  }

  /** `Length` counts the code units of the encoding. */
  lemma {:induction false} LengthCountsUnits(s: string)
    ensures Length(s) == |Encode(s)|
    decreases |s|
  {
    if s != [] {
      LengthCountsUnits(s[..|s| - 1]);
    }
  }

  lemma {:induction false} LengthAppend(a: string, b: string)
    ensures Length(a + b) == Length(a) + Length(b)
    decreases |b|
  {
    if b == [] {
      assert a + b == a;
    } else {
      assert (a + b)[..|a + b| - 1] == a + b[..|b| - 1];
      LengthAppend(a, b[..|b| - 1]);
    }
  }

  /** A string of Basic Multilingual Plane characters has one unit per character. */
  lemma {:induction false} BmpLength(s: string)
    requires forall i :: 0 <= i < |s| ==> s[i] as int < 0x10000
    ensures Length(s) == |s|
    decreases |s|
  {
    if s != [] {
      BmpLength(s[..|s| - 1]);
    }
  }

  /** Length 1 is exactly one character of the Basic Multilingual Plane. */
  lemma LengthOne(s: string)
    ensures Length(s) == 1 <==> |s| == 1 && s[0] as int < 0x10000
  {
    if |s| == 1 {
      assert s[..0] == [];
    }
  }

  /** One character outside the Basic Multilingual Plane has length 2. */
  lemma AstralLength()
    ensures Length("\U{1F600}") == 2
  {
    assert "\U{1F600}"[..0] == [];
  }
}
