/**
The text path of `agentfork/harness/agent.py`: UTF-8 as in section 3 of RFC 3629.
*/
module Utf8 {

  /** Code units of one character. */
  function EncodeChar(c: char): (u: seq<int>)
    ensures 1 <= |u| <= 4 && forall i | 0 <= i < |u| :: 0 <= u[i] < 256
  {
    var n := c as int;
    if n < 0x80 then [n]
    else if n < 0x800 then [0xC0 + n / 0x40, 0x80 + n % 0x40]
    else if n < 0x10000 then [0xE0 + n / 0x1000, 0x80 + n / 0x40 % 0x40, 0x80 + n % 0x40]
    else [0xF0 + n / 0x40000, 0x80 + n / 0x1000 % 0x40, 0x80 + n / 0x40 % 0x40, 0x80 + n % 0x40]
  }

  /** `utf8_tokens`. */
  function Encode(text: string): (u: seq<int>) {
    if text == [] then [] else EncodeChar(text[0]) + Encode(text[1..])
  }

  /** Length of the sequence a lead unit announces. */
  function Announced(lead: int): (k: nat) {
    if lead < 0x80 then 1 else if lead < 0xE0 then 2 else if lead < 0xF0 then 3 else 4
  }

  /** The code point spelled by the first units of `u`. */
  function Spelled(u: seq<int>): (n: int)
    requires u != [] && Announced(u[0]) <= |u|
  {
    match Announced(u[0])
    case 1 => u[0]
    case 2 => (u[0] - 0xC0) * 0x40 + (u[1] - 0x80)
    case 3 => (u[0] - 0xE0) * 0x1000 + (u[1] - 0x80) * 0x40 + (u[2] - 0x80)
    case _ => (u[0] - 0xF0) * 0x40000 + (u[1] - 0x80) * 0x1000 + (u[2] - 0x80) * 0x40 + (u[3] - 0x80)
  }

  /** A character is recovered from its units, whatever follows them. */
  lemma SpelledBack(c: char, rest: seq<int>)
    ensures var u := EncodeChar(c) + rest;
            Announced(u[0]) == |EncodeChar(c)| && Spelled(u) == c as int
  {
    var n := c as int;
    assert n < 0x110000;
    assert n == n / 0x40 * 0x40 + n % 0x40;
    assert n / 0x40 == n / 0x1000 * 0x40 + n / 0x40 % 0x40;
    assert n / 0x1000 == n / 0x40000 * 0x40 + n / 0x1000 % 0x40;
  }

  /** No character's units start another's. */
  lemma PrefixFree(c: char, d: char, x: seq<int>, y: seq<int>)
    requires EncodeChar(c) + x <= EncodeChar(d) + y
    ensures c == d && x <= y
  {
    SpelledBack(c, x);
    SpelledBack(d, y);
    var u, v := EncodeChar(c) + x, EncodeChar(d) + y;
    assert u[0] == v[0];
    assert forall i | 0 <= i < Announced(u[0]) :: u[i] == v[i];
    assert Spelled(u) == Spelled(v);
    assert u[|EncodeChar(c)|..] == x && v[|EncodeChar(d)|..] == y;
  }

  /** One text starts another exactly if its encoding does. */
  lemma {:induction false} EncodePrefix(a: string, b: string)
    ensures Encode(a) <= Encode(b) <==> a <= b
    decreases |a|
  {
    if a != [] {
      if b == [] {
        assert |Encode(a)| > 0;
      } else {
        EncodePrefix(a[1..], b[1..]);
        if Encode(a) <= Encode(b) {
          PrefixFree(a[0], b[0], Encode(a[1..]), Encode(b[1..]));
          assert a == [a[0]] + a[1..] && b == [b[0]] + b[1..];
        }
        if a <= b {
          assert a[0] == b[0] && a[1..] <= b[1..];
        }
      }
    }
  }

  /** Strict extension survives the encoding, in both directions. */
  lemma EncodeStrict(a: string, b: string)
    ensures Encode(a) < Encode(b) <==> a < b
  {
    EncodePrefix(a, b);
    EncodePrefix(b, a);
    if a <= b && Encode(b) <= Encode(a) {
      assert a == b;
    }
  }

  /** Every character takes as few units as its code point allows, in the ranges the standard
      gives to lead and continuation units. */
  lemma Shortest(c: char)
    ensures var u, n := EncodeChar(c), c as int;
            && |u| == (if n < 0x80 then 1 else if n < 0x800 then 2 else if n < 0x10000 then 3 else 4)
            && (|u| == 1 ==> u == [n])
            && (|u| == 2 ==> 0xC2 <= u[0] <= 0xDF) && (|u| == 3 ==> 0xE0 <= u[0] <= 0xEF) && (|u| == 4 ==> 0xF0 <= u[0] <= 0xF4)
            && (forall i | 1 <= i < |u| :: 0x80 <= u[i] <= 0xBF)
  {
    assert (c as int) < 0x110000;
  }

  /** The character with code point `n`, if there is one. */
  function Scalar(n: int): (c: char) {
    if 0 <= n < 0xD800 || 0xE000 <= n < 0x110000 then n as char else 'x'
  }

  /** Read a text back from its units. */
  function Decode(u: seq<int>): (text: string)
    decreases |u|
  {
    if u == [] || Announced(u[0]) > |u| then [] else [Scalar(Spelled(u))] + Decode(u[Announced(u[0])..])
  }

  lemma {:induction false} RoundTrip(text: string)
    ensures Decode(Encode(text)) == text
    decreases |text|
  {
    if text != [] {
      SpelledBack(text[0], Encode(text[1..]));
      RoundTrip(text[1..]);
      var u := Encode(text);
      assert u[|EncodeChar(text[0])|..] == Encode(text[1..]);
    }
  }
}
