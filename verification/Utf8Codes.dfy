/**
 The characters of Utf8.dfy are exactly the encodings of Unicode scalar values, as section 3 of
 RFC 3629 defines them.
 */
module Utf8Codes {
  import opened Utf8

  /** The code points that are characters: no surrogates. */
  predicate Scalar(c: int) { 0 <= c < 0xD800 || 0xE000 <= c < 0x110000 }

  /** The bits of a code point above its last `n` groups of six, and the group below those. */
  function High(c: nat, n: nat): nat { if n == 0 then c else High(c / 64, n - 1) }
  function Group(c: nat, n: nat): (g: nat)
    ensures g < 64
  {
    High(c, n) % 64
  }

  /** The text encodes the scalar value: the bits of the value, six to a byte after the first. */
  predicate Encodes(s: Text, c: nat) {
    if c < 0x80 then |s| == 1 && s[0] == c
    else if c < 0x800 then |s| == 2 && s[0] == 0xC0 + High(c, 1) && s[1] == 0x80 + Group(c, 0)
    else if c < 0x10000 then
      |s| == 3 && s[0] == 0xE0 + High(c, 2) && s[1] == 0x80 + Group(c, 1) && s[2] == 0x80 + Group(c, 0)
    else
      |s| == 4 && s[0] == 0xF0 + High(c, 3) && s[1] == 0x80 + Group(c, 2) && s[2] == 0x80 + Group(c, 1)
      && s[3] == 0x80 + Group(c, 0)
  }

  lemma Groups(c: nat, q: nat, r: nat, n: nat)
    requires c == 64 * q + r && r < 64
    ensures High(c, 0) == c && Group(c, 0) == r && High(c, n + 1) == High(q, n) && Group(c, n + 1) == Group(q, n)
  {
    assert c / 64 == q && c % 64 == r;
    assert High(c, n + 1) == High(c / 64, n);
  }

  /** A code point as its groups of six bits. */
  lemma Taken(c: nat, q: nat, r: nat)
    requires q == c / 64 && r == c % 64
    ensures c == 64 * q + r && r < 64
  {
  }

  lemma EncodedTwo(s: Text, c: nat)
    requires 0x80 <= c < 0x800 && Encodes(s, c)
    ensures OneChar(s)
  {
    Taken(c, c / 64, c % 64);
    Groups(c, c / 64, c % 64, 0);
  }

  lemma EncodedThree(s: Text, c: nat)
    requires 0x800 <= c < 0x10000 && Scalar(c) && Encodes(s, c)
    ensures OneChar(s)
  {
    var q := c / 64;
    Taken(c, q, c % 64);
    Taken(q, q / 64, q % 64);
    Groups(c, q, c % 64, 0);
    Groups(c, q, c % 64, 1);
    Groups(q, q / 64, q % 64, 0);
    assert s[0] == 0xE0 + q / 64 && s[1] == 0x80 + q % 64;
  }

  lemma EncodedFour(s: Text, c: nat)
    requires 0x10000 <= c < 0x110000 && Encodes(s, c)
    ensures OneChar(s)
  {
    var q := c / 64;
    var p := q / 64;
    Taken(c, q, c % 64);
    Taken(q, p, q % 64);
    Taken(p, p / 64, p % 64);
    Groups(c, q, c % 64, 0);
    Groups(c, q, c % 64, 1);
    Groups(c, q, c % 64, 2);
    Groups(q, p, q % 64, 0);
    Groups(q, p, q % 64, 1);
    Groups(p, p / 64, p % 64, 0);
    assert s[0] == 0xF0 + p / 64 && s[1] == 0x80 + p % 64 && s[2] == 0x80 + q % 64;
  }

  lemma EncodedIsChar(s: Text, c: nat)
    requires Scalar(c) && Encodes(s, c)
    ensures OneChar(s)
  {
    if c >= 0x10000 {
      EncodedFour(s, c);
    } else if c >= 0x800 {
      EncodedThree(s, c);
    } else if c >= 0x80 {
      EncodedTwo(s, c);
    }
  }

  lemma CharTwo(s: Text) returns (c: nat)
    requires OneChar(s) && |s| == 2
    ensures Scalar(c) && Encodes(s, c)
  {
    var b0: int, b1: int := s[0], s[1];
    var q: nat := b0 - 0xC0;
    c := 64 * q + (b1 - 0x80);
    Groups(c, q, b1 - 0x80, 0);
  }

  lemma CharThree(s: Text) returns (c: nat)
    requires OneChar(s) && |s| == 3
    ensures Scalar(c) && Encodes(s, c)
  {
    var b0: int, b1: int, b2: int := s[0], s[1], s[2];
    var p: nat := b0 - 0xE0;
    var q: nat := 64 * p + (b1 - 0x80);
    c := 64 * q + (b2 - 0x80);
    Groups(c, q, b2 - 0x80, 0);
    Groups(c, q, b2 - 0x80, 1);
    Groups(q, p, b1 - 0x80, 0);
  }

  lemma CharFour(s: Text) returns (c: nat)
    requires OneChar(s) && |s| == 4
    ensures Scalar(c) && Encodes(s, c)
  {
    var b0: int, b1: int, b2: int, b3: int := s[0], s[1], s[2], s[3];
    var o: nat := b0 - 0xF0;
    var p: nat := 64 * o + (b1 - 0x80);
    var q: nat := 64 * p + (b2 - 0x80);
    c := 64 * q + (b3 - 0x80);
    Groups(c, q, b3 - 0x80, 0);
    Groups(c, q, b3 - 0x80, 1);
    Groups(c, q, b3 - 0x80, 2);
    Groups(q, p, b2 - 0x80, 0);
    Groups(q, p, b2 - 0x80, 1);
    Groups(p, o, b1 - 0x80, 0);
  }

  lemma CharIsEncoded(s: Text) returns (c: nat)
    requires OneChar(s)
    ensures Scalar(c) && Encodes(s, c)
  {
    if |s| == 1 {
      c := s[0];
    } else if |s| == 2 {
      c := CharTwo(s);
    } else if |s| == 3 {
      c := CharThree(s);
    } else {
      c := CharFour(s);
    }
  }

  /** A text is one character if and only if it encodes a scalar value. */
  lemma CharsAreScalars(s: Text)
    ensures OneChar(s) <==> exists c: nat :: Scalar(c) && Encodes(s, c)
  {
    if OneChar(s) {
      var c := CharIsEncoded(s);
    } else {
      forall c: nat | Scalar(c) ensures !Encodes(s, c) {
        if Encodes(s, c) { EncodedIsChar(s, c); }
      }
    }
  }
}
