/** The base 64 encoding of section 4 of RFC 4648: three octets become four characters of
    the 64-character alphabet, and a final group of one or two octets is padded with '='. */
module Base64 {
  import opened Common

  type byte = x: int | 0 <= x < 256

  /** A 6-bit group, the index of one alphabet character. */
  type sextet = x: int | 0 <= x < 64

  /** The characters of the alphabet of Table 1: A-Z, a-z, 0-9, '+' and '/'. */
  predicate IsAlphabetChar(c: char) {
    'A' <= c <= 'Z' || 'a' <= c <= 'z' || '0' <= c <= '9' || c == '+' || c == '/'
  }

  function IndexOf(c: char): (i: sextet)
    requires IsAlphabetChar(c)
  {
    if 'A' <= c <= 'Z' then c as int - 'A' as int
    else if 'a' <= c <= 'z' then c as int - 'a' as int + 26
    else if '0' <= c <= '9' then c as int - '0' as int + 52
    else if c == '+' then 62
    else 63
  }

  /** The encoding of value `i` in Table 1; IndexOf is its inverse. */
  function CharOf(i: sextet): (c: char)
    ensures IsAlphabetChar(c) && IndexOf(c) == i
  {
    if i < 26 then ('A' as int + i) as char
    else if i < 52 then ('a' as int + (i - 26)) as char
    else if i < 62 then ('0' as int + (i - 52)) as char
    else if i == 62 then '+'
    else '/'
  }

  /** Three octets, 24 bits, as four 6-bit groups, most significant first. */
  function EncodeTriple(b0: byte, b1: byte, b2: byte): string {
    [CharOf(b0 / 4), CharOf((b0 % 4) * 16 + b1 / 16), CharOf((b1 % 16) * 4 + b2 / 64), CharOf(b2 % 64)]
  }

  /** Encode(bytes): whole groups first; a final single octet gives two characters and "==",
      a final pair three characters and "=". */
  function Encode(b: seq<byte>): string
    decreases |b|
  {
    if |b| == 0 then ""
    else if |b| == 1 then [CharOf(b[0] / 4), CharOf((b[0] % 4) * 16)] + "=="
    else if |b| == 2 then [CharOf(b[0] / 4), CharOf((b[0] % 4) * 16 + b[1] / 16), CharOf((b[1] % 16) * 4)] + "="
    else EncodeTriple(b[0], b[1], b[2]) + Encode(b[3..])
  }

  /** Every three octets, or fewer at the end, give four characters, each of the alphabet
      or the pad character. */
  lemma {:induction false} EncodeShape(b: seq<byte>)
    ensures |Encode(b)| == 4 * ((|b| + 2) / 3)
    ensures forall i :: 0 <= i < |Encode(b)| ==> IsAlphabetChar(Encode(b)[i]) || Encode(b)[i] == '='
    decreases |b|
  {
    if |b| >= 3 {
      EncodeShape(b[3..]);
      var s, t := EncodeTriple(b[0], b[1], b[2]), Encode(b[3..]);
      assert Encode(b) == s + t;
      assert forall i :: 4 <= i < |s + t| ==> (s + t)[i] == t[i - 4];
      assert (|b| + 2) / 3 == (|b[3..]| + 2) / 3 + 1;
    }
  }

  /** Decoding of a padded encoding; None when a character is outside the alphabet or the
      padding is misplaced. */
  function Decode(s: string): (r: Option<seq<byte>>)
    decreases |s|
  {
    if s == [] then Some([])
    else if |s| < 4 || !IsAlphabetChar(s[0]) || !IsAlphabetChar(s[1]) then None
    else
      var i0, i1 := IndexOf(s[0]), IndexOf(s[1]);
      var b0 := i0 * 4 + i1 / 16;
      if s[2] == '=' && s[3] == '=' then
        if |s| == 4 then Some([b0]) else None
      else if !IsAlphabetChar(s[2]) then None
      else
        var i2 := IndexOf(s[2]);
        var b1 := (i1 % 16) * 16 + i2 / 4;
        if s[3] == '=' then
          if |s| == 4 then Some([b0, b1]) else None
        else if !IsAlphabetChar(s[3]) then None
        else
          var b2 := (i2 % 4) * 64 + IndexOf(s[3]);
          match Decode(s[4..])
          case None => None
          case Some(rest) => Some([b0, b1, b2] + rest)
  }

  // The 6-bit groups of EncodeTriple put back together give the three octets.
  lemma FirstOctet(b0: byte, b1: byte)
    ensures (b0 / 4) * 4 + ((b0 % 4) * 16 + b1 / 16) / 16 == b0
  {
    assert ((b0 % 4) * 16 + b1 / 16) / 16 == b0 % 4;
  }

  lemma SecondOctet(b0: byte, b1: byte, b2: byte)
    ensures (((b0 % 4) * 16 + b1 / 16) % 16) * 16 + ((b1 % 16) * 4 + b2 / 64) / 4 == b1
  {
    assert ((b0 % 4) * 16 + b1 / 16) % 16 == b1 / 16;
    assert ((b1 % 16) * 4 + b2 / 64) / 4 == b1 % 16;
  }

  lemma ThirdOctet(b1: byte, b2: byte)
    ensures (((b1 % 16) * 4 + b2 / 64) % 4) * 64 + b2 % 64 == b2
  {
    assert ((b1 % 16) * 4 + b2 / 64) % 4 == b2 / 64;
  }

  /** A whole group followed by more text decodes to its three octets followed by what the
      text decodes to. */
  lemma DecodeTriple(b0: byte, b1: byte, b2: byte, t: string)
    ensures Decode(EncodeTriple(b0, b1, b2) + t) ==
      match Decode(t)
      case None => None
      case Some(rest) => Some([b0, b1, b2] + rest)
  {
    var s := EncodeTriple(b0, b1, b2) + t;
    assert s[4..] == t;
    FirstOctet(b0, b1);
    SecondOctet(b0, b1, b2);
    ThirdOctet(b1, b2);
  }

  /** A group of two characters and "==" decodes to one octet. */
  lemma DecodeOnePadded(c0: char, c1: char)
    requires IsAlphabetChar(c0) && IsAlphabetChar(c1)
    ensures Decode([c0, c1, '=', '=']) == Some([IndexOf(c0) * 4 + IndexOf(c1) / 16])
  {
  }

  /** A group of three characters and "=" decodes to two octets. */
  lemma DecodeTwoPadded(c0: char, c1: char, c2: char)
    requires IsAlphabetChar(c0) && IsAlphabetChar(c1) && IsAlphabetChar(c2)
    ensures Decode([c0, c1, c2, '=']) ==
      Some([IndexOf(c0) * 4 + IndexOf(c1) / 16, (IndexOf(c1) % 16) * 16 + IndexOf(c2) / 4])
  {
  }

  lemma DecodeSingle(b: seq<byte>)
    requires |b| == 1
    ensures Decode(Encode(b)) == Some(b)
  {
    var b0 := b[0];
    var i0, i1 := b0 / 4, (b0 % 4) * 16;
    assert Encode(b) == [CharOf(i0), CharOf(i1), '=', '='];
    DecodeOnePadded(CharOf(i0), CharOf(i1));
    assert i0 * 4 + i1 / 16 == b0 by { FirstOctet(b0, 0); }
    assert b == [b0];
  }

  /** The octets DecodeTwoPadded computes from the characters of a final pair. */
  lemma PairOctets(b0: byte, b1: byte)
    ensures (b0 / 4) * 4 + ((b0 % 4) * 16 + b1 / 16) / 16 == b0
    ensures (((b0 % 4) * 16 + b1 / 16) % 16) * 16 + ((b1 % 16) * 4) / 4 == b1
  {
    FirstOctet(b0, b1);
    assert ((b0 % 4) * 16 + b1 / 16) % 16 == b1 / 16;
    assert ((b1 % 16) * 4) / 4 == b1 % 16;
  }

  /** The encoding of a final pair of octets decodes to that pair. */
  lemma DecodeFinalPair(b0: byte, b1: byte)
    ensures Decode([CharOf(b0 / 4), CharOf((b0 % 4) * 16 + b1 / 16), CharOf((b1 % 16) * 4), '=']) == Some([b0, b1])
  {
    DecodeTwoPadded(CharOf(b0 / 4), CharOf((b0 % 4) * 16 + b1 / 16), CharOf((b1 % 16) * 4));
    PairOctets(b0, b1);
  }

  lemma DecodePair(b: seq<byte>)
    requires |b| == 2
    ensures Decode(Encode(b)) == Some(b)
  {
    assert Encode(b) == [CharOf(b[0] / 4), CharOf((b[0] % 4) * 16 + b[1] / 16), CharOf((b[1] % 16) * 4), '='];
    DecodeFinalPair(b[0], b[1]);
    assert b == [b[0], b[1]];
  }

  /** Decoding undoes encoding: every octet string comes back unchanged. */
  lemma {:induction false} DecodeEncode(b: seq<byte>)
    ensures Decode(Encode(b)) == Some(b)
    decreases |b|
  {
    if |b| == 1 {
      DecodeSingle(b);
    } else if |b| == 2 {
      DecodePair(b);
    } else if |b| >= 3 {
      var t := Encode(b[3..]);
      assert Encode(b) == EncodeTriple(b[0], b[1], b[2]) + t;
      DecodeEncode(b[3..]);
      DecodeTriple(b[0], b[1], b[2], t);
      assert [b[0], b[1], b[2]] + b[3..] == b;
    }
  }

  /** Distinct octet strings have distinct encodings. */
  lemma EncodeInjective(b: seq<byte>, c: seq<byte>)
    requires Encode(b) == Encode(c)
    ensures b == c
  {
    DecodeEncode(b);
    DecodeEncode(c);
  }
}
