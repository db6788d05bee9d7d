/** Base64 as in section 4 of RFC 4648, the form in which bytes travel as text. */
module Base64 {
  import opened Wrappers

  type Byte = n: nat | n < 256
  type Sextet = n: nat | n < 64

  const PAD: char := '='

  // Table 1 of the RFC.
  function CharOf(n: Sextet): char {
    if n < 26 then 'A' + n as char
    else if n < 52 then 'a' + (n - 26) as char
    else if n < 62 then '0' + (n - 52) as char
    else if n == 62 then '+'
    else '/'
  }

  function SextetOf(c: char): Option<Sextet> {
    if 'A' <= c <= 'Z' then Some((c - 'A') as nat)
    else if 'a' <= c <= 'z' then Some((c - 'a') as nat + 26)
    else if '0' <= c <= '9' then Some((c - '0') as nat + 52)
    else if c == '+' then Some(62)
    else if c == '/' then Some(63)
    else None
  }

  lemma SextetOfChar(n: Sextet)
    ensures SextetOf(CharOf(n)) == Some(n) && CharOf(n) != PAD
  {
  }

  // Three bytes are four characters; one or two left over are padded.
  function Encode(bytes: seq<Byte>): (text: string)
    ensures |text| % 4 == 0
  {
    if bytes == [] then []
    else if |bytes| == 1 then [CharOf(bytes[0] / 4), CharOf(bytes[0] % 4 * 16), PAD, PAD]
    else if |bytes| == 2 then
      [CharOf(bytes[0] / 4), CharOf(bytes[0] % 4 * 16 + bytes[1] / 16), CharOf(bytes[1] % 16 * 4), PAD]
    else
      [CharOf(bytes[0] / 4), CharOf(bytes[0] % 4 * 16 + bytes[1] / 16), CharOf(bytes[1] % 16 * 4 + bytes[2] / 64),
        CharOf(bytes[2] % 64)]
      + Encode(bytes[3..])
  }

  function First(a: Sextet, b: Sextet): Byte { a * 4 + b / 16 }
  function Second(b: Sextet, c: Sextet): Byte { b % 16 * 16 + c / 4 }
  function Third(c: Sextet, d: Sextet): Byte { c % 4 * 64 + d }

  // The canonical decoder: None for text that is not an encoding.
  function Decode(text: string): Option<seq<Byte>> {
    if text == [] then Some([])
    else if |text| < 4 then None
    else
      var a, b, c, d := SextetOf(text[0]), SextetOf(text[1]), SextetOf(text[2]), SextetOf(text[3]);
      if a.None? || b.None? then None
      else if |text| == 4 && text[2] == PAD && text[3] == PAD then
        if b.value % 16 == 0 then Some([First(a.value, b.value)]) else None
      else if c.None? then None
      else if |text| == 4 && text[3] == PAD then
        if c.value % 4 == 0 then Some([First(a.value, b.value), Second(b.value, c.value)]) else None
      else if d.None? then None
      else
        var rest := Decode(text[4..]);
        if rest.None? then None
        else Some([First(a.value, b.value), Second(b.value, c.value), Third(c.value, d.value)] + rest.value)
  }

  lemma SplitsBack(x: Byte, y: Byte, z: Byte)
    ensures First(x / 4, x % 4 * 16 + y / 16) == x
    ensures First(x / 4, x % 4 * 16) == x
    ensures Second(x % 4 * 16 + y / 16, y % 16 * 4 + z / 64) == y
    ensures Second(x % 4 * 16 + y / 16, y % 16 * 4) == y
    ensures Third(y % 16 * 4 + z / 64, z % 64) == z
  {
  }

  lemma DecodeQuad(a: Sextet, b: Sextet, c: Sextet, d: Sextet, rest: string)
    ensures Decode([CharOf(a), CharOf(b), CharOf(c), CharOf(d)] + rest) ==
      if Decode(rest).None? then None else Some([First(a, b), Second(b, c), Third(c, d)] + Decode(rest).value)
  {
    hide CharOf, SextetOf, First, Second, Third;
    SextetOfChar(a);
    SextetOfChar(b);
    SextetOfChar(c);
    SextetOfChar(d);
    assert ([CharOf(a), CharOf(b), CharOf(c), CharOf(d)] + rest)[4..] == rest;
  }

  lemma DecodePadded(a: Sextet, b: Sextet, c: Sextet)
    ensures b % 16 == 0 ==> Decode([CharOf(a), CharOf(b), PAD, PAD]) == Some([First(a, b)])
    ensures c % 4 == 0 ==> Decode([CharOf(a), CharOf(b), CharOf(c), PAD]) == Some([First(a, b), Second(b, c)])
  {
    hide CharOf, SextetOf, First, Second, Third;
    SextetOfChar(a);
    SextetOfChar(b);
    SextetOfChar(c);
  }

  lemma EncodeThree(x: Byte, y: Byte, z: Byte, rest: seq<Byte>)
    ensures Encode([x, y, z] + rest) ==
      [CharOf(x / 4), CharOf(x % 4 * 16 + y / 16), CharOf(y % 16 * 4 + z / 64), CharOf(z % 64)] + Encode(rest)
  {
    hide CharOf;
    assert ([x, y, z] + rest)[3..] == rest;
  }

  lemma ThreeBack(x: Byte, y: Byte, z: Byte, rest: seq<Byte>)
    ensures Decode(Encode(rest)) == Some(rest) ==> Decode(Encode([x, y, z] + rest)) == Some([x, y, z] + rest)
  {
    hide CharOf, First, Second, Third, Decode, Encode;
    EncodeThree(x, y, z, rest);
    DecodeQuad(x / 4, x % 4 * 16 + y / 16, y % 16 * 4 + z / 64, z % 64, Encode(rest));
    SplitsBack(x, y, z);
  }

  lemma NothingBack()
    ensures Decode(Encode([])) == Some([])
  {
  }

  lemma OneBack(x: Byte)
    ensures Decode(Encode([x])) == Some([x])
  {
    hide CharOf, First, Second, Third, Decode;
    DecodePadded(x / 4, x % 4 * 16, 0);
    SplitsBack(x, 0, 0);
  }

  lemma TwoBack(x: Byte, y: Byte)
    ensures Decode(Encode([x, y])) == Some([x, y])
  {
    hide CharOf, First, Second, Third, Decode;
    DecodePadded(x / 4, x % 4 * 16 + y / 16, y % 16 * 4);
    SplitsBack(x, y, 0);
  }

  /** Decoding an encoding gives the bytes back. */
  lemma {:induction false} RoundTrip(bytes: seq<Byte>)
    ensures Decode(Encode(bytes)) == Some(bytes)
  {
    hide Decode, Encode;
    if bytes == [] {
      NothingBack();
    } else {
      if |bytes| == 1 {
        OneBack(bytes[0]);
        assert bytes == [bytes[0]];
      } else if |bytes| == 2 {
        TwoBack(bytes[0], bytes[1]);
        assert bytes == [bytes[0], bytes[1]];
      } else {
        RoundTrip(bytes[3..]);
        ThreeBack(bytes[0], bytes[1], bytes[2], bytes[3..]);
        assert bytes == [bytes[0], bytes[1], bytes[2]] + bytes[3..];
      }
    }
  }

  /** Three of the test vectors in section 10 of RFC 4648, and all kinds of characters. */
  lemma TestVectors()
    ensures Encode([102]) == "Zg==" && Encode([102, 111]) == "Zm8=" && Encode([102, 111, 111]) == "Zm9v"
    ensures Encode([211, 93, 183]) == "0123" && Encode([251, 239, 255]) == "++//"
  {
    assert [102, 111, 111][3..] == [] && [211, 93, 183][3..] == [] && [251, 239, 255][3..] == [];
  }
}
