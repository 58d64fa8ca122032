/**
  Base64 with the alphabet of section 4 of RFC 4648 and `=` padding, as produced by
  Node's `buffer.toString('base64')`. `Decode` is the strict (canonical) inverse used
  as the partner of `Encode`: it accepts padding only in the final quantum and
  rejects non-zero pad bits, so that the two round trips hold in both directions.
*/
module Base64 {
  import opened Outcomes

  type Byte = x: int | 0 <= x < 256
  type Sextet = x: int | 0 <= x < 64

  const Pad := '='

  /** The symbol of Table 1 of RFC 4648 for a 6-bit value. */
  function Sym(i: Sextet): (c: char)
    ensures c != Pad && c != ','
  {
    if i < 26 then ('A' as int + i) as char
    else if i < 52 then ('a' as int + (i - 26)) as char
    else if i < 62 then ('0' as int + (i - 52)) as char
    else if i == 62 then '+'
    else '/'
  }

  /** The 6-bit value of an alphabet symbol; None for anything else, padding included. */
  function Index(c: char): (r: Option<Sextet>)
    ensures r.Some? ==> Sym(r.value) == c
    ensures c == Pad ==> r == None
  {
    if 'A' <= c <= 'Z' then Some(c as int - 'A' as int)
    else if 'a' <= c <= 'z' then Some(c as int - 'a' as int + 26)
    else if '0' <= c <= '9' then Some(c as int - '0' as int + 52)
    else if c == '+' then Some(62)
    else if c == '/' then Some(63)
    else None
  }

  lemma IndexOfSym(i: Sextet)
    ensures Index(Sym(i)) == Some(i)
  {
  }

  /** Three bytes become four symbols, most significant bits first. */
  function Quantum3(b0: Byte, b1: Byte, b2: Byte): string
  {
    [Sym(b0 / 4), Sym((b0 % 4) * 16 + b1 / 16), Sym((b1 % 16) * 4 + b2 / 64), Sym(b2 % 64)]
  }

  /** A final group of two bytes: three symbols and one pad. */
  function Quantum2(b0: Byte, b1: Byte): string
  {
    [Sym(b0 / 4), Sym((b0 % 4) * 16 + b1 / 16), Sym((b1 % 16) * 4), Pad]
  }

  /** A final group of one byte: two symbols and two pads. */
  function Quantum1(b0: Byte): string
  {
    [Sym(b0 / 4), Sym((b0 % 4) * 16), Pad, Pad]
  }

  function Encode(bs: seq<Byte>): (s: string)
    ensures |s| == 4 * ((|bs| + 2) / 3)
    ensures ',' !in s
    decreases |bs|
  {
    if |bs| >= 3 then Quantum3(bs[0], bs[1], bs[2]) + Encode(bs[3..])
    else if |bs| == 2 then Quantum2(bs[0], bs[1])
    else if |bs| == 1 then Quantum1(bs[0])
    else []
  }

  /** The test vectors of section 10 of RFC 4648 pin the alphabet, the bit order and the padding. */
  lemma EncodeTestVectors()
    ensures Encode([]) == ""
    ensures Encode([0x66]) == "Zg=="
    ensures Encode([0x66, 0x6F]) == "Zm8="
    ensures Encode([0x66, 0x6F, 0x6F]) == "Zm9v"
    ensures Encode([0x66, 0x6F, 0x6F, 0x62]) == "Zm9vYg=="
    ensures Encode([0x66, 0x6F, 0x6F, 0x62, 0x61]) == "Zm9vYmE="
    ensures Encode([0x66, 0x6F, 0x6F, 0x62, 0x61, 0x72]) == "Zm9vYmFy"
  {
  }

  /** The three bytes carried by four 6-bit values. */
  function Byte0(c0: Sextet, c1: Sextet): Byte { c0 * 4 + c1 / 16 }
  function Byte1(c1: Sextet, c2: Sextet): Byte { (c1 % 16) * 16 + c2 / 4 }
  function Byte2(c2: Sextet, c3: Sextet): Byte { (c2 % 4) * 64 + c3 }

  /** Decodes one quantum of four characters; padding is accepted only when `last` holds. */
  function DecodeQuantum(q: string, last: bool): Option<seq<Byte>>
    requires |q| == 4
  {
    match (Index(q[0]), Index(q[1]), Index(q[2]), Index(q[3]))
    case (Some(c0), Some(c1), Some(c2), Some(c3)) =>
      Some([Byte0(c0, c1), Byte1(c1, c2), Byte2(c2, c3)])
    case (Some(c0), Some(c1), Some(c2), None) =>
      if last && q[3] == Pad && c2 % 4 == 0 then Some([Byte0(c0, c1), Byte1(c1, c2)])
      else None
    case (Some(c0), Some(c1), None, None) =>
      if last && q[2] == Pad && q[3] == Pad && c1 % 16 == 0 then Some([Byte0(c0, c1)])
      else None
    case _ => None
  }

  function Decode(s: string): Option<seq<Byte>>
    decreases |s|
  {
    if |s| == 0 then Some([])
    else if |s| < 4 then None
    else
      match DecodeQuantum(s[..4], |s| == 4)
      case None => None
      case Some(head) =>
        match Decode(s[4..])
        case None => None
        case Some(tail) => Some(head + tail)
  }

  lemma DecodeQuantum3(b0: Byte, b1: Byte, b2: Byte, last: bool)
    ensures DecodeQuantum(Quantum3(b0, b1, b2), last) == Some([b0, b1, b2])
  {
    var c0, c1, c2, c3 := b0 / 4, (b0 % 4) * 16 + b1 / 16, (b1 % 16) * 4 + b2 / 64, b2 % 64;
    IndexOfSym(c0);
    IndexOfSym(c1);
    IndexOfSym(c2);
    IndexOfSym(c3);
    assert Byte0(c0, c1) == b0 && Byte1(c1, c2) == b1 && Byte2(c2, c3) == b2;
  }

  lemma DecodeQuantum2(b0: Byte, b1: Byte)
    ensures DecodeQuantum(Quantum2(b0, b1), true) == Some([b0, b1])
  {
    var c0, c1, c2 := b0 / 4, (b0 % 4) * 16 + b1 / 16, (b1 % 16) * 4;
    var q := Quantum2(b0, b1);
    IndexOfSym(c0);
    IndexOfSym(c1);
    IndexOfSym(c2);
    assert Index(q[0]) == Some(c0) && Index(q[1]) == Some(c1) && Index(q[2]) == Some(c2);
    assert q[3] == Pad && Index(q[3]) == None;
    assert c2 % 4 == 0;
    assert Byte0(c0, c1) == b0 && Byte1(c1, c2) == b1;
  }

  lemma DecodeQuantum1(b0: Byte)
    ensures DecodeQuantum(Quantum1(b0), true) == Some([b0])
  {
    var c0, c1 := b0 / 4, (b0 % 4) * 16;
    var q := Quantum1(b0);
    IndexOfSym(c0);
    IndexOfSym(c1);
    assert Index(q[0]) == Some(c0) && Index(q[1]) == Some(c1);
    assert q[2] == Pad && q[3] == Pad && Index(q[2]) == None && Index(q[3]) == None;
    assert c1 % 16 == 0 && Byte0(c0, c1) == b0;
  }

  /** Decoding a leading quantum and then the rest. */
  lemma DecodeCons(q: string, rest: string, head: seq<Byte>, tail: seq<Byte>)
    requires |q| == 4
    requires DecodeQuantum(q, rest == []) == Some(head) && Decode(rest) == Some(tail)
    ensures Decode(q + rest) == Some(head + tail)
  {
    var s := q + rest;
    assert s[..4] == q && s[4..] == rest;
  }

  /** Decoding undoes encoding: every byte buffer survives the trip through base64. */
  lemma {:induction false} DecodeEncode(bs: seq<Byte>)
    ensures Decode(Encode(bs)) == Some(bs)
    decreases |bs|
  {
    if |bs| >= 3 {
      var rest := Encode(bs[3..]);
      DecodeQuantum3(bs[0], bs[1], bs[2], rest == []);
      DecodeEncode(bs[3..]);
      DecodeCons(Quantum3(bs[0], bs[1], bs[2]), rest, [bs[0], bs[1], bs[2]], bs[3..]);
      assert bs == [bs[0], bs[1], bs[2]] + bs[3..];
    } else if |bs| == 2 {
      DecodeQuantum2(bs[0], bs[1]);
      DecodeCons(Quantum2(bs[0], bs[1]), [], [bs[0], bs[1]], []);
      assert Quantum2(bs[0], bs[1]) + [] == Encode(bs);
      assert bs == [bs[0], bs[1]] + [];
    } else if |bs| == 1 {
      DecodeQuantum1(bs[0]);
      DecodeCons(Quantum1(bs[0]), [], [bs[0]], []);
      assert Quantum1(bs[0]) + [] == Encode(bs);
      assert bs == [bs[0]] + [];
    }
  }

  /** A quantum that decodes is the canonical encoding of what it decodes to. */
  lemma EncodeDecodeQuantum(q: string, last: bool)
    requires |q| == 4 && DecodeQuantum(q, last).Some?
    ensures var bs := DecodeQuantum(q, last).value;
      (|bs| == 3 && Quantum3(bs[0], bs[1], bs[2]) == q) ||
      (last && |bs| == 2 && Quantum2(bs[0], bs[1]) == q) ||
      (last && |bs| == 1 && Quantum1(bs[0]) == q)
  {
    var c0, c1 := Index(q[0]).value, Index(q[1]).value;
    if Index(q[2]).Some? && Index(q[3]).Some? {
      var c2, c3 := Index(q[2]).value, Index(q[3]).value;
      var b0, b1, b2 := Byte0(c0, c1), Byte1(c1, c2), Byte2(c2, c3);
      assert b0 / 4 == c0 && (b0 % 4) * 16 + b1 / 16 == c1;
      assert (b1 % 16) * 4 + b2 / 64 == c2 && b2 % 64 == c3;
      assert Quantum3(b0, b1, b2) == q;
    } else if Index(q[2]).Some? {
      var c2 := Index(q[2]).value;
      var b0, b1 := Byte0(c0, c1), Byte1(c1, c2);
      assert b0 / 4 == c0 && (b0 % 4) * 16 + b1 / 16 == c1;
      assert (b1 % 16) * 4 == c2;
      assert Quantum2(b0, b1) == q;
    } else {
      var b0 := Byte0(c0, c1);
      assert b0 / 4 == c0 && (b0 % 4) * 16 == c1;
      assert Quantum1(b0) == q;
    }
  }

  /** Encoding undoes decoding: a string the strict decoder accepts is exactly the encoding of its bytes. */
  lemma {:induction false} EncodeDecode(s: string)
    requires Decode(s).Some?
    ensures Encode(Decode(s).value) == s
    decreases |s|
  {
    if |s| > 0 {
      var last := |s| == 4;
      var head := DecodeQuantum(s[..4], last).value;
      var tail := Decode(s[4..]).value;
      EncodeDecodeQuantum(s[..4], last);
      EncodeDecode(s[4..]);
      var bs := head + tail;
      assert Decode(s).value == bs;
      if |head| == 3 {
        assert bs[..3] == head && bs[3..] == tail;
        assert Encode(bs) == s[..4] + s[4..];
      } else {
        assert s[4..] == [] && tail == [] && bs == head;
      }
      assert s == s[..4] + s[4..];
    }
  }
}
