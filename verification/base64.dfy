/**
 Standard base64 (section 4 of RFC 4648, with `=` padding), the encoding
 behind Python's `base64.b64encode` used for graphs, chains and key payloads.
 */
module Base64 {
  import opened Wrappers

  type byte = x: int | 0 <= x < 256

  function Alphabet(i: int): (c: char)
    requires 0 <= i < 64
  {
    if i < 26 then 'A' + (i as char)
    else if i < 52 then 'a' + ((i - 26) as char)
    else if i < 62 then '0' + ((i - 52) as char)
    else if i == 62 then '+' else '/'
  }

  function SextetOf(c: char): Option<int> {
    if 'A' <= c <= 'Z' then Some((c - 'A') as int)
    else if 'a' <= c <= 'z' then Some((c - 'a') as int + 26)
    else if '0' <= c <= '9' then Some((c - '0') as int + 52)
    else if c == '+' then Some(62)
    else if c == '/' then Some(63)
    else None
  }

  lemma SextetOfAlphabet(i: int)
    requires 0 <= i < 64
    ensures SextetOf(Alphabet(i)) == Some(i)
  {
  }

  /** Three bytes become four characters. */
  function EncodeBlock(b0: byte, b1: byte, b2: byte): string {
    [Alphabet(b0 / 4), Alphabet((b0 % 4) * 16 + b1 / 16), Alphabet((b1 % 16) * 4 + b2 / 64), Alphabet(b2 % 64)]
  }

  function Encode(bs: seq<byte>): (s: string)
    ensures |s| % 4 == 0
    ensures |s| == 4 * ((|bs| + 2) / 3)
  {
    if |bs| == 0 then []
    else if |bs| == 1 then [Alphabet(bs[0] / 4), Alphabet((bs[0] % 4) * 16), '=', '=']
    else if |bs| == 2 then
      [Alphabet(bs[0] / 4), Alphabet((bs[0] % 4) * 16 + bs[1] / 16), Alphabet((bs[1] % 16) * 4), '=']
    else
      assert (|bs| + 2) / 3 == (|bs[3..]| + 2) / 3 + 1;
      EncodeBlock(bs[0], bs[1], bs[2]) + Encode(bs[3..])
  }

  /** The inverse of `Encode` on canonical input; `None` on anything else. */
  function Decode(s: string): Option<seq<byte>>
    decreases |s|
  {
    if |s| == 0 then Some([])
    else if |s| < 4 then None
    else
      match (SextetOf(s[0]), SextetOf(s[1]))
      case (Some(a), Some(b)) =>
        var b0 := a * 4 + b / 16;
        if |s| == 4 && s[2] == '=' && s[3] == '=' then
          if b % 16 == 0 then Some([b0]) else None
        else
          (match SextetOf(s[2])
           case None => None
           case Some(c) =>
             var b1 := (b % 16) * 16 + c / 4;
             if |s| == 4 && s[3] == '=' then
               if c % 4 == 0 then Some([b0, b1]) else None
             else
               (match SextetOf(s[3])
                case None => None
                case Some(d) =>
                  var b2 := (c % 4) * 64 + d;
                  match Decode(s[4..])
                  case None => None
                  case Some(rest) => Some([b0, b1, b2] + rest)))
      case _ => None
  }

  lemma FirstByte(b0: byte, b1: byte)
    ensures ((b0 % 4) * 16 + b1 / 16) / 16 == b0 % 4
    ensures (b0 / 4) * 4 + ((b0 % 4) * 16 + b1 / 16) / 16 == b0
    ensures ((b0 % 4) * 16 + b1 / 16) % 16 == b1 / 16
  {
  }

  lemma SecondByte(b1: byte, b2: byte)
    ensures ((b1 % 16) * 4 + b2 / 64) / 4 == b1 % 16
    ensures ((b1 % 16) * 4 + b2 / 64) % 4 == b2 / 64
    ensures (b1 / 16) * 16 + ((b1 % 16) * 4 + b2 / 64) / 4 == b1
  {
  }

  lemma ThirdByte(b2: byte)
    ensures (b2 / 64) * 64 + b2 % 64 == b2
  {
  }

  lemma DecodeOne(b0: byte)
    ensures Decode(Encode([b0])) == Some([b0])
  {
    var s := Encode([b0]);
    SextetOfAlphabet(b0 / 4);
    SextetOfAlphabet((b0 % 4) * 16);
    FirstByte(b0, 0);
    assert s[2] == '=' && s[3] == '=';
  }

  lemma DecodeTwo(b0: byte, b1: byte)
    ensures Decode(Encode([b0, b1])) == Some([b0, b1])
  {
    var s := Encode([b0, b1]);
    SextetOfAlphabet(b0 / 4);
    SextetOfAlphabet((b0 % 4) * 16 + b1 / 16);
    SextetOfAlphabet((b1 % 16) * 4);
    FirstByte(b0, b1);
    SecondByte(b1, 0);
    assert s[3] == '=' && s[2] != '=';
  }

  lemma DecodeBlock(b0: byte, b1: byte, b2: byte, rest: string, tail: seq<byte>)
    requires Decode(rest) == Some(tail)
    ensures Decode(EncodeBlock(b0, b1, b2) + rest) == Some([b0, b1, b2] + tail)
  {
    var s := EncodeBlock(b0, b1, b2) + rest;
    SextetOfAlphabet(b0 / 4);
    SextetOfAlphabet((b0 % 4) * 16 + b1 / 16);
    SextetOfAlphabet((b1 % 16) * 4 + b2 / 64);
    SextetOfAlphabet(b2 % 64);
    FirstByte(b0, b1);
    SecondByte(b1, b2);
    ThirdByte(b2);
    assert s[2] != '=' && s[3] != '=';
    assert s[4..] == rest;
  }

  /** Decoding an encoding gives the original bytes back. */
  lemma {:induction false} DecodeEncode(bs: seq<byte>)
    ensures Decode(Encode(bs)) == Some(bs)
    decreases |bs|, 1
  {
    if |bs| == 1 {
      DecodeOne(bs[0]);
      assert bs == [bs[0]];
    } else if |bs| == 2 {
      DecodeTwo(bs[0], bs[1]);
      assert bs == [bs[0], bs[1]];
    } else if |bs| >= 3 {
      DecodeEncodeBlocks(bs);
    }
  }

  /** The inductive step: a full block in front of an input that already round-trips. */
  lemma {:induction false} DecodeEncodeBlocks(bs: seq<byte>)
    requires |bs| >= 3
    ensures Decode(Encode(bs)) == Some(bs)
    decreases |bs|, 0
  {
    DecodeEncode(bs[3..]);
    assert Encode(bs) == EncodeBlock(bs[0], bs[1], bs[2]) + Encode(bs[3..]);
    DecodeBlock(bs[0], bs[1], bs[2], Encode(bs[3..]), bs[3..]);
    assert bs == [bs[0], bs[1], bs[2]] + bs[3..];
  }
}
