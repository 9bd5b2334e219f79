/** Base 64 encoding with the standard alphabet and `=` padding, as in
    section 4 of RFC 4648 (what Python's `base64.b64encode` produces), and
    the strict decoder that inverts it. */
module Base64 {
  import opened Wrappers
  import opened Bytes

  /** A six-bit group: the index of one alphabet character. */
  type sextet = i: int | 0 <= i < 64

  /** Table 1 of RFC 4648: A-Z, a-z, 0-9, '+', '/'. */
  function CharOf(i: sextet): char {
    if i < 26 then ('A' as int + i) as char
    else if i < 52 then ('a' as int + (i - 26)) as char
    else if i < 62 then ('0' as int + (i - 52)) as char
    else if i == 62 then '+'
    else '/'
  }

  /** The inverse of `CharOf`; `None` for a character outside the alphabet
      (including the pad character). */
  function IndexOf(c: char): (r: Option<sextet>)
    ensures r.Some? ==> CharOf(r.value) == c
    ensures c == '=' ==> r.None?
  {
    if 'A' <= c <= 'Z' then Some(c as int - 'A' as int)
    else if 'a' <= c <= 'z' then Some(c as int - 'a' as int + 26)
    else if '0' <= c <= '9' then Some(c as int - '0' as int + 52)
    else if c == '+' then Some(62)
    else if c == '/' then Some(63)
    else None
  }

  lemma IndexOfCharOf(i: sextet)
    ensures IndexOf(CharOf(i)) == Some(i)
    ensures CharOf(i) != '='
  {
  }

  predicate InAlphabet(c: char) {
    IndexOf(c).Some?
  }

  /** Three octets become four characters. */
  function EncodeGroup(b0: byte, b1: byte, b2: byte): (s: string)
    ensures |s| == 4
    ensures forall i :: 0 <= i < 4 ==> InAlphabet(s[i])
  {
    var c0: sextet, c1: sextet, c2: sextet, c3: sextet := b0 / 4, (b0 % 4) * 16 + b1 / 16, (b1 % 16) * 4 + b2 / 64, b2 % 64;
    IndexOfCharOf(c0); IndexOfCharOf(c1); IndexOfCharOf(c2); IndexOfCharOf(c3);
    [CharOf(c0), CharOf(c1), CharOf(c2), CharOf(c3)]
  }

  /** One final octet becomes two characters and two pad characters. */
  function EncodeOne(b0: byte): (s: string)
    ensures |s| == 4 && s[2] == '=' && s[3] == '='
    ensures InAlphabet(s[0]) && InAlphabet(s[1])
  {
    var c0: sextet, c1: sextet := b0 / 4, (b0 % 4) * 16;
    IndexOfCharOf(c0); IndexOfCharOf(c1);
    [CharOf(c0), CharOf(c1), '=', '=']
  }

  /** Two final octets become three characters and one pad character. */
  function EncodeTwo(b0: byte, b1: byte): (s: string)
    ensures |s| == 4 && s[3] == '='
    ensures forall i :: 0 <= i < 3 ==> InAlphabet(s[i])
  {
    var c0: sextet, c1: sextet, c2: sextet := b0 / 4, (b0 % 4) * 16 + b1 / 16, (b1 % 16) * 4;
    IndexOfCharOf(c0); IndexOfCharOf(c1); IndexOfCharOf(c2);
    [CharOf(c0), CharOf(c1), CharOf(c2), '=']
  }

  function Encode(bs: seq<byte>): (s: string)
    ensures |s| == 4 * ((|bs| + 2) / 3)
    ensures forall i :: 0 <= i < |s| ==> InAlphabet(s[i]) || s[i] == '='
    decreases |bs|
  {
    if |bs| == 0 then ""
    else if |bs| == 1 then EncodeOne(bs[0])
    else if |bs| == 2 then EncodeTwo(bs[0], bs[1])
    else
      var head := EncodeGroup(bs[0], bs[1], bs[2]);
      var tail := Encode(bs[3..]);
      assert (|bs| + 2) / 3 == (|bs| - 3 + 2) / 3 + 1;
      head + tail
  }

  /** Four alphabet characters become three octets. */
  function DecodeGroup(s: string): (r: Option<seq<byte>>)
    requires |s| == 4
    ensures r.Some? ==> |r.value| == 3
  {
    match (IndexOf(s[0]), IndexOf(s[1]), IndexOf(s[2]), IndexOf(s[3]))
    case (Some(i0), Some(i1), Some(i2), Some(i3)) =>
      var a: int, b: int, c: int, d: int := i0, i1, i2, i3;
      Some([a * 4 + b / 16, (b % 16) * 16 + c / 4, (c % 4) * 64 + d])
    case _ => None
  }

  /** The last quantum, which may carry one or two pad characters; the bits
      that padding discards must be zero (section 3.5 of RFC 4648). */
  function DecodeFinal(s: string): (r: Option<seq<byte>>)
    requires |s| == 4
    ensures r.Some? ==> 1 <= |r.value| <= 3
  {
    if s[2] == '=' && s[3] == '=' then
      match (IndexOf(s[0]), IndexOf(s[1]))
      case (Some(i0), Some(i1)) =>
        var a: int, b: int := i0, i1;
        if b % 16 == 0 then Some([a * 4 + b / 16]) else None
      case _ => None
    else if s[3] == '=' then
      match (IndexOf(s[0]), IndexOf(s[1]), IndexOf(s[2]))
      case (Some(i0), Some(i1), Some(i2)) =>
        var a: int, b: int, c: int := i0, i1, i2;
        if c % 4 == 0 then Some([a * 4 + b / 16, (b % 16) * 16 + c / 4]) else None
      case _ => None
    else
      DecodeGroup(s)
  }

  function Decode(s: string): Option<seq<byte>>
    decreases |s|
  {
    if |s| == 0 then Some([])
    else if |s| < 4 then None
    else if |s| == 4 then DecodeFinal(s)
    else
      match DecodeGroup(s[..4])
      case None => None
      case Some(head) =>
        match Decode(s[4..])
        case None => None
        case Some(tail) => Some(head + tail)
  }

  lemma DecodeGroupEncodeGroup(b0: byte, b1: byte, b2: byte)
    ensures DecodeGroup(EncodeGroup(b0, b1, b2)) == Some([b0, b1, b2])
  {
    var c0: int, c1: int, c2: int, c3: int := b0 / 4, (b0 % 4) * 16 + b1 / 16, (b1 % 16) * 4 + b2 / 64, b2 % 64;
    IndexOfCharOf(c0); IndexOfCharOf(c1); IndexOfCharOf(c2); IndexOfCharOf(c3);
    assert c1 / 16 == b0 % 4 && c1 % 16 == b1 / 16;
    assert c2 / 4 == b1 % 16 && c2 % 4 == b2 / 64;
    assert c0 * 4 + c1 / 16 == b0;
    assert (c1 % 16) * 16 + c2 / 4 == b1;
    assert (c2 % 4) * 64 + c3 == b2;
  }

  /** A single trailing octet: two characters and two pad characters. */
  lemma DecodeEncodeOne(b0: byte)
    ensures Decode(Encode([b0])) == Some([b0])
  {
    var c0: int, c1: int := b0 / 4, (b0 % 4) * 16;
    IndexOfCharOf(c0); IndexOfCharOf(c1);
    assert c1 % 16 == 0 && c1 / 16 == b0 % 4;
    var e := EncodeOne(b0);
    assert IndexOf(e[0]) == Some(c0) && IndexOf(e[1]) == Some(c1);
    assert DecodeFinal(e) == Some([b0]);
  }

  /** Two trailing octets: three characters and one pad character. */
  lemma DecodeEncodeTwo(b0: byte, b1: byte)
    ensures Decode(Encode([b0, b1])) == Some([b0, b1])
  {
    var c0: int, c1: int, c2: int := b0 / 4, (b0 % 4) * 16 + b1 / 16, (b1 % 16) * 4;
    IndexOfCharOf(c0); IndexOfCharOf(c1); IndexOfCharOf(c2);
    assert c2 % 4 == 0 && c2 / 4 == b1 % 16;
    assert c1 / 16 == b0 % 4 && c1 % 16 == b1 / 16;
    var e := EncodeTwo(b0, b1);
    assert IndexOf(e[0]) == Some(c0) && IndexOf(e[1]) == Some(c1) && IndexOf(e[2]) == Some(c2);
    assert e[2] != '=';
    assert DecodeFinal(e) == Some([b0, b1]);
  }

  /** Decoding an encoding gives back the original octets. */
  lemma {:induction false} DecodeEncode(bs: seq<byte>)
    ensures Decode(Encode(bs)) == Some(bs)
    decreases |bs|
  {
    if |bs| == 1 {
      DecodeEncodeOne(bs[0]);
      assert [bs[0]] == bs;
    } else if |bs| == 2 {
      DecodeEncodeTwo(bs[0], bs[1]);
      assert [bs[0], bs[1]] == bs;
    } else if |bs| >= 3 {
      var head := EncodeGroup(bs[0], bs[1], bs[2]);
      var tail := Encode(bs[3..]);
      DecodeGroupEncodeGroup(bs[0], bs[1], bs[2]);
      assert Encode(bs) == head + tail;
      assert bs == [bs[0], bs[1], bs[2]] + bs[3..];
      if |bs| == 3 {
        assert tail == "";
        assert Encode(bs) == head;
        assert InAlphabet(head[2]) && InAlphabet(head[3]);
        assert head[2] != '=' && head[3] != '=';
        assert DecodeFinal(head) == DecodeGroup(head);
        assert Decode(head) == DecodeFinal(head);
        assert bs == [bs[0], bs[1], bs[2]];
      } else {
        assert (head + tail)[..4] == head;
        assert (head + tail)[4..] == tail;
        DecodeEncode(bs[3..]);
      }
    }
  }
}
