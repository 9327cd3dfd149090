/**
 * The base 64 encoding of section 4 of RFC 4648 with `=` padding, as Go's
 * `base64.StdEncoding` writes and reads it: encoding pads to whole four-character groups;
 * decoding skips CR and LF, does not check the unused bits of a padded group, and on corrupt
 * input stops, keeping the bytes of the groups decoded before it.
 */
module Base64 {
  import opened GoInts

  /** The 64 characters of the alphabet, by value. */
  function EncodeChar(d: nat): (c: char)
    requires d < 64
  {
    if d < 26 then ('A' as int + d) as char
    else if d < 52 then ('a' as int + d - 26) as char
    else if d < 62 then ('0' as int + d - 52) as char
    else if d == 62 then '+'
    else '/'
  }

  predicate IsAlphabetChar(c: char)
  {
    'A' <= c <= 'Z' || 'a' <= c <= 'z' || '0' <= c <= '9' || c == '+' || c == '/'
  }

  /** The value of an alphabet character. */
  function CharValue(c: char): (d: nat)
    requires IsAlphabetChar(c)
    ensures d < 64 && EncodeChar(d) == c
  {
    if 'A' <= c <= 'Z' then c as int - 'A' as int
    else if 'a' <= c <= 'z' then c as int - 'a' as int + 26
    else if '0' <= c <= '9' then c as int - '0' as int + 52
    else if c == '+' then 62
    else 63
  }

  lemma CharRoundTrip(d: nat)
    requires d < 64
    ensures IsAlphabetChar(EncodeChar(d)) && CharValue(EncodeChar(d)) == d
  {
  }

  /** The four characters of a full three-byte group: six bits each, most significant first. */
  function Quad(b0: byte, b1: byte, b2: byte): string
  {
    [EncodeChar(b0 / 4), EncodeChar((b0 % 4) * 16 + b1 / 16), EncodeChar((b1 % 16) * 4 + b2 / 64), EncodeChar(b2 % 64)]
  }

  /** `EncodeToString`: full groups, then a last group of one or two bytes padded with `=`. */
  function Encode(bytes: seq<byte>): (s: string)
    ensures |s| == 4 * ((|bytes| + 2) / 3)
    decreases |bytes|
  {
    if |bytes| == 0 then ""
    else if |bytes| == 1 then [EncodeChar(bytes[0] / 4), EncodeChar((bytes[0] % 4) * 16), '=', '=']
    else if |bytes| == 2 then
      [EncodeChar(bytes[0] / 4), EncodeChar((bytes[0] % 4) * 16 + bytes[1] / 16), EncodeChar((bytes[1] % 16) * 4), '=']
    else Quad(bytes[0], bytes[1], bytes[2]) + Encode(bytes[3..])
  }

  /** The three bytes of the 24-bit group that four six-bit values make. */
  function Byte0(d0: nat, d1: nat): (b: byte)
    requires d0 < 64 && d1 < 64
  {
    d0 * 4 + d1 / 16
  }

  function Byte1(d1: nat, d2: nat): (b: byte)
    requires d1 < 64 && d2 < 64
  {
    (d1 % 16) * 16 + d2 / 4
  }

  function Byte2(d2: nat, d3: nat): (b: byte)
    requires d2 < 64 && d3 < 64
  {
    (d2 % 4) * 64 + d3
  }

  /** CR and LF, which the decoder skips wherever they stand. */
  function StripNewlines(s: string): (r: string)
    ensures |r| <= |s|
    ensures forall i :: 0 <= i < |r| ==> r[i] != '\r' && r[i] != '\n'
  {
    if s == [] then []
    else if s[0] == '\r' || s[0] == '\n' then StripNewlines(s[1..])
    else [s[0]] + StripNewlines(s[1..])
  }

  /** What the first group of the text decodes to, and whether decoding goes on after it. */
  datatype Group = Group(bytes: seq<byte>, more: bool, ok: bool)

  /**
   * The first group of non-empty text without line breaks: a corrupt group gives no byte and
   * ends decoding with an error; a padded group gives its bytes and ends decoding, which
   * succeeds only when nothing follows it; a full group gives three bytes and decoding goes on.
   */
  function FirstGroup(s: string): (g: Group)
    requires s != []
    ensures g.more ==> |s| >= 4 && |g.bytes| == 3
  {
    if |s| < 4 || !IsAlphabetChar(s[0]) || !IsAlphabetChar(s[1]) then Group([], false, false)
    else
      var d0, d1 := CharValue(s[0]), CharValue(s[1]);
      if s[2] == '=' then
        if s[3] == '=' then Group([Byte0(d0, d1)], false, |s| == 4) else Group([], false, false)
      else if !IsAlphabetChar(s[2]) then Group([], false, false)
      else
        var d2 := CharValue(s[2]);
        if s[3] == '=' then Group([Byte0(d0, d1), Byte1(d1, d2)], false, |s| == 4)
        else if !IsAlphabetChar(s[3]) then Group([], false, false)
        else Group([Byte0(d0, d1), Byte1(d1, d2), Byte2(d2, CharValue(s[3]))], true, true)
  }

  /** Decoding of text without line breaks: the bytes decoded and whether the text was well formed. */
  function DecodeGroups(s: string): (r: (seq<byte>, bool))
    decreases |s|
  {
    if s == [] then ([], true)
    else
      var g := FirstGroup(s);
      if g.more then
        var rest := DecodeGroups(s[4..]);
        (g.bytes + rest.0, rest.1)
      else (g.bytes, g.ok)
  }

  /** `DecodeString`: the bytes decoded (all of them, or those before the corrupt group) and whether it succeeded. */
  function Decode(s: string): (r: (seq<byte>, bool))
  {
    DecodeGroups(StripNewlines(s))
  }

  lemma SplitByte(b: byte, k: nat)
    requires k == 4 || k == 16 || k == 64
    ensures b == (b / k) * k + b % k && b % k < k && b / k < 256 / k
  {
  }

  /** The six-bit values of a group give back its bytes. */
  lemma GroupRoundTrip(b0: byte, b1: byte, b2: byte)
    ensures Byte0(b0 / 4, (b0 % 4) * 16 + b1 / 16) == b0
    ensures Byte1((b0 % 4) * 16 + b1 / 16, (b1 % 16) * 4 + b2 / 64) == b1
    ensures Byte2((b1 % 16) * 4 + b2 / 64, b2 % 64) == b2
  {
    SplitByte(b0, 4);
    SplitByte(b1, 16);
    SplitByte(b2, 64);
    var d1 := (b0 % 4) * 16 + b1 / 16;
    assert d1 / 16 == b0 % 4 && d1 % 16 == b1 / 16;
    var d2 := (b1 % 16) * 4 + b2 / 64;
    assert d2 / 4 == b1 % 16 && d2 % 4 == b2 / 64;
  }

  lemma NoNewlines(s: string)
    requires forall i :: 0 <= i < |s| ==> IsAlphabetChar(s[i]) || s[i] == '='
    ensures StripNewlines(s) == s
  {
  }

  /** Encoded text uses only alphabet characters and `=`. */
  lemma {:induction false} EncodeCharacters(bytes: seq<byte>)
    ensures forall i :: 0 <= i < |Encode(bytes)| ==> IsAlphabetChar(Encode(bytes)[i]) || Encode(bytes)[i] == '='
    decreases |bytes|
  {
    if |bytes| >= 3 {
      EncodeCharacters(bytes[3..]);
      var b0, b1, b2 := bytes[0], bytes[1], bytes[2];
      CharRoundTrip(b0 / 4);
      CharRoundTrip((b0 % 4) * 16 + b1 / 16);
      CharRoundTrip((b1 % 16) * 4 + b2 / 64);
      CharRoundTrip(b2 % 64);
    } else if |bytes| == 2 {
      CharRoundTrip(bytes[0] / 4);
      CharRoundTrip((bytes[0] % 4) * 16 + bytes[1] / 16);
      CharRoundTrip((bytes[1] % 16) * 4);
    } else if |bytes| == 1 {
      CharRoundTrip(bytes[0] / 4);
      CharRoundTrip((bytes[0] % 4) * 16);
    }
  }

  /** Four alphabet characters decode to the three bytes of their group, and decoding goes on with what follows. */
  lemma DecodeDigits(d0: nat, d1: nat, d2: nat, d3: nat, rest: string)
    requires d0 < 64 && d1 < 64 && d2 < 64 && d3 < 64
    ensures DecodeGroups([EncodeChar(d0), EncodeChar(d1), EncodeChar(d2), EncodeChar(d3)] + rest)
      == ([Byte0(d0, d1), Byte1(d1, d2), Byte2(d2, d3)] + DecodeGroups(rest).0, DecodeGroups(rest).1)
  {
    CharRoundTrip(d0);
    CharRoundTrip(d1);
    CharRoundTrip(d2);
    CharRoundTrip(d3);
    var s := [EncodeChar(d0), EncodeChar(d1), EncodeChar(d2), EncodeChar(d3)] + rest;
    assert FirstGroup(s) == Group([Byte0(d0, d1), Byte1(d1, d2), Byte2(d2, d3)], true, true);
    assert s[4..] == rest;
  }

  /** One full group decodes to its three bytes, and decoding goes on with what follows. */
  lemma DecodeQuad(b0: byte, b1: byte, b2: byte, rest: string)
    ensures DecodeGroups(Quad(b0, b1, b2) + rest) == ([b0, b1, b2] + DecodeGroups(rest).0, DecodeGroups(rest).1)
  {
    DecodeDigits(b0 / 4, (b0 % 4) * 16 + b1 / 16, (b1 % 16) * 4 + b2 / 64, b2 % 64, rest);
    GroupRoundTrip(b0, b1, b2);
  }

  /** The last group of two bytes, with one `=`. */
  lemma DecodeLastTwo(b0: byte, b1: byte)
    ensures DecodeGroups(Encode([b0, b1])) == ([b0, b1], true)
  {
    var d0, d1, d2 := b0 / 4, (b0 % 4) * 16 + b1 / 16, (b1 % 16) * 4;
    CharRoundTrip(d0);
    CharRoundTrip(d1);
    CharRoundTrip(d2);
    GroupRoundTrip(b0, b1, 0);
    assert d2 == (b1 % 16) * 4 + 0 / 64;
    var s := Encode([b0, b1]);
    assert s == [EncodeChar(d0), EncodeChar(d1), EncodeChar(d2), '='];
  }

  /** The last group of one byte, with two `=`. */
  lemma DecodeLastOne(b0: byte)
    ensures DecodeGroups(Encode([b0])) == ([b0], true)
  {
    var d0, d1 := b0 / 4, (b0 % 4) * 16;
    CharRoundTrip(d0);
    CharRoundTrip(d1);
    GroupRoundTrip(b0, 0, 0);
    assert d1 == (b0 % 4) * 16 + 0 / 16;
    var s := Encode([b0]);
    assert s == [EncodeChar(d0), EncodeChar(d1), '=', '='];
  }

  /** Decoding what was encoded gives the bytes back, with success. */
  lemma {:induction false} DecodeGroupsEncode(bytes: seq<byte>)
    ensures DecodeGroups(Encode(bytes)) == (bytes, true)
    decreases |bytes|
  {
    if |bytes| >= 3 {
      DecodeGroupsEncode(bytes[3..]);
      assert bytes[3..] + [] == bytes[3..];
      DecodeAfterQuad(Encode(bytes), bytes, Encode(bytes[3..]), ([], true));
      assert bytes + [] == bytes;
    } else if |bytes| == 2 {
      DecodeLastTwo(bytes[0], bytes[1]);
      assert [bytes[0], bytes[1]] == bytes;
    } else if |bytes| == 1 {
      DecodeLastOne(bytes[0]);
      assert [bytes[0]] == bytes;
    }
  }

  /** The round trip through the encoder and `DecodeString`. */
  lemma DecodeEncode(bytes: seq<byte>)
    ensures Decode(Encode(bytes)) == (bytes, true)
  {
    EncodeCharacters(bytes);
    NoNewlines(Encode(bytes));
    DecodeGroupsEncode(bytes);
  }

  lemma {:induction false} StripLineBreak(a: string, b: string)
    ensures StripNewlines(a + "\r\n" + b) == StripNewlines(a + b)
    decreases |a|
  {
    if a == [] {
      assert a + "\r\n" + b == "\r\n" + b && a + b == b;
      assert ("\r\n" + b)[1..] == "\n" + b;
      assert ("\n" + b)[1..] == b;
    } else {
      assert (a + "\r\n" + b)[1..] == a[1..] + "\r\n" + b;
      assert (a + b)[1..] == a[1..] + b;
      StripLineBreak(a[1..], b);
    }
  }

  /** Line breaks anywhere in the text do not change what it decodes to. */
  lemma LineBreaksIgnored(a: string, b: string)
    ensures Decode(a + "\r\n" + b) == Decode(a + b)
  {
    StripLineBreak(a, b);
  }

  lemma EncodeStep(bytes: seq<byte>, t: string)
    requires |bytes| >= 3
    ensures Encode(bytes) + t == Quad(bytes[0], bytes[1], bytes[2]) + (Encode(bytes[3..]) + t)
  {
    ConcatAssoc(Quad(bytes[0], bytes[1], bytes[2]), Encode(bytes[3..]), t);
  }

  lemma ConcatAssoc(a: string, b: string, c: string)
    ensures (a + b) + c == a + (b + c)
  {
  }

  lemma DecodeGroupsStep(bytes: seq<byte>, t: string)
    requires |bytes| >= 3
    requires DecodeGroups(Encode(bytes[3..]) + t) == (bytes[3..] + DecodeGroups(t).0, DecodeGroups(t).1)
    ensures DecodeGroups(Encode(bytes) + t) == (bytes + DecodeGroups(t).0, DecodeGroups(t).1)
  {
    EncodeStep(bytes, t);
    DecodeAfterQuad(Encode(bytes) + t, bytes, Encode(bytes[3..]) + t, DecodeGroups(t));
  }

  lemma DecodeAfterQuad(x: string, bytes: seq<byte>, rest: string, d: (seq<byte>, bool))
    requires |bytes| >= 3
    requires x == Quad(bytes[0], bytes[1], bytes[2]) + rest
    requires DecodeGroups(rest) == (bytes[3..] + d.0, d.1)
    ensures DecodeGroups(x) == (bytes + d.0, d.1)
  {
    DecodeQuad(bytes[0], bytes[1], bytes[2], rest);
    Regroup(bytes, d.0);
  }

  lemma Regroup(bytes: seq<byte>, d: seq<byte>)
    requires |bytes| >= 3
    ensures [bytes[0], bytes[1], bytes[2]] + (bytes[3..] + d) == bytes + d
  {
    assert [bytes[0], bytes[1], bytes[2]] + bytes[3..] == bytes;
  }

  /** Decoding runs on past the unpadded encoding of whole groups into whatever follows. */
  lemma {:induction false} DecodeGroupsAfterEncoding(bytes: seq<byte>, groups: nat, t: string)
    requires |bytes| == 3 * groups
    ensures DecodeGroups(Encode(bytes) + t) == (bytes + DecodeGroups(t).0, DecodeGroups(t).1)
    decreases groups
  {
    if groups == 0 {
      assert Encode(bytes) + t == t;
      assert bytes + DecodeGroups(t).0 == DecodeGroups(t).0;
    } else {
      DecodeGroupsAfterEncoding(bytes[3..], groups - 1, t);
      DecodeGroupsStep(bytes, t);
    }
  }

  /** A corrupt character after well-formed unpadded text keeps the bytes decoded before it. */
  lemma CorruptTailKeepsPrefix(bytes: seq<byte>, tail: string)
    requires |bytes| % 3 == 0
    requires tail != [] && !IsAlphabetChar(tail[0]) && tail[0] != '\r' && tail[0] != '\n'
    ensures Decode(Encode(bytes) + tail) == (bytes, false)
  {
    StripEncoded(bytes, tail);
    var st := StripNewlines(tail);
    CorruptFirst(tail);
    DecodeGroupsAfterEncoding(bytes, |bytes| / 3, st);
    assert bytes + [] == bytes;
  }

  lemma StripEncoded(bytes: seq<byte>, tail: string)
    ensures StripNewlines(Encode(bytes) + tail) == Encode(bytes) + StripNewlines(tail)
  {
    EncodeCharacters(bytes);
    StripPrefix(Encode(bytes), tail);
  }

  lemma CorruptFirst(tail: string)
    requires tail != [] && !IsAlphabetChar(tail[0]) && tail[0] != '\r' && tail[0] != '\n'
    ensures DecodeGroups(StripNewlines(tail)) == ([], false)
  {
    assert StripNewlines(tail) == [tail[0]] + StripNewlines(tail[1..]);
  }

  /** Stripping passes over text that holds no line break. */
  lemma {:induction false} StripPrefix(a: string, b: string)
    requires forall i :: 0 <= i < |a| ==> a[i] != '\r' && a[i] != '\n'
    ensures StripNewlines(a + b) == a + StripNewlines(b)
    decreases |a|
  {
    if a == [] {
      assert a + b == b;
    } else {
      assert (a + b)[1..] == a[1..] + b;
      StripPrefix(a[1..], b);
    }
  }
}
