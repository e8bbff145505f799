/** Bytes as printable text, four characters for every three bytes, padded with '='. */
module Base64 {
  type Byte = b: int | 0 <= b < 256

  datatype Decoded = Garbage | Bytes(bytes: seq<Byte>)

  function Char(v: nat): char
    requires v < 64
  {
    if v < 26 then ('A' as int + v) as char
    else if v < 52 then ('a' as int + v - 26) as char
    else if v < 62 then ('0' as int + v - 52) as char
    else if v == 62 then '+' else '/'
  }

  /** The digit a character stands for, or 64 for a foreign character. */
  function Digit(c: char): nat {
    if 'A' <= c <= 'Z' then c as int - 'A' as int
    else if 'a' <= c <= 'z' then c as int - 'a' as int + 26
    else if '0' <= c <= '9' then c as int - '0' as int + 52
    else if c == '+' then 62 else if c == '/' then 63 else 64
  }

  lemma {:induction false} DigitOfChar(v: nat)
    requires v < 64
    ensures Digit(Char(v)) == v && Char(v) != '=' && Char(v) != '#'
  {
  }

  function Triple(a: Byte, b: Byte, c: Byte): string {
    [Char(a / 4), Char(a % 4 * 16 + b / 16), Char(b % 16 * 4 + c / 64), Char(c % 64)]
  }

  function Tail(bytes: seq<Byte>): string
    requires 1 <= |bytes| <= 2
  {
    var a := bytes[0];
    if |bytes| == 1 then [Char(a / 4), Char(a % 4 * 16), '=', '=']
    else
      var b := bytes[1];
      [Char(a / 4), Char(a % 4 * 16 + b / 16), Char(b % 16 * 4), '=']
  }

  function Encode(bytes: seq<Byte>): string {
    if bytes == [] then []
    else if |bytes| < 3 then Tail(bytes)
    else Triple(bytes[0], bytes[1], bytes[2]) + Encode(bytes[3..])
  }

  /** One group of four characters; only the last group may be padded. */
  function Quad(s: string, last: bool): Decoded
    requires |s| == 4
  {
    var v, w, x, y := Digit(s[0]), Digit(s[1]), Digit(s[2]), Digit(s[3]);
    if v == 64 || w == 64 then Garbage
    else if last && s[2] == '=' && s[3] == '=' then Bytes([v * 4 + w / 16])
    else if x == 64 then Garbage
    else if last && s[3] == '=' then Bytes([v * 4 + w / 16, w % 16 * 16 + x / 4])
    else if y == 64 then Garbage
    else Bytes([v * 4 + w / 16, w % 16 * 16 + x / 4, x % 4 * 64 + y])
  }

  function Decode(s: string): Decoded {
    if s == [] then Bytes([])
    else if |s| < 4 then Garbage
    else
      var first, rest := Quad(s[..4], |s| == 4), Decode(s[4..]);
      if first.Garbage? || rest.Garbage? then Garbage else Bytes(first.bytes + rest.bytes)
  }

  /** The digits of three bytes are digits, and put together again they are the bytes. */
  lemma {:induction false} Digits(a: Byte, b: Byte, c: Byte)
    ensures a / 4 < 64 && a % 4 * 16 + b / 16 < 64 && b % 16 * 4 + c / 64 < 64 && c % 64 < 64
    ensures a / 4 * 4 + (a % 4 * 16 + b / 16) / 16 == a
    ensures (a % 4 * 16 + b / 16) % 16 * 16 + (b % 16 * 4 + c / 64) / 4 == b
    ensures (b % 16 * 4 + c / 64) % 4 * 64 + c % 64 == c
  {
  }

  lemma {:induction false} TripleBack(a: Byte, b: Byte, c: Byte, last: bool)
    ensures Quad(Triple(a, b, c), last) == Bytes([a, b, c])
  {
    Digits(a, b, c);
    DigitOfChar(a / 4);
    DigitOfChar(a % 4 * 16 + b / 16);
    DigitOfChar(b % 16 * 4 + c / 64);
    DigitOfChar(c % 64);
  }

  lemma {:induction false} TailBack(bytes: seq<Byte>)
    requires 1 <= |bytes| <= 2
    ensures Quad(Tail(bytes), true) == Bytes(bytes)
  {
    DigitOfChar(bytes[0] / 4);
    if |bytes| == 1 {
      DigitOfChar(bytes[0] % 4 * 16);
    } else {
      DigitOfChar(bytes[0] % 4 * 16 + bytes[1] / 16);
      DigitOfChar(bytes[1] % 16 * 4);
    }
  }

  /** A whole group in front decodes on its own. */
  lemma {:induction false} DecodeGroup(group: string, rest: string, bytes: seq<Byte>, more: seq<Byte>)
    requires |group| == 4 && Quad(group, rest == []) == Bytes(bytes) && Decode(rest) == Bytes(more)
    ensures Decode(group + rest) == Bytes(bytes + more)
  {
    var s := group + rest;
    assert s[..4] == group && s[4..] == rest;
  }

  lemma {:induction false} RoundTripShort(bytes: seq<Byte>)
    requires 1 <= |bytes| <= 2
    ensures Decode(Tail(bytes)) == Bytes(bytes)
  {
    TailBack(bytes);
    DecodeGroup(Tail(bytes), [], bytes, []);
    assert Tail(bytes) + [] == Tail(bytes) && bytes + [] == bytes;
  }

  lemma {:induction false} FirstThree(bytes: seq<Byte>)
    requires |bytes| >= 3
    ensures bytes == [bytes[0], bytes[1], bytes[2]] + bytes[3..]
  {
  }

  /** Decoding undoes encoding, for every sequence of bytes. */
  lemma {:induction false} RoundTrip(bytes: seq<Byte>)
    ensures Decode(Encode(bytes)) == Bytes(bytes)
  {
    if bytes == [] {
    } else if |bytes| < 3 {
      RoundTripShort(bytes);
    } else {
      var rest := bytes[3..];
      var text := Encode(rest);
      RoundTrip(rest);
      TripleBack(bytes[0], bytes[1], bytes[2], text == []);
      DecodeGroup(Triple(bytes[0], bytes[1], bytes[2]), text, [bytes[0], bytes[1], bytes[2]], rest);
      FirstThree(bytes);
    }
  }

  /** Four characters for every three bytes begun, none of them the mark of another version. */
  lemma {:induction false} EncodedShape(bytes: seq<Byte>)
    ensures |Encode(bytes)| == (|bytes| + 2) / 3 * 4
    ensures bytes != [] ==> Encode(bytes)[0] != '#'
  {
    if bytes != [] {
      DigitOfChar(bytes[0] / 4);
      if |bytes| >= 3 { EncodedShape(bytes[3..]); }
    }
  }

  /** The letters of section 4 of RFC 4648: twenty-six capitals, as many small ones, ten digits, and two signs. */
  lemma {:induction false} LettersExact(v: nat)
    ensures v < 26 ==> Char(v) as int == 'A' as int + v && Char(26 + v) as int == 'a' as int + v
    ensures v < 10 ==> Char(52 + v) as int == '0' as int + v
    ensures Char(62) == '+' && Char(63) == '/'
  {
  }

  /** Test vectors of section 10 of RFC 4648, one for each way the last group can be filled. */
  lemma {:induction false} Rfc4648Vectors()
    ensures Encode([0x66]) == "Zg=="
    ensures Encode([0x66, 0x6f]) == "Zm8="
    ensures Encode([0x66, 0x6f, 0x6f]) == "Zm9v"
  {
    var foo: seq<Byte> := [0x66, 0x6f, 0x6f];
    assert foo[3..] == [];
    assert Encode(foo) == Triple(0x66, 0x6f, 0x6f) + Encode(foo[3..]);
  }
}
