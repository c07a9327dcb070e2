/** The application/x-www-form-urlencoded serializer of section 5.2 of the
    WHATWG URL Standard, which `URLSearchParams.toString()` applies to every
    query string and token request body the Discord services build; and a strict
    parser for the same format, against which the serializer is proved
    lossless. Characters are Unicode scalar values, encoded as UTF-8 bytes. */
module FormEncoding {
  import opened Values

  /** The characters the serializer leaves as they are: ASCII alphanumerics and
      `*`, `-`, `.`, `_`. Everything else except the space is percent-encoded. */
  predicate Unreserved(c: char)
  {
    ('a' <= c <= 'z') || ('A' <= c <= 'Z') || ('0' <= c <= '9')
    || c == '*' || c == '-' || c == '.' || c == '_'
  }

  /** A byte value. */
  type Byte = b: int | 0 <= b < 256

  /** The UTF-8 encoding of one scalar value, lead byte first. */
  function Utf8(c: char): (bytes: seq<Byte>)
    ensures 1 <= |bytes| <= 4
  {
    var n := c as int;
    if n < 0x80 then [n]
    else if n < 0x800 then [0xC0 + n / 64, 0x80 + n % 64]
    else if n < 0x10000 then [0xE0 + n / 64 / 64, 0x80 + n / 64 % 64, 0x80 + n % 64]
    else [0xF0 + n / 64 / 64 / 64, 0x80 + n / 64 / 64 % 64, 0x80 + n / 64 % 64, 0x80 + n % 64]
  }

  /** An upper-case hexadecimal digit. */
  function HexDigit(d: int): (c: char)
    requires 0 <= d < 16
  {
    "0123456789ABCDEF"[d]
  }

  /** The value of a hexadecimal digit of either case. */
  function HexValue(c: char): (r: Option<int>)
    ensures r.Some? ==> 0 <= r.value < 16
  {
    if '0' <= c <= '9' then Some(c as int - '0' as int)
    else if 'A' <= c <= 'F' then Some(c as int - 'A' as int + 10)
    else if 'a' <= c <= 'f' then Some(c as int - 'a' as int + 10)
    else None
  }

  /** `%XX` for one byte. */
  function PercentByte(b: Byte): string
  {
    ['%', HexDigit(b / 16), HexDigit(b % 16)]
  }

  function PercentBytes(bytes: seq<Byte>): (s: string)
    ensures |s| == 3 * |bytes|
  {
    if bytes == [] then [] else PercentByte(bytes[0]) + PercentBytes(bytes[1..])
  }

  /** The serialization of one character. */
  function EncodeChar(c: char): (s: string)
    ensures 0 < |s|
    ensures '&' !in s && '=' !in s
  {
    if Unreserved(c) then [c]
    else if c == ' ' then ['+']
    else PercentBytesHaveNoSeparator(Utf8(c)); PercentBytes(Utf8(c))
  }

  lemma {:induction false} PercentBytesHaveNoSeparator(bytes: seq<Byte>)
    ensures '&' !in PercentBytes(bytes) && '=' !in PercentBytes(bytes)
  {
    if bytes != [] {
      PercentBytesHaveNoSeparator(bytes[1..]);
    }
  }

  /** The byte serializer applied to a whole name or value. */
  function Encode(s: string): (r: string)
    ensures '&' !in r && '=' !in r
    ensures |s| <= |r|
  {
    if s == [] then [] else EncodeChar(s[0]) + Encode(s[1..])
  }

  /** One `name=value` pair of the serialization. */
  function SerializePair(p: (string, string)): string
  {
    Encode(p.0) + "=" + Encode(p.1)
  }

  /** `URLSearchParams.toString()`: the pairs in order, joined by `&`. */
  function Serialize(ps: seq<(string, string)>): string
  {
    if ps == [] then ""
    else if |ps| == 1 then SerializePair(ps[0])
    else SerializePair(ps[0]) + "&" + Serialize(ps[1..])
  }

  /** With more than one pair, the first pair's serialization and `&` come first. */
  lemma FirstPairPrefix(ps: seq<(string, string)>)
    requires |ps| > 1
    ensures StartsWith(Serialize(ps), SerializePair(ps[0]) + "&")
  {
    assert Serialize(ps) == SerializePair(ps[0]) + "&" + Serialize(ps[1..]);
    assert Serialize(ps)[..|SerializePair(ps[0]) + "&"|] == SerializePair(ps[0]) + "&";
  }

  // ----- a strict parser for the same format -----

  /** The byte written as `%XX` at position `i` of `s`, if there is one. */
  function ByteAt(s: string, i: nat): (r: Option<Byte>)
  {
    if i + 3 <= |s| && s[i] == '%' then
      match (HexValue(s[i + 1]), HexValue(s[i + 2]))
      case (Some(h), Some(l)) => Some(h * 16 + l)
      case _ => None
    else None
  }

  /** The six payload bits of a UTF-8 continuation byte at position `i`. */
  function ContinuationAt(s: string, i: nat): (r: Option<int>)
    ensures r.Some? ==> 0 <= r.value < 64
  {
    match ByteAt(s, i)
    case Some(b) => if 0x80 <= b < 0xC0 then Some(b - 0x80) else None
    case None => None
  }

  predicate IsScalar(n: int)
  {
    (0 <= n < 0xD800) || (0xE000 <= n < 0x11_0000)
  }

  /** The character written as a run of percent-encoded UTF-8 bytes at the
      start of `s`, and how many characters of `s` that run occupies. */
  function DecodePercentChar(s: string): (r: Option<(char, nat)>)
    ensures r.Some? ==> 0 < r.value.1 <= |s|
  {
    match ByteAt(s, 0)
    case None => None
    case Some(b0) =>
      var n: Option<(int, nat)> :=
        if b0 < 0x80 then Some((b0, 3))
        else if 0xC0 <= b0 < 0xE0 then
          match ContinuationAt(s, 3)
          case Some(c1) => Some(((b0 - 0xC0) * 64 + c1, 6))
          case None => None
        else if 0xE0 <= b0 < 0xF0 then
          match (ContinuationAt(s, 3), ContinuationAt(s, 6))
          case (Some(c1), Some(c2)) => Some((((b0 - 0xE0) * 64 + c1) * 64 + c2, 9))
          case _ => None
        else if 0xF0 <= b0 < 0xF8 then
          match (ContinuationAt(s, 3), ContinuationAt(s, 6), ContinuationAt(s, 9))
          case (Some(c1), Some(c2), Some(c3)) => Some(((((b0 - 0xF0) * 64 + c1) * 64 + c2) * 64 + c3, 12))
          case _ => None
        else None;
      match n
      case Some((code, len)) =>
        if IsScalar(code) && len <= |s| then Some((code as char, len)) else None
      case None => None
  }

  function Prepend(c: char, r: Option<string>): Option<string>
  {
    match r
    case Some(s) => Some([c] + s)
    case None => None
  }

  /** Decodes one serialized name or value: `+` is a space, `%XX` runs are
      UTF-8 bytes, everything else stands for itself. */
  function Decode(s: string): Option<string>
    decreases |s|
  {
    if s == [] then Some([])
    else if s[0] == '+' then Prepend(' ', Decode(s[1..]))
    else if s[0] != '%' then Prepend(s[0], Decode(s[1..]))
    else
      match DecodePercentChar(s)
      case Some((c, len)) => Prepend(c, Decode(s[len..]))
      case None => None
  }

  /** The position of the first `ch` in `s`. */
  function IndexOf(s: string, ch: char): (r: Option<nat>)
    ensures r.Some? ==> r.value < |s| && s[r.value] == ch && ch !in s[..r.value]
    ensures r.None? ==> ch !in s
  {
    if s == [] then None
    else if s[0] == ch then Some(0)
    else match IndexOf(s[1..], ch)
      case Some(i) => assert s[1..][..i] == s[1..i + 1]; Some(i + 1)
      case None => None
  }

  /** One `name=value` segment; a segment without `=` is a name with an empty value. */
  function ParsePair(seg: string): Option<(string, string)>
  {
    var (nameText, valueText) :=
      match IndexOf(seg, '=')
      case Some(j) => (seg[..j], seg[j + 1..])
      case None => (seg, "");
    match (Decode(nameText), Decode(valueText))
    case (Some(name), Some(value)) => Some((name, value))
    case _ => None
  }

  /** The pairs of a query string, in order; empty segments are skipped. */
  function ParseQuery(q: string): Option<seq<(string, string)>>
    decreases |q|
  {
    if q == [] then Some([])
    else
      var (seg, rest) :=
        match IndexOf(q, '&')
        case Some(i) => (q[..i], q[i + 1..])
        case None => (q, "");
      var tail := ParseQuery(rest);
      if seg == [] then tail
      else
        match (ParsePair(seg), tail)
        case (Some(p), Some(ps)) => Some([p] + ps)
        case _ => None
  }

  // ----- properties -----

  /** Encoding distributes over concatenation. */
  lemma {:induction false} EncodeAppend(a: string, b: string)
    ensures Encode(a + b) == Encode(a) + Encode(b)
  {
    if a == [] {
      assert a + b == b;
    } else {
      assert (a + b)[0] == a[0];
      assert (a + b)[1..] == a[1..] + b;
      EncodeAppend(a[1..], b);
    }
  }

  predicate AllUnreserved(s: string)
  {
    forall i :: 0 <= i < |s| ==> Unreserved(s[i])
  }

  /** A string of unreserved characters serializes as itself. */
  lemma {:induction false} EncodeUnreserved(s: string)
    requires AllUnreserved(s)
    ensures Encode(s) == s
  {
    if s != [] {
      EncodeUnreserved(s[1..]);
      assert [s[0]] + s[1..] == s;
    }
  }

  /** Words joined by a separator character. */
  function JoinWith(words: seq<string>, sep: char): (r: string)
    ensures |words| > 1 ==> r == words[0] + [sep] + JoinWith(words[1..], sep)
  {
    if |words| == 0 then ""
    else if |words| == 1 then words[0]
    else words[0] + [sep] + JoinWith(words[1..], sep)
  }

  /** Words of unreserved characters joined by spaces serialize as the same
      words joined by `+`. */
  lemma {:induction false} EncodeSpaceJoined(words: seq<string>)
    requires forall k :: 0 <= k < |words| ==> AllUnreserved(words[k])
    ensures Encode(JoinWith(words, ' ')) == JoinWith(words, '+')
  {
    if |words| == 1 {
      EncodeUnreserved(words[0]);
    } else if |words| > 1 {
      EncodeSpaceJoined(words[1..]);
      EncodeAppend(words[0] + [' '], JoinWith(words[1..], ' '));
      EncodeAppend(words[0], [' ']);
      EncodeUnreserved(words[0]);
      assert Encode([' ']) == ['+'];
    }
  }

  lemma HexRoundTrip(d: int)
    requires 0 <= d < 16
    ensures HexValue(HexDigit(d)) == Some(d)
  {
  }

  /** The percent-encoded UTF-8 run of a character decodes to that character,
      by the number of bytes of its encoding. */
  lemma DecodePercentCharOfUtf8(c: char, rest: string)
    requires !Unreserved(c) && c != ' '
    ensures DecodePercentChar(EncodeChar(c) + rest) == Some((c, |EncodeChar(c)|))
  {
    var n := c as int;
    if n < 0x80 {
      DecodeOneByte(c, rest);
    } else if n < 0x800 {
      DecodeTwoBytes(c, rest);
    } else if n < 0x10000 {
      DecodeThreeBytes(c, rest);
    } else {
      DecodeFourBytes(c, rest);
    }
  }

  lemma DecodeOneByte(c: char, rest: string)
    requires !Unreserved(c) && c != ' ' && c as int < 0x80
    ensures DecodePercentChar(EncodeChar(c) + rest) == Some((c, |EncodeChar(c)|))
  {
    var bytes := Utf8(c);
    var s := EncodeChar(c) + rest;
    assert s == PercentByte(bytes[0]) + rest;
    assert s[0..3] == PercentByte(bytes[0]);
    PercentByteIn(s, 0, bytes[0]);
  }

  lemma DecodeTwoBytes(c: char, rest: string)
    requires 0x80 <= c as int < 0x800
    ensures DecodePercentChar(EncodeChar(c) + rest) == Some((c, |EncodeChar(c)|))
  {
    var b0, b1 := EncodeTwo(c);
    DecodeTwoOf(b0, b1, rest);
  }

  /** The two bytes of a character from U+0080 to U+07FF, and its encoding. */
  lemma EncodeTwo(c: char) returns (b0: Byte, b1: Byte)
    requires 0x80 <= c as int < 0x800
    ensures 0xC0 <= b0 < 0xE0 && 0x80 <= b1 < 0xC0
    ensures (b0 - 0xC0) * 64 + b1 - 0x80 == c as int
    ensures EncodeChar(c) == PercentByte(b0) + PercentByte(b1)
  {
    var n := c as int;
    b0, b1 := 0xC0 + n / 64, 0x80 + n % 64;
    assert n == (n / 64) * 64 + n % 64;
    assert Utf8(c) == [b0, b1];
    assert [b0, b1][1..] == [b1] && [b1][1..] == [];
    assert PercentBytes([b1]) == PercentByte(b1) + [];
    assert PercentBytes([b0, b1]) == PercentByte(b0) + PercentBytes([b1]);
  }

  lemma DecodeTwoOf(b0: Byte, b1: Byte, rest: string)
    requires 0xC0 <= b0 < 0xE0 && 0x80 <= b1 < 0xC0
    requires IsScalar((b0 - 0xC0) * 64 + b1 - 0x80)
    ensures DecodePercentChar(PercentByte(b0) + PercentByte(b1) + rest)
      == Some((((b0 - 0xC0) * 64 + b1 - 0x80) as char, 6))
  {
    var s := PercentByte(b0) + PercentByte(b1) + rest;
    assert s[0..3] == PercentByte(b0) && s[3..6] == PercentByte(b1);
    PercentByteIn(s, 0, b0);
    PercentByteIn(s, 3, b1);
    DecodeTwoFrom(s, b0, b1);
  }

  lemma DecodeTwoFrom(s: string, b0: Byte, b1: Byte)
    requires 0xC0 <= b0 < 0xE0 && 0x80 <= b1 < 0xC0
    requires 6 <= |s| && ByteAt(s, 0) == Some(b0) && ContinuationAt(s, 3) == Some(b1 - 0x80)
    requires IsScalar((b0 - 0xC0) * 64 + b1 - 0x80)
    ensures DecodePercentChar(s) == Some((((b0 - 0xC0) * 64 + b1 - 0x80) as char, 6))
  {
  }

  lemma DecodeThreeBytes(c: char, rest: string)
    requires 0x800 <= c as int < 0x10000
    ensures DecodePercentChar(EncodeChar(c) + rest) == Some((c, |EncodeChar(c)|))
  {
    var b0, b1, b2 := EncodeThree(c);
    DecodeThreeOf(b0, b1, b2, rest);
  }

  /** The three bytes of a character from U+0800 to U+FFFF, and its encoding. */
  lemma EncodeThree(c: char) returns (b0: Byte, b1: Byte, b2: Byte)
    requires 0x800 <= c as int < 0x10000
    ensures 0xE0 <= b0 < 0xF0 && 0x80 <= b1 < 0xC0 && 0x80 <= b2 < 0xC0
    ensures ((b0 - 0xE0) * 64 + b1 - 0x80) * 64 + b2 - 0x80 == c as int
    ensures EncodeChar(c) == PercentByte(b0) + PercentByte(b1) + PercentByte(b2)
  {
    var n := c as int;
    ThreeByteSplit(n);
    b0, b1, b2 := 0xE0 + n / 64 / 64, 0x80 + n / 64 % 64, 0x80 + n % 64;
    assert Utf8(c) == [b0, b1, b2];
    PercentBytesOfThree(b0, b1, b2);
  }

  lemma ThreeByteSplit(n: int)
    requires 0x800 <= n < 0x10000
    ensures 0 <= n / 64 / 64 < 16 && 0 <= n / 64 % 64 < 64 && 0 <= n % 64 < 64
    ensures ((n / 64 / 64) * 64 + n / 64 % 64) * 64 + n % 64 == n
  {
    var m := n / 64;
    assert m == (m / 64) * 64 + m % 64;
    assert n == m * 64 + n % 64;
  }

  lemma PercentBytesOfThree(b0: Byte, b1: Byte, b2: Byte)
    ensures PercentBytes([b0, b1, b2]) == PercentByte(b0) + PercentByte(b1) + PercentByte(b2)
  {
    assert [b0, b1, b2][1..] == [b1, b2];
    assert [b1, b2][1..] == [b2];
    assert [b2][1..] == [];
    assert PercentBytes([b2]) == PercentByte(b2) + [];
    assert PercentBytes([b1, b2]) == PercentByte(b1) + PercentByte(b2);
  }

  lemma DecodeThreeOf(b0: Byte, b1: Byte, b2: Byte, rest: string)
    requires 0xE0 <= b0 < 0xF0 && 0x80 <= b1 < 0xC0 && 0x80 <= b2 < 0xC0
    requires IsScalar(((b0 - 0xE0) * 64 + b1 - 0x80) * 64 + b2 - 0x80)
    ensures DecodePercentChar(PercentByte(b0) + PercentByte(b1) + PercentByte(b2) + rest)
      == Some(((((b0 - 0xE0) * 64 + b1 - 0x80) * 64 + b2 - 0x80) as char, 9))
  {
    var s := PercentByte(b0) + PercentByte(b1) + PercentByte(b2) + rest;
    assert s[0..3] == PercentByte(b0) && s[3..6] == PercentByte(b1) && s[6..9] == PercentByte(b2);
    PercentByteIn(s, 0, b0);
    PercentByteIn(s, 3, b1);
    PercentByteIn(s, 6, b2);
    DecodeThreeFrom(s, b0, b1, b2);
  }

  /** A byte written as `%XX` at position `i` reads back as that byte, and a
      continuation byte as its payload bits. */
  lemma PercentByteIn(s: string, i: nat, b: Byte)
    requires i + 3 <= |s| && s[i..i + 3] == PercentByte(b)
    ensures ByteAt(s, i) == Some(b)
    ensures 0x80 <= b < 0xC0 ==> ContinuationAt(s, i) == Some(b - 0x80)
  {
    HexRoundTrip(b / 16);
    HexRoundTrip(b % 16);
    assert s[i] == s[i..i + 3][0] && s[i + 1] == s[i..i + 3][1] && s[i + 2] == s[i..i + 3][2];
  }

  lemma DecodeThreeFrom(s: string, b0: Byte, b1: Byte, b2: Byte)
    requires 0xE0 <= b0 < 0xF0 && 0x80 <= b1 < 0xC0 && 0x80 <= b2 < 0xC0
    requires 9 <= |s| && ByteAt(s, 0) == Some(b0)
    requires ContinuationAt(s, 3) == Some(b1 - 0x80) && ContinuationAt(s, 6) == Some(b2 - 0x80)
    requires IsScalar(((b0 - 0xE0) * 64 + b1 - 0x80) * 64 + b2 - 0x80)
    ensures DecodePercentChar(s) == Some(((((b0 - 0xE0) * 64 + b1 - 0x80) * 64 + b2 - 0x80) as char, 9))
  {
  }

  lemma DecodeFourBytes(c: char, rest: string)
    requires 0x10000 <= c as int
    ensures DecodePercentChar(EncodeChar(c) + rest) == Some((c, |EncodeChar(c)|))
  {
    var b0, b1, b2, b3 := EncodeFour(c);
    DecodeFourOf(b0, b1, b2, b3, rest);
  }

  /** The four bytes of a character from U+10000 on, and its encoding. */
  lemma EncodeFour(c: char) returns (b0: Byte, b1: Byte, b2: Byte, b3: Byte)
    requires 0x10000 <= c as int
    ensures 0xF0 <= b0 < 0xF8 && 0x80 <= b1 < 0xC0 && 0x80 <= b2 < 0xC0 && 0x80 <= b3 < 0xC0
    ensures (((b0 - 0xF0) * 64 + b1 - 0x80) * 64 + b2 - 0x80) * 64 + b3 - 0x80 == c as int
    ensures EncodeChar(c) == PercentByte(b0) + PercentByte(b1) + PercentByte(b2) + PercentByte(b3)
  {
    var n := c as int;
    FourByteSplit(n);
    b0, b1, b2, b3 := 0xF0 + n / 64 / 64 / 64, 0x80 + n / 64 / 64 % 64, 0x80 + n / 64 % 64, 0x80 + n % 64;
    assert Utf8(c) == [b0, b1, b2, b3];
    PercentBytesOfFour(b0, b1, b2, b3);
  }

  lemma FourByteSplit(n: int)
    requires 0x10000 <= n < 0x11_0000
    ensures 0 <= n / 64 / 64 / 64 < 8 && 0 <= n / 64 / 64 % 64 < 64
    ensures 0 <= n / 64 % 64 < 64 && 0 <= n % 64 < 64
    ensures (((n / 64 / 64 / 64) * 64 + n / 64 / 64 % 64) * 64 + n / 64 % 64) * 64 + n % 64 == n
  {
    var m := n / 64;
    var k := m / 64;
    assert k == (k / 64) * 64 + k % 64;
    assert m == k * 64 + m % 64;
    assert n == m * 64 + n % 64;
  }

  lemma PercentBytesOfFour(b0: Byte, b1: Byte, b2: Byte, b3: Byte)
    ensures PercentBytes([b0, b1, b2, b3])
      == PercentByte(b0) + PercentByte(b1) + PercentByte(b2) + PercentByte(b3)
  {
    assert [b0, b1, b2, b3][1..] == [b1, b2, b3];
    PercentBytesOfThree(b1, b2, b3);
  }

  lemma DecodeFourOf(b0: Byte, b1: Byte, b2: Byte, b3: Byte, rest: string)
    requires 0xF0 <= b0 < 0xF8 && 0x80 <= b1 < 0xC0 && 0x80 <= b2 < 0xC0 && 0x80 <= b3 < 0xC0
    requires IsScalar((((b0 - 0xF0) * 64 + b1 - 0x80) * 64 + b2 - 0x80) * 64 + b3 - 0x80)
    ensures DecodePercentChar(PercentByte(b0) + PercentByte(b1) + PercentByte(b2) + PercentByte(b3) + rest)
      == Some((((((b0 - 0xF0) * 64 + b1 - 0x80) * 64 + b2 - 0x80) * 64 + b3 - 0x80) as char, 12))
  {
    var s := PercentByte(b0) + PercentByte(b1) + PercentByte(b2) + PercentByte(b3) + rest;
    assert s[0..3] == PercentByte(b0) && s[3..6] == PercentByte(b1);
    assert s[6..9] == PercentByte(b2) && s[9..12] == PercentByte(b3);
    PercentByteIn(s, 0, b0);
    PercentByteIn(s, 3, b1);
    PercentByteIn(s, 6, b2);
    PercentByteIn(s, 9, b3);
    DecodeFourFrom(s, b0, b1, b2, b3);
  }

  lemma DecodeFourFrom(s: string, b0: Byte, b1: Byte, b2: Byte, b3: Byte)
    requires 0xF0 <= b0 < 0xF8 && 0x80 <= b1 < 0xC0 && 0x80 <= b2 < 0xC0 && 0x80 <= b3 < 0xC0
    requires 12 <= |s| && ByteAt(s, 0) == Some(b0)
    requires ContinuationAt(s, 3) == Some(b1 - 0x80) && ContinuationAt(s, 6) == Some(b2 - 0x80)
    requires ContinuationAt(s, 9) == Some(b3 - 0x80)
    requires IsScalar((((b0 - 0xF0) * 64 + b1 - 0x80) * 64 + b2 - 0x80) * 64 + b3 - 0x80)
    ensures DecodePercentChar(s)
      == Some((((((b0 - 0xF0) * 64 + b1 - 0x80) * 64 + b2 - 0x80) * 64 + b3 - 0x80) as char, 12))
  {
  }

  /** Decoding one serialized character and then the rest. */
  lemma DecodeEncodeChar(c: char, rest: string)
    ensures Decode(EncodeChar(c) + rest) == Prepend(c, Decode(rest))
  {
    var s := EncodeChar(c) + rest;
    if Unreserved(c) {
      assert s[1..] == rest;
    } else if c == ' ' {
      assert s[1..] == rest;
    } else {
      DecodePercentCharOfUtf8(c, rest);
      assert s[0] == '%';
      assert s[|EncodeChar(c)|..] == rest;
    }
  }

  /** The serializer loses nothing: decoding a serialized string gives it back. */
  lemma {:induction false} DecodeEncode(s: string)
    ensures Decode(Encode(s)) == Some(s)
  {
    if s != [] {
      DecodeEncodeChar(s[0], Encode(s[1..]));
      DecodeEncode(s[1..]);
      assert [s[0]] + s[1..] == s;
    }
  }

  /** The first separator after a text free of it. */
  lemma {:induction false} IndexOfAfter(a: string, ch: char, b: string)
    requires ch !in a
    ensures IndexOf(a + [ch] + b, ch) == Some(|a|)
  {
    if a == [] {
      assert (a + [ch] + b)[0] == ch;
    } else {
      assert (a + [ch] + b)[1..] == a[1..] + [ch] + b;
      IndexOfAfter(a[1..], ch, b);
    }
  }

  lemma SerializePairParses(p: (string, string))
    ensures ParsePair(SerializePair(p)) == Some(p)
  {
    var seg := SerializePair(p);
    assert seg == Encode(p.0) + ['='] + Encode(p.1);
    IndexOfAfter(Encode(p.0), '=', Encode(p.1));
    assert seg[..|Encode(p.0)|] == Encode(p.0);
    assert seg[|Encode(p.0)| + 1..] == Encode(p.1);
    DecodeEncode(p.0);
    DecodeEncode(p.1);
  }

  /** The query-string round trip: parsing a serialization gives back the same
      pairs in the same order. */
  lemma {:induction false} ParseSerialize(ps: seq<(string, string)>)
    ensures ParseQuery(Serialize(ps)) == Some(ps)
  {
    if |ps| == 1 {
      var seg := SerializePair(ps[0]);
      assert '&' !in seg;
      assert seg != [] by { assert seg[|Encode(ps[0].0)|] == '='; }
      SerializePairParses(ps[0]);
      assert IndexOf(seg, '&').None?;
      assert ParseQuery("") == Some([]);
      assert ParseQuery(seg) == Some([ps[0]] + []);
      assert [ps[0]] + [] == ps;
    } else if |ps| > 1 {
      var seg := SerializePair(ps[0]);
      var rest := Serialize(ps[1..]);
      assert '&' !in seg;
      assert seg != [] by { assert seg[|Encode(ps[0].0)|] == '='; }
      IndexOfAfter(seg, '&', rest);
      var q := Serialize(ps);
      assert q == seg + ['&'] + rest;
      assert q[..|seg|] == seg;
      assert q[|seg| + 1..] == rest;
      SerializePairParses(ps[0]);
      ParseSerialize(ps[1..]);
      assert [ps[0]] + ps[1..] == ps;
    }
  }
}
