/** The browser's `btoa` and `atob`, which the audio helpers call to move PCM
    bytes through base64 text.

    `btoa` maps a "binary string" (every character code below 256) to the
    base64 alphabet of RFC 4648 section 4, with `=` padding, and throws an
    InvalidCharacterError for any wider character. `atob` follows the
    forgiving-base64 decode of the WHATWG Infra Standard: it drops ASCII
    whitespace, drops one or two trailing `=` when the length is a multiple of
    four, rejects a remaining length of 1 modulo 4 and any character outside
    the alphabet, and otherwise decodes, discarding leftover bits. */
module Base64 {
  import opened Outcomes

  type Byte = x: int | 0 <= x < 256

  /** Six bits: one base64 digit. */
  type Sextet = x: int | 0 <= x < 64

  datatype DomException = InvalidCharacterError

  // ---------------------------------------------------------------------
  // Binary strings: one character per byte (String.fromCharCode / charCodeAt)
  // ---------------------------------------------------------------------

  predicate IsBinary(s: string) {
    forall i :: 0 <= i < |s| ==> s[i] as int < 256
  }

  /** The string whose character `i` has code `bytes[i]`. */
  function BinaryString(bytes: seq<Byte>): (s: string)
    ensures |s| == |bytes| && IsBinary(s)
    ensures forall i :: 0 <= i < |bytes| ==> s[i] as int == bytes[i]
  {
    seq(|bytes|, i requires 0 <= i < |bytes| => bytes[i] as char)
  }

  /** The character codes of a binary string. */
  function ByteCodes(s: string): (bytes: seq<Byte>)
    requires IsBinary(s)
    ensures |bytes| == |s|
    ensures forall i :: 0 <= i < |s| ==> bytes[i] == s[i] as int
  {
    seq(|s|, i requires 0 <= i < |s| => s[i] as int)
  }

  /** The two views of a binary string are inverse to each other. */
  lemma BinaryStringRoundTrip(bytes: seq<Byte>, s: string)
    ensures ByteCodes(BinaryString(bytes)) == bytes
    ensures IsBinary(s) ==> BinaryString(ByteCodes(s)) == s
  {
    assert ByteCodes(BinaryString(bytes)) == bytes;
    if IsBinary(s) {
      assert BinaryString(ByteCodes(s)) == s;
    }
  }

  // ---------------------------------------------------------------------
  // The alphabet of RFC 4648 section 4
  // ---------------------------------------------------------------------

  function SextetChar(n: Sextet): (c: char)
  {
    if n < 26 then (65 + n) as char            // 'A'..'Z'
    else if n < 52 then (97 + n - 26) as char  // 'a'..'z'
    else if n < 62 then (48 + n - 52) as char  // '0'..'9'
    else if n == 62 then '+'
    else '/'
  }

  function CharSextet(c: char): (r: Option<Sextet>)
  {
    if 'A' <= c <= 'Z' then Some(c as int - 65)
    else if 'a' <= c <= 'z' then Some(c as int - 97 + 26)
    else if '0' <= c <= '9' then Some(c as int - 48 + 52)
    else if c == '+' then Some(62)
    else if c == '/' then Some(63)
    else None
  }

  /** The digit table is a bijection between sextets and alphabet characters. */
  lemma AlphabetBijection(n: Sextet, c: char)
    ensures CharSextet(c) == Some(n) <==> SextetChar(n) == c
  {
  }

  predicate InAlphabet(s: string) {
    forall i :: 0 <= i < |s| ==> CharSextet(s[i]).Some?
  }

  function SextetsToChars(xs: seq<Sextet>): (s: string)
    ensures |s| == |xs| && InAlphabet(s)
  {
    var s := seq(|xs|, i requires 0 <= i < |xs| => SextetChar(xs[i]));
    assert forall i :: 0 <= i < |xs| ==> CharSextet(s[i]) == Some(xs[i]) by {
      forall i | 0 <= i < |xs| { AlphabetBijection(xs[i], s[i]); }
    }
    s
  }

  function CharsToSextets(s: string): (xs: seq<Sextet>)
    requires InAlphabet(s)
    ensures |xs| == |s|
    ensures forall i :: 0 <= i < |s| ==> SextetChar(xs[i]) == s[i]
  {
    var xs := seq(|s|, i requires 0 <= i < |s| => CharSextet(s[i]).value);
    assert forall i :: 0 <= i < |s| ==> SextetChar(xs[i]) == s[i] by {
      forall i | 0 <= i < |s| { AlphabetBijection(xs[i], s[i]); }
    }
    xs
  }

  // ---------------------------------------------------------------------
  // Bytes <-> sextets: three bytes make four digits; a tail of one or two
  // bytes makes two or three digits, the unused low bits being zero.
  // ---------------------------------------------------------------------

  // The four digits of three bytes b0 b1 b2, most significant bit first.
  function Digit0(b0: Byte): Sextet { b0 / 4 }
  function Digit1(b0: Byte, b1: Byte): Sextet { (b0 % 4) * 16 + b1 / 16 }
  function Digit2(b1: Byte, b2: Byte): Sextet { (b1 % 16) * 4 + b2 / 64 }
  function Digit3(b2: Byte): Sextet { b2 % 64 }

  // The three bytes of four digits x0 x1 x2 x3.
  function Byte0(x0: Sextet, x1: Sextet): Byte { x0 * 4 + x1 / 16 }
  function Byte1(x1: Sextet, x2: Sextet): Byte { (x1 % 16) * 16 + x2 / 4 }
  function Byte2(x2: Sextet, x3: Sextet): Byte { (x2 % 4) * 64 + x3 }

  function ToSextets(bytes: seq<Byte>): (xs: seq<Sextet>)
    ensures |xs| == 4 * (|bytes| / 3) + (if |bytes| % 3 == 0 then 0 else |bytes| % 3 + 1)
    decreases |bytes|
  {
    if |bytes| == 0 then []
    else if |bytes| == 1 then [Digit0(bytes[0]), Digit1(bytes[0], 0)]
    else if |bytes| == 2 then [Digit0(bytes[0]), Digit1(bytes[0], bytes[1]), Digit2(bytes[1], 0)]
    else
      [Digit0(bytes[0]), Digit1(bytes[0], bytes[1]), Digit2(bytes[1], bytes[2]), Digit3(bytes[2])]
      + ToSextets(bytes[3..])
  }

  /** Four digits make three bytes; a tail of two or three digits makes one or
      two bytes, the leftover low bits being discarded. */
  function FromSextets(xs: seq<Sextet>): (bytes: seq<Byte>)
    requires |xs| % 4 != 1
    decreases |xs|
  {
    if |xs| == 0 then []
    else if |xs| == 2 then [Byte0(xs[0], xs[1])]
    else if |xs| == 3 then [Byte0(xs[0], xs[1]), Byte1(xs[1], xs[2])]
    else [Byte0(xs[0], xs[1]), Byte1(xs[1], xs[2]), Byte2(xs[2], xs[3])] + FromSextets(xs[4..])
  }

  /** Splitting three bytes into digits and joining them again is the identity. */
  lemma GroupRoundTrip(b0: Byte, b1: Byte, b2: Byte)
    ensures Byte0(Digit0(b0), Digit1(b0, b1)) == b0
    ensures Byte1(Digit1(b0, b1), Digit2(b1, b2)) == b1
    ensures Byte2(Digit2(b1, b2), Digit3(b2)) == b2
  {
  }

  lemma OneByteRoundTrip(b0: Byte)
    ensures FromSextets([Digit0(b0), Digit1(b0, 0)]) == [b0]
  {
    GroupRoundTrip(b0, 0, 0);
  }

  lemma TwoBytesRoundTrip(b0: Byte, b1: Byte)
    ensures FromSextets([Digit0(b0), Digit1(b0, b1), Digit2(b1, 0)]) == [b0, b1]
  {
    GroupRoundTrip(b0, b1, 0);
  }

  lemma ThreeBytesRoundTrip(b0: Byte, b1: Byte, b2: Byte, rest: seq<Sextet>)
    requires |rest| % 4 != 1
    ensures FromSextets([Digit0(b0), Digit1(b0, b1), Digit2(b1, b2), Digit3(b2)] + rest)
         == [b0, b1, b2] + FromSextets(rest)
  {
    var xs := [Digit0(b0), Digit1(b0, b1), Digit2(b1, b2), Digit3(b2)] + rest;
    assert xs[4..] == rest;
    GroupRoundTrip(b0, b1, b2);
  }

  /** Decoding the digits of any byte sequence gives the bytes back. */
  lemma {:induction false} SextetsRoundTrip(bytes: seq<Byte>)
    ensures |ToSextets(bytes)| % 4 != 1
    ensures FromSextets(ToSextets(bytes)) == bytes
    decreases |bytes|
  {
    if |bytes| == 0 {
    } else if |bytes| == 1 {
      OneByteRoundTrip(bytes[0]);
      assert bytes == [bytes[0]];
    } else if |bytes| == 2 {
      TwoBytesRoundTrip(bytes[0], bytes[1]);
      assert bytes == [bytes[0], bytes[1]];
    } else {
      SextetsRoundTrip(bytes[3..]);
      GroupStep(bytes);
    }
  }

  /** The step of the round trip: the first three bytes are one group. */
  lemma GroupStep(bytes: seq<Byte>)
    requires |bytes| >= 3
    requires |ToSextets(bytes[3..])| % 4 != 1
    requires FromSextets(ToSextets(bytes[3..])) == bytes[3..]
    ensures |ToSextets(bytes)| % 4 != 1
    ensures FromSextets(ToSextets(bytes)) == bytes
  {
    var rest := ToSextets(bytes[3..]);
    assert ToSextets(bytes) == [Digit0(bytes[0]), Digit1(bytes[0], bytes[1]), Digit2(bytes[1], bytes[2]), Digit3(bytes[2])] + rest;
    var n := |rest|;
    assert (n + 4) % 4 == n % 4;
    ThreeBytesRoundTrip(bytes[0], bytes[1], bytes[2], rest);
    assert bytes == [bytes[0], bytes[1], bytes[2]] + bytes[3..];
  }

  // ---------------------------------------------------------------------
  // btoa
  // ---------------------------------------------------------------------

  function Padding(n: nat): (p: string)
  {
    if n % 3 == 1 then "==" else if n % 3 == 2 then "=" else ""
  }

  /** RFC 4648 section 4 encoding of a byte sequence, padded with `=`. */
  function EncodeBytes(bytes: seq<Byte>): (s: string)
    ensures |s| % 4 == 0 && |s| == 4 * ((|bytes| + 2) / 3)
  {
    SextetsToChars(ToSextets(bytes)) + Padding(|bytes|)
  }

  /** `btoa(s)`: base64 of the binary string `s`; throws when a character
      code is 256 or more. */
  function Btoa(s: string): (r: Result<string, DomException>)
    ensures r.Success? <==> IsBinary(s)
    ensures r.Success? ==> |r.value| == 4 * ((|s| + 2) / 3)
  {
    if IsBinary(s) then Success(EncodeBytes(ByteCodes(s))) else Failure(InvalidCharacterError)
  }

  // ---------------------------------------------------------------------
  // atob (forgiving-base64 decode)
  // ---------------------------------------------------------------------

  /** TAB, LF, FF, CR and SPACE. */
  predicate IsAsciiWhitespace(c: char) {
    c == '\t' || c == '\n' || c == '\U{C}' || c == '\r' || c == ' '
  }

  function StripWhitespace(s: string): (t: string)
    ensures |t| <= |s|
    ensures forall i :: 0 <= i < |t| ==> !IsAsciiWhitespace(t[i])
  {
    if |s| == 0 then []
    else if IsAsciiWhitespace(s[0]) then StripWhitespace(s[1..])
    else [s[0]] + StripWhitespace(s[1..])
  }

  /** Removes one or two trailing `=`. */
  function StripPadding(s: string): (t: string)
  {
    if |s| >= 2 && s[|s| - 2] == '=' && s[|s| - 1] == '=' then s[..|s| - 2]
    else if |s| >= 1 && s[|s| - 1] == '=' then s[..|s| - 1]
    else s
  }

  /** `atob(s)`: the binary string whose bytes `s` encodes; throws an
      InvalidCharacterError for text that is not base64. */
  function Atob(s: string): (r: Result<string, DomException>)
    ensures r.Success? ==> IsBinary(r.value)
  {
    var d := StripWhitespace(s);
    var d := if |d| % 4 == 0 then StripPadding(d) else d;
    if |d| % 4 == 1 then Failure(InvalidCharacterError)
    else if !InAlphabet(d) then Failure(InvalidCharacterError)
    else Success(BinaryString(FromSextets(CharsToSextets(d))))
  }

  lemma {:induction false} StripWhitespaceKeeps(s: string)
    requires forall i :: 0 <= i < |s| ==> !IsAsciiWhitespace(s[i])
    ensures StripWhitespace(s) == s
    decreases |s|
  {
    if |s| > 0 {
      StripWhitespaceKeeps(s[1..]);
      assert s == [s[0]] + s[1..];
    }
  }

  lemma CharsSextetsRoundTrip(xs: seq<Sextet>)
    ensures CharsToSextets(SextetsToChars(xs)) == xs
  {
    var s := SextetsToChars(xs);
    var ys := CharsToSextets(s);
    forall i | 0 <= i < |xs| ensures ys[i] == xs[i] {
      AlphabetBijection(ys[i], s[i]);
      AlphabetBijection(xs[i], s[i]);
    }
  }

  /** Stripping the padding of an encoding leaves exactly its digits. */
  lemma StripPaddingOfEncoding(bytes: seq<Byte>)
    ensures StripPadding(EncodeBytes(bytes)) == SextetsToChars(ToSextets(bytes))
  {
    var digits := SextetsToChars(ToSextets(bytes));
    var s := EncodeBytes(bytes);
    if |digits| > 0 {
      AlphabetBijection(0, '=');
      assert CharSextet(digits[|digits| - 1]).Some?;
      assert digits[|digits| - 1] != '=';
    }
    if |bytes| % 3 == 1 {
      assert s[..|s| - 2] == digits;
    } else if |bytes| % 3 == 2 {
      assert s[..|s| - 1] == digits;
    } else {
      assert s == digits;
    }
  }

  /** `atob(btoa(s)) == s` for every binary string `s`. */
  lemma AtobInvertsBtoa(s: string)
    requires IsBinary(s)
    ensures Btoa(s).Success?
    ensures Atob(Btoa(s).value) == Success(s)
  {
    var bytes := ByteCodes(s);
    var e := EncodeBytes(bytes);
    var digits := SextetsToChars(ToSextets(bytes));
    forall i | 0 <= i < |e| ensures !IsAsciiWhitespace(e[i]) {
      if i < |digits| {
        assert CharSextet(e[i]).Some?;
      }
    }
    StripWhitespaceKeeps(e);
    StripPaddingOfEncoding(bytes);
    SextetsRoundTrip(bytes);
    CharsSextetsRoundTrip(ToSextets(bytes));
    BinaryStringRoundTrip(bytes, s);
  }
}
