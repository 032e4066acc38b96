/** `decodeURIComponent`, which `getUrlParam` applies to a query value.

    It follows the Decode operation of ECMA-262 (section 19.2.6, URI Handling
    Functions) with an empty set of preserved escapes: every `%XX` escape is
    replaced by the octet it names; an octet below 0x80 stands for itself,
    and an octet with n >= 2 leading one bits must be followed by n - 1
    further escapes that complete a valid UTF-8 encoding of one code point.
    Anything else throws a URIError. */
module UriComponent {
  import opened Outcomes

  datatype UriError = UriError

  function HexDigit(c: char): (r: Option<int>)
    ensures r.Some? ==> 0 <= r.value < 16
  {
    if '0' <= c <= '9' then Some(c as int - '0' as int)
    else if 'a' <= c <= 'f' then Some(c as int - 'a' as int + 10)
    else if 'A' <= c <= 'F' then Some(c as int - 'A' as int + 10)
    else None
  }

  /** The octet named by the two hex digits at `s[k]`, `s[k + 1]`. */
  function HexOctet(s: string, k: nat): (r: Option<int>)
    requires k + 2 <= |s|
    ensures r.Some? ==> 0 <= r.value < 256
  {
    match (HexDigit(s[k]), HexDigit(s[k + 1]))
    case (Some(hi), Some(lo)) => Some(hi * 16 + lo)
    case _ => None
  }

  /** The number of leading one bits of an octet (5 stands for "five or more"). */
  function LeadingOnes(b: int): (n: nat)
    requires 0 <= b < 256
    ensures n <= 5
  {
    if b < 0x80 then 0
    else if b < 0xC0 then 1
    else if b < 0xE0 then 2
    else if b < 0xF0 then 3
    else if b < 0xF8 then 4
    else 5
  }

  /** The octets of the escapes `%XX` number 1 to count - 1 of `s`, each
      three characters after the previous one; None if one is malformed. */
  function ContinuationOctets(s: string, count: nat): (r: Option<seq<int>>)
    requires 3 * count <= |s|
    ensures r.Some? ==> |r.value| == if count == 0 then 0 else count - 1
    ensures r.Some? ==> forall i :: 0 <= i < |r.value| ==> 0 <= r.value[i] < 256
    decreases count
  {
    if count <= 1 then Some([])
    else
      match ContinuationOctets(s, count - 1)
      case None => None
      case Some(prefix) =>
        var k := 3 * (count - 1);
        if s[k] != '%' then None
        else
          match HexOctet(s, k + 1)
          case None => None
          case Some(b) => Some(prefix + [b])
  }

  predicate IsContinuation(b: int) {
    0x80 <= b < 0xC0
  }

  /** The code point that `octets` encode in UTF-8 (RFC 3629), given that the
      first octet announces |octets| octets; None for a malformed, overlong
      or surrogate encoding, or one above U+10FFFF. */
  function Utf8CodePoint(octets: seq<int>): (r: Option<int>)
    requires 2 <= |octets| <= 4
    requires forall i :: 0 <= i < |octets| ==> 0 <= octets[i] < 256
    requires LeadingOnes(octets[0]) == |octets|
    ensures r.Some? ==> 0x80 <= r.value <= 0x10FFFF && !(0xD800 <= r.value <= 0xDFFF)
  {
    if exists i :: 1 <= i < |octets| && !IsContinuation(octets[i]) then None
    else
      var cp :=
        if |octets| == 2 then (octets[0] - 0xC0) * 64 + (octets[1] - 0x80)
        else if |octets| == 3 then ((octets[0] - 0xE0) * 64 + (octets[1] - 0x80)) * 64 + (octets[2] - 0x80)
        else (((octets[0] - 0xF0) * 64 + (octets[1] - 0x80)) * 64 + (octets[2] - 0x80)) * 64 + (octets[3] - 0x80);
      var least := if |octets| == 2 then 0x80 else if |octets| == 3 then 0x800 else 0x10000;
      if cp < least || cp > 0x10FFFF || (0xD800 <= cp <= 0xDFFF) then None
      else Some(cp)
  }

  /** `decodeURIComponent(s)`. */
  function Decode(s: string): (r: Result<string, UriError>)
    ensures r.Success? ==> |r.value| <= |s|
    decreases |s|
  {
    if |s| == 0 then Success("")
    else if s[0] != '%' then Prepend(s[0], Decode(s[1..]))
    else if |s| < 3 then Failure(UriError)
    else
      match HexOctet(s, 1)
      case None => Failure(UriError)
      case Some(b) =>
        var n := LeadingOnes(b);
        if n == 0 then Prepend(b as char, Decode(s[3..]))
        else if n == 1 || n > 4 then Failure(UriError)
        else if |s| < 3 * n then Failure(UriError)
        else
          match ContinuationOctets(s, n)
          case None => Failure(UriError)
          case Some(rest) =>
            match Utf8CodePoint([b] + rest)
            case None => Failure(UriError)
            case Some(cp) => Prepend(cp as char, Decode(s[3 * n..]))
  }

  function Prepend(c: char, r: Result<string, UriError>): (r': Result<string, UriError>)
    ensures r'.Success? <==> r.Success?
    ensures r'.Success? ==> r'.value == [c] + r.value
  {
    match r
    case Success(t) => Success([c] + t)
    case Failure(e) => Failure(e)
  }

  /** A string without `%` decodes to itself. */
  lemma {:induction false} DecodeWithoutEscapes(s: string)
    requires forall i :: 0 <= i < |s| ==> s[i] != '%'
    ensures Decode(s) == Success(s)
    decreases |s|
  {
    if |s| > 0 {
      DecodeWithoutEscapes(s[1..]);
      assert s == [s[0]] + s[1..];
    }
  }

  /** A `%` with fewer than two characters after it throws, whatever precedes
      it, as long as that prefix has no escape of its own. */
  lemma {:induction false} TrailingPercentThrows(prefix: string, tail: string)
    requires forall i :: 0 <= i < |prefix| ==> prefix[i] != '%'
    requires |tail| < 2
    ensures Decode(prefix + "%" + tail).Failure?
    decreases |prefix|
  {
    var s := prefix + "%" + tail;
    if |prefix| > 0 {
      assert s[1..] == prefix[1..] + "%" + tail;
      TrailingPercentThrows(prefix[1..], tail);
    }
  }

  /** One step of Decode on a character that is not `%`. */
  lemma DecodePlainStep(c: char, t: string)
    requires c != '%'
    ensures Decode([c] + t) == Prepend(c, Decode(t))
  {
    assert ([c] + t)[1..] == t;
  }

  /** One step of Decode on an escape of an octet below 0x80. */
  lemma DecodeAsciiEscapeStep(s: string, b: int)
    requires |s| >= 3 && s[0] == '%' && HexOctet(s, 1) == Some(b) && b < 0x80
    ensures Decode(s) == Prepend(b as char, Decode(s[3..]))
  {
  }

  /** `%20` stands for a space. */
  lemma EscapedSpaceDecodes(rest: string)
    requires forall i :: 0 <= i < |rest| ==> rest[i] != '%'
    ensures Decode("%20" + rest) == Success(" " + rest)
  {
    var escape := "%20" + rest;
    assert escape[0] == '%' && escape[1] == '2' && escape[2] == '0' && escape[3..] == rest;
    assert HexOctet(escape, 1) == Some(0x20);
    DecodeWithoutEscapes(rest);
    DecodeAsciiEscapeStep(escape, 0x20);
  }

  /** A space escaped inside a word is decoded: `a%20b.png` becomes
      `a b.png`, and so does every string of that shape. */
  lemma EscapedSpaceInWordDecodes(first: char, rest: string)
    requires first != '%'
    requires forall i :: 0 <= i < |rest| ==> rest[i] != '%'
    ensures Decode([first] + ("%20" + rest)) == Success([first] + (" " + rest))
  {
    DecodePlainStep(first, "%20" + rest);
    EscapedSpaceDecodes(rest);
  }
}
