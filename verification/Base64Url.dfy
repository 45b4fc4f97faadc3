/** Unpadded base64url, section 5 of RFC 4648, as the attestation profile uses it
    (src/vllm_hust_ext/attestation/profile.py). */
module Base64Url {
  import opened Basics

  newtype Byte = b: int | 0 <= b < 256

  type Sextet = i: int | 0 <= i < 64

  function ToChar(i: Sextet): char {
    if i < 26 then 'A' + (i as char)
    else if i < 52 then 'a' + ((i - 26) as char)
    else if i < 62 then '0' + ((i - 52) as char)
    else if i == 62 then '-' else '_'
  }

  function FromChar(c: char): Option<Sextet> {
    if 'A' <= c <= 'Z' then Some((c as int) - ('A' as int))
    else if 'a' <= c <= 'z' then Some((c as int) - ('a' as int) + 26)
    else if '0' <= c <= '9' then Some((c as int) - ('0' as int) + 52)
    else if c == '-' then Some(62)
    else if c == '_' then Some(63)
    else None
  }

  lemma CharRoundTrip(i: Sextet)
    ensures FromChar(ToChar(i)) == Some(i) && ToChar(i) != '.' && ToChar(i) != '='
  {}

  /** Three bytes as four characters; one or two bytes at the end as two or three. */
  function Encode(bytes: seq<Byte>): string {
    if bytes == [] then ""
    else
      var a := bytes[0] as int;
      if |bytes| == 1 then [ToChar(a / 4), ToChar(a % 4 * 16)]
      else
        var b := bytes[1] as int;
        if |bytes| == 2 then [ToChar(a / 4), ToChar(a % 4 * 16 + b / 16), ToChar(b % 16 * 4)]
        else
          var c := bytes[2] as int;
          [ToChar(a / 4), ToChar(a % 4 * 16 + b / 16), ToChar(b % 16 * 4 + c / 64), ToChar(c % 64)] + Encode(bytes[3..])
  }

  /** The decoder before its canonicity check: unused low bits are dropped. */
  function Loose(s: string): Option<seq<Byte>> {
    if s == "" then Some([])
    else if |s| == 1 then None
    else
      match (FromChar(s[0]), FromChar(s[1]))
      case (Some(w), Some(x)) =>
        var first := (w * 4 + x / 16) as Byte;
        if |s| == 2 then Some([first])
        else
          (match FromChar(s[2])
           case None => None
           case Some(y) =>
             var second := (x % 16 * 16 + y / 4) as Byte;
             if |s| == 3 then Some([first, second])
             else
               match (FromChar(s[3]), Loose(s[4..]))
               case (Some(z), Some(rest)) => Some([first, second, (y % 4 * 64 + z) as Byte] + rest)
               case _ => None)
      case _ => None
  }

  /** Accepts exactly what re-encodes to itself. */
  function Decode(s: string): Option<seq<Byte>> {
    if |s| % 4 == 1 then None
    else match Loose(s)
      case None => None
      case Some(bytes) => if Encode(bytes) != s then None else Some(bytes)
  }

  lemma EncodeLength(bytes: seq<Byte>)
    ensures |Encode(bytes)| % 4 != 1
  {}

  lemma OneByte(a: int)
    requires 0 <= a < 256
    ensures a / 4 * 4 + a % 4 * 16 / 16 == a
  {}

  lemma TwoBytes(a: int, b: int)
    requires 0 <= a < 256 && 0 <= b < 256
    ensures var x := a % 4 * 16 + b / 16; 0 <= x < 64 && a / 4 * 4 + x / 16 == a && x % 16 == b / 16
    ensures b / 16 * 16 + b % 16 * 4 / 4 == b
  {
    assert (a % 4 * 16 + b / 16) / 16 == a % 4;
  }

  lemma ThreeBytes(b: int, c: int)
    requires 0 <= b < 256 && 0 <= c < 256
    ensures var y := b % 16 * 4 + c / 64;
            0 <= y < 64 && b / 16 * 16 + y / 4 == b && y % 4 == c / 64 && c / 64 * 64 + c % 64 == c
  {
    assert (b % 16 * 4 + c / 64) / 4 == b % 16;
  }

  lemma LooseOne(x: Byte)
    ensures Loose(Encode([x])) == Some([x])
  {
    var a := x as int;
    OneByte(a);
    CharRoundTrip(a / 4);
    CharRoundTrip(a % 4 * 16);
    var s := Encode([x]);
    assert s == [ToChar(a / 4), ToChar(a % 4 * 16)];
  }

  lemma LooseTwo(x: Byte, y: Byte)
    ensures Loose(Encode([x, y])) == Some([x, y])
  {
    var a, b := x as int, y as int;
    TwoBytes(a, b);
    CharRoundTrip(a / 4);
    CharRoundTrip(a % 4 * 16 + b / 16);
    CharRoundTrip(b % 16 * 4);
    var s := Encode([x, y]);
    assert s == [ToChar(a / 4), ToChar(a % 4 * 16 + b / 16), ToChar(b % 16 * 4)];
  }

  lemma LooseStep(s: string, w: Sextet, x: Sextet, y: Sextet, z: Sextet, rest: seq<Byte>)
    requires |s| >= 4 && FromChar(s[0]) == Some(w) && FromChar(s[1]) == Some(x) && FromChar(s[2]) == Some(y)
             && FromChar(s[3]) == Some(z)
    requires Loose(s[4..]) == Some(rest)
    ensures Loose(s) == Some([(w * 4 + x / 16) as Byte, (x % 16 * 16 + y / 4) as Byte, (y % 4 * 64 + z) as Byte] + rest)
  {
    hide FromChar;
  }

  datatype Quad = Quad(w: Sextet, x: Sextet, y: Sextet, z: Sextet)

  function Regroup(a: Byte, b: Byte, c: Byte): Quad {
    var (p, q, r) := (a as int, b as int, c as int);
    Quad(p / 4, p % 4 * 16 + q / 16, q % 16 * 4 + r / 64, r % 64)
  }

  lemma RegroupInverts(a: Byte, b: Byte, c: Byte)
    ensures var q := Regroup(a, b, c);
            q.w * 4 + q.x / 16 == a as int && q.x % 16 * 16 + q.y / 4 == b as int && q.y % 4 * 64 + q.z == c as int
  {
    TwoBytes(a as int, b as int);
    ThreeBytes(b as int, c as int);
  }

  lemma EncodeStep(bytes: seq<Byte>)
    requires |bytes| > 2
    ensures var q := Regroup(bytes[0], bytes[1], bytes[2]);
            Encode(bytes) == [ToChar(q.w), ToChar(q.x), ToChar(q.y), ToChar(q.z)] + Encode(bytes[3..])
  {
    hide ToChar;
  }

  lemma LooseThree(bytes: seq<Byte>)
    requires |bytes| > 2 && Loose(Encode(bytes[3..])) == Some(bytes[3..])
    ensures Loose(Encode(bytes)) == Some(bytes)
  {
    hide Loose, Encode, Regroup, ToChar, FromChar;
    var q := Regroup(bytes[0], bytes[1], bytes[2]);
    RegroupInverts(bytes[0], bytes[1], bytes[2]);
    EncodeStep(bytes);
    CharRoundTrip(q.w);
    CharRoundTrip(q.x);
    CharRoundTrip(q.y);
    CharRoundTrip(q.z);
    var s := Encode(bytes);
    assert s[4..] == Encode(bytes[3..]);
    LooseStep(s, q.w, q.x, q.y, q.z, bytes[3..]);
    assert bytes == [bytes[0], bytes[1], bytes[2]] + bytes[3..];
  }

  lemma {:induction false} LooseInverts(bytes: seq<Byte>)
    ensures Loose(Encode(bytes)) == Some(bytes)
  {
    if |bytes| == 1 { LooseOne(bytes[0]); assert bytes == [bytes[0]]; }
    else if |bytes| == 2 { LooseTwo(bytes[0], bytes[1]); assert bytes == [bytes[0], bytes[1]]; }
    else if |bytes| > 2 { LooseInverts(bytes[3..]); LooseThree(bytes); }
  }

  /** Decoding inverts encoding on every byte string, and accepts exactly the encodings. */
  lemma DecodeInverts(bytes: seq<Byte>)
    ensures Decode(Encode(bytes)) == Some(bytes)
  {
    EncodeLength(bytes);
    LooseInverts(bytes);
  }

  lemma DecodeAcceptsExactlyEncodings(s: string, bytes: seq<Byte>)
    ensures Decode(s) == Some(bytes) <==> s == Encode(bytes)
  {
    DecodeInverts(bytes);
  }

  /** Two byte strings never share an encoding. */
  lemma EncodeIsInjective(a: seq<Byte>, b: seq<Byte>)
    requires Encode(a) == Encode(b)
    ensures a == b
  {
    DecodeInverts(a);
    DecodeInverts(b);
  }

  predicate Undotted(s: string) { forall i :: 0 <= i < |s| ==> s[i] != '.' }

  lemma {:induction false} EncodeIsUndotted(bytes: seq<Byte>)
    ensures Undotted(Encode(bytes))
  {
    if |bytes| > 2 {
      var b, c := bytes[1] as int, bytes[2] as int;
      ThreeBytes(b, c);
      EncodeIsUndotted(bytes[3..]);
    }
    if |bytes| > 1 { TwoBytes(bytes[0] as int, bytes[1] as int); }
  }
}
