/** The cache file name of a URL (`getFileName`): the MD5 digest of the URL's
    absolute string, each byte written as two lower-case hexadecimal digits.
    MD5 itself is a foreign call and is passed in as a function value, which
    makes the name a deterministic function of the URL. */
module FileNames {
  import opened Common

  /** A 16-byte MD5 digest. */
  type Digest = d: Bytes | |d| == 16 witness seq(16, _ => 0)

  predicate IsHexDigit(c: char)
  {
    '0' <= c <= '9' || 'a' <= c <= 'f'
  }

  /** The lower-case hexadecimal digit of a value below 16. */
  function HexDigit(v: int): (c: char)
    requires 0 <= v < 16
    ensures IsHexDigit(c) && DigitValue(c) == v
  {
    if v < 10 then ('0' as int + v) as char else ('a' as int + v - 10) as char
  }

  /** The value of a hexadecimal digit. */
  function DigitValue(c: char): (v: int)
    requires IsHexDigit(c)
    ensures 0 <= v < 16
  {
    if c <= '9' then c as int - '0' as int else c as int - 'a' as int + 10
  }

  /** `String(format: "%02hhx", b)`: two digits, the high nibble first. */
  function Hex2(b: byte): (s: string)
    ensures |s| == 2 && IsHexDigit(s[0]) && IsHexDigit(s[1])
    ensures DigitValue(s[0]) * 16 + DigitValue(s[1]) == b as int
  {
    [HexDigit(b as int / 16), HexDigit(b as int % 16)]
  }

  /** `digest.map { String(format: "%02hhx", $0) }.joined()`. */
  function HexName(digest: Bytes): (name: string)
    ensures |name| == 2 * |digest|
    ensures forall i :: 0 <= i < |name| ==> IsHexDigit(name[i])
  {
    if digest == [] then [] else Hex2(digest[0]) + HexName(digest[1..])
  }

  /** Reads back a string of hexadecimal digit pairs. */
  function ParseHex(s: string): (bytes: Bytes)
    requires |s| % 2 == 0
    requires forall i :: 0 <= i < |s| ==> IsHexDigit(s[i])
    ensures |bytes| * 2 == |s|
  {
    if s == [] then [] else [(DigitValue(s[0]) * 16 + DigitValue(s[1])) as byte] + ParseHex(s[2..])
  }

  /** The formatting loses nothing: the digest can be read back from the name. */
  lemma {:induction false} ParseHexName(digest: Bytes)
    ensures ParseHex(HexName(digest)) == digest
  {
    if digest != [] {
      var name := HexName(digest);
      assert name[..2] == Hex2(digest[0]) && name[2..] == HexName(digest[1..]);
      ParseHexName(digest[1..]);
    }
  }

  /** Distinct digests give distinct file names, so two URLs share a cache file
      only when their MD5 digests collide. */
  lemma HexNameInjective(d1: Bytes, d2: Bytes)
    requires HexName(d1) == HexName(d2)
    ensures d1 == d2
  {
    ParseHexName(d1);
    ParseHexName(d2);
  }

  /** `getFileName(url)`: 32 lower-case hexadecimal digits. */
  function FileName(md5: string -> Digest, url: string): (name: string)
    ensures |name| == 32
    ensures forall i :: 0 <= i < |name| ==> IsHexDigit(name[i])
  {
    HexName(md5(url))
  }

  /** The name depends on the digest alone: two URLs get the same file name
      exactly when their digests are equal. */
  lemma FileNameCollision(md5: string -> Digest, u1: string, u2: string)
    ensures FileName(md5, u1) == FileName(md5, u2) <==> md5(u1) == md5(u2)
  {
    if FileName(md5, u1) == FileName(md5, u2) {
      HexNameInjective(md5(u1), md5(u2));
    }
  }
}
