/**
 * Admin password storage (backend/main.py hash_password / verify_password):
 * a stored hash is "<salt>:<digest>", the salt being 16 random bytes in hex and
 * the digest the hex SHA-256 of the password followed by the salt. SHA-256 and
 * the random salt are parameters of this model.
 */
module Passwords {
  import opened Text

  newtype Byte = b: int | 0 <= b < 256

  /** SHA-256 of the UTF-8 encoding of a string. */
  type Digest = string -> seq<Byte>

  predicate IsHexDigit(c: char)
  {
    ('0' <= c <= '9') || ('a' <= c <= 'f')
  }

  function HexDigit(d: int): (c: char)
    requires 0 <= d < 16
    ensures IsHexDigit(c)
  {
    if d < 10 then ('0' as int + d) as char else ('a' as int + d - 10) as char
  }

  /** Python's `bytes.hex()` / `hexdigest()`: two lower-case hex digits per byte. */
  function Hex(bytes: seq<Byte>): (h: string)
    ensures |h| == 2 * |bytes|
    ensures forall i :: 0 <= i < |h| ==> IsHexDigit(h[i])
  {
    if bytes == [] then []
    else
      var b := bytes[0] as int;
      [HexDigit(b / 16), HexDigit(b % 16)] + Hex(bytes[1..])
  }

  lemma HexHasNoColon(bytes: seq<Byte>)
    ensures ':' !in Hex(bytes)
  {
  }

  /** Different byte strings have different hex renderings. */
  lemma {:induction false} HexInjective(a: seq<Byte>, b: seq<Byte>)
    requires Hex(a) == Hex(b)
    ensures a == b
  {
    if a != [] {
      var x, y := a[0] as int, b[0] as int;
      assert Hex(a)[0] == HexDigit(x / 16) && Hex(b)[0] == HexDigit(y / 16);
      assert Hex(a)[1] == HexDigit(x % 16) && Hex(b)[1] == HexDigit(y % 16);
      assert x / 16 == y / 16 && x % 16 == y % 16;
      assert Hex(a)[2..] == Hex(a[1..]) && Hex(b)[2..] == Hex(b[1..]);
      HexInjective(a[1..], b[1..]);
      assert a == [a[0]] + a[1..] && b == [b[0]] + b[1..];
    }
  }

  /** `hash_password`: the salt in hex, a colon, and the hex digest of password + salt. */
  function HashPassword(password: string, salt: seq<Byte>, sha256: Digest): (h: string)
    ensures Count(h, ':') == 1
  {
    var s := Hex(salt);
    HexHasNoColon(salt);
    HexHasNoColon(sha256(password + s));
    var h := s + ":" + Hex(sha256(password + s));
    SplitPair(s, Hex(sha256(password + s)), ':');
    assert h == s + [':'] + Hex(sha256(password + s));
    h
  }

  /** `verify_password`: false unless the stored hash has exactly two colon-separated parts. */
  function VerifyPassword(password: string, hashed: string, sha256: Digest): (ok: bool)
    ensures ok ==> Count(hashed, ':') == 1
  {
    var parts := Split(hashed, ':');
    |parts| == 2 && Hex(sha256(password + parts[0])) == parts[1]
  }

  /** A password verifies against its own hash, whatever the salt and the digest function. */
  lemma HashThenVerify(password: string, salt: seq<Byte>, sha256: Digest)
    ensures VerifyPassword(password, HashPassword(password, salt, sha256), sha256)
  {
    var s := Hex(salt);
    var d := Hex(sha256(password + s));
    HexHasNoColon(salt);
    HexHasNoColon(sha256(password + s));
    SplitPair(s, d, ':');
    assert HashPassword(password, salt, sha256) == s + [':'] + d;
  }

  /**
   * Another password verifies against a hash exactly when its salted digest
   * equals the original's, i.e. only through a SHA-256 collision.
   */
  lemma VerifyOtherPassword(password: string, attempt: string, salt: seq<Byte>, sha256: Digest)
    ensures VerifyPassword(attempt, HashPassword(password, salt, sha256), sha256)
        <==> sha256(attempt + Hex(salt)) == sha256(password + Hex(salt))
  {
    var s := Hex(salt);
    var d := Hex(sha256(password + s));
    HexHasNoColon(salt);
    HexHasNoColon(sha256(password + s));
    SplitPair(s, d, ':');
    assert HashPassword(password, salt, sha256) == s + [':'] + d;
    if Hex(sha256(attempt + s)) == d {
      HexInjective(sha256(attempt + s), sha256(password + s));
    }
  }
}
