/**
 * The credential token sent in the `Authorization: Basic <token>` header of every
 * vendor request (`computeHash` in the MiR wrapper).
 *
 * The token is Base64( username ":" lower-hex( SHA-256( password ) ) ).
 * SHA-256 and Base64 are library code whose internals are not modelled: they are
 * the two fields of a `Crypto` value handed to `ComputeHash`. The hex rendering of
 * the digest (`digest('hex')`) is modelled, so that the 64 lower-case hex digits
 * and the position of the separating colon can be proved.
 */
module Auth {
  import opened Wrappers

  newtype byte = b: int | 0 <= b < 256

  /** A SHA-256 digest: exactly 32 bytes. */
  type Digest = d: seq<byte> | |d| == 32 witness seq(32, i => 0)

  /** The two library primitives `computeHash` relies on, left uninterpreted. */
  datatype Crypto = Crypto(sha256: string -> Digest, base64: string -> string)

  predicate IsLowerHexDigit(c: char) {
    ('0' <= c <= '9') || ('a' <= c <= 'f')
  }

  function HexDigit(n: int): (c: char)
    requires 0 <= n < 16
    ensures IsLowerHexDigit(c)
  {
    if n < 10 then ('0' as int + n) as char else ('a' as int + n - 10) as char
  }

  /** The value of one lower-case hex digit; upper-case and other characters are rejected. */
  function HexValue(c: char): (r: Option<int>)
    ensures r.Some? <==> IsLowerHexDigit(c)
    ensures r.Some? ==> 0 <= r.value < 16 && HexDigit(r.value) == c
  {
    if '0' <= c <= '9' then Some(c as int - '0' as int)
    else if 'a' <= c <= 'f' then Some(c as int - 'a' as int + 10)
    else None
  }

  /** Node's `digest('hex')`: two lower-case hex digits per byte, high nibble first. */
  function LowerHex(bytes: seq<byte>): (s: string)
    ensures |s| == 2 * |bytes|
    ensures forall i :: 0 <= i < |s| ==> IsLowerHexDigit(s[i])
  {
    if bytes == [] then []
    else [HexDigit(bytes[0] as int / 16), HexDigit(bytes[0] as int % 16)] + LowerHex(bytes[1..])
  }

  /** The inverse of `LowerHex`: `None` on an odd length or a character that is not a lower-case hex digit. */
  function HexDecode(s: string): (r: Option<seq<byte>>)
    ensures r.Some? ==> 2 * |r.value| == |s|
  {
    if s == [] then Some([])
    else if |s| == 1 then None
    else match (HexValue(s[0]), HexValue(s[1]), HexDecode(s[2..]))
      case (Some(hi), Some(lo), Some(rest)) => Some([(hi * 16 + lo) as byte] + rest)
      case _ => None
  }

  lemma {:induction false} HexRoundTrip(bytes: seq<byte>)
    ensures HexDecode(LowerHex(bytes)) == Some(bytes)
  {
    if bytes != [] {
      var s := LowerHex(bytes);
      var b := bytes[0] as int;
      assert s[2..] == LowerHex(bytes[1..]);
      HexRoundTrip(bytes[1..]);
      assert HexValue(s[0]) == Some(b / 16);
      assert HexValue(s[1]) == Some(b % 16);
      assert [(b / 16 * 16 + b % 16) as byte] + bytes[1..] == bytes;
    }
  }

  /** The text that is Base64-encoded: the user name, a colon, and the hex digest of the password. */
  function CredentialText(crypto: Crypto, username: string, password: string): string
  {
    username + ":" + LowerHex(crypto.sha256(password))
  }

  /** The credential text is the user name, one colon, and exactly 64 lower-case hex digits. */
  lemma CredentialTextFormat(crypto: Crypto, username: string, password: string)
    ensures var text := CredentialText(crypto, username, password);
      && |text| == |username| + 65
      && text[..|username|] == username && text[|username|] == ':'
      && forall i :: |username| < i < |text| ==> IsLowerHexDigit(text[i])
  {
    var text := CredentialText(crypto, username, password);
    var hex := LowerHex(crypto.sha256(password));
    assert forall i :: |username| < i < |text| ==> text[i] == hex[i - |username| - 1];
  }

  /** `computeHash(username, password)`: no input is validated, every pair yields a token. */
  function ComputeHash(crypto: Crypto, username: string, password: string): string
  {
    crypto.base64(CredentialText(crypto, username, password))
  }

  /** Index of the first colon in `text`, if any. */
  function FirstColon(text: string): (r: Option<nat>)
    ensures r.Some? ==> r.value < |text| && text[r.value] == ':' && ':' !in text[..r.value]
    ensures r.None? ==> ':' !in text
  {
    if text == [] then None
    else if text[0] == ':' then Some(0)
    else match FirstColon(text[1..])
      case Some(i) => (assert text[..i + 1] == [text[0]] + text[1..][..i]; Some(i + 1))
      case None => (assert text == [text[0]] + text[1..]; None)
  }

  /**
   * How a receiver reads a credential text back: split at the first colon, then
   * hex-decode what follows it.
   */
  function SplitCredential(text: string): (r: Option<(string, seq<byte>)>)
    ensures r.Some? ==> ':' !in r.value.0
  {
    match FirstColon(text)
    case None => None
    case Some(i) =>
      match HexDecode(text[i + 1..])
      case None => None
      case Some(digest) => Some((text[..i], digest))
  }

  /** Reading the credential text back yields the user name and the password's digest, unless the name holds a colon. */
  lemma CredentialRoundTrip(crypto: Crypto, username: string, password: string)
    requires ':' !in username
    ensures SplitCredential(CredentialText(crypto, username, password)) == Some((username, crypto.sha256(password)))
  {
    var text := CredentialText(crypto, username, password);
    var hex := LowerHex(crypto.sha256(password));
    assert text == username + ":" + hex;
    assert text[..|username|] == username;
    assert FirstColon(text) == Some(|username|);
    assert text[|username| + 1..] == hex;
    HexRoundTrip(crypto.sha256(password));
  }

  /** A user name holding a colon is not recovered: the split happens at the name's own colon. */
  lemma ColonInUsernameIsMisread(crypto: Crypto, password: string)
    ensures SplitCredential(CredentialText(crypto, "a:b", password)).None?
  {
    var text := CredentialText(crypto, "a:b", password);
    assert text[1] == ':' && text[0] == 'a';
    assert FirstColon(text) == Some(1);
    var rest := text[2..];
    assert rest[0] == 'b';
    assert HexValue(rest[0]).Some?;
    assert rest[1] == ':';
    assert HexDecode(rest).None?;
  }

  /**
   * How a receiver can read any credential text back: the digest is always 64 hex
   * digits, so the colon sits 65 characters from the end whatever the user name holds.
   */
  function SplitFromEnd(text: string): Option<(string, seq<byte>)>
  {
    if |text| < 65 || text[|text| - 65] != ':' then None
    else match HexDecode(text[|text| - 64..])
      case None => None
      case Some(digest) => Some((text[..|text| - 65], digest))
  }

  /** Splitting 65 characters from the end recovers every user name, colons included, and the digest. */
  lemma CredentialRoundTripFromEnd(crypto: Crypto, username: string, password: string)
    ensures SplitFromEnd(CredentialText(crypto, username, password)) == Some((username, crypto.sha256(password)))
  {
    var text := CredentialText(crypto, username, password);
    var hex := LowerHex(crypto.sha256(password));
    assert text == username + ":" + hex;
    assert text[..|username|] == username;
    assert text[|username| + 1..] == hex;
    HexRoundTrip(crypto.sha256(password));
  }

  /**
   * When Base64 is injective, the token determines the user name and the password's
   * digest.
   */
  lemma TokenDeterminesCredentials(crypto: Crypto, u1: string, p1: string, u2: string, p2: string)
    requires forall a, b :: crypto.base64(a) == crypto.base64(b) ==> a == b
    requires ComputeHash(crypto, u1, p1) == ComputeHash(crypto, u2, p2)
    ensures u1 == u2 && crypto.sha256(p1) == crypto.sha256(p2)
  {
    CredentialRoundTripFromEnd(crypto, u1, p1);
    CredentialRoundTripFromEnd(crypto, u2, p2);
  }
}
