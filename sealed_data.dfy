/**
 * The sealed-string format of examples/serde1.rs: a value is encrypted with
 * ChaCha20-Poly1305 (RFC 8439) under a fixed key and a fresh 96-bit nonce,
 * the nonce is prepended to the ciphertext, and the frame is written in the
 * URL-safe base64 alphabet without padding (section 5 of RFC 4648).
 *
 * The cipher, the nonce generator and the base64 codec are library code and
 * enter as parameters: the nonce as an argument, the cipher as an `Aead`
 * and base64 as a `Codec`, each with the promise its library makes.
 */
module SealedData {
  import opened Common

  /** ChaCha20-Poly1305 nonce length: 96 bits. */
  const NONCE_LEN: nat := 12
  /** ChaCha20-Poly1305 key length: 256 bits. */
  const KEY_LEN: nat := 32
  /** Length of the Poly1305 authentication tag appended to every ciphertext. */
  const TAG_LEN: nat := 16

  type Nonce = s: seq<byte> | |s| == NONCE_LEN witness seq(NONCE_LEN, _ => 0)
  type Key = s: seq<byte> | |s| == KEY_LEN witness seq(KEY_LEN, _ => 0)

  /** The hard-coded key: the ASCII bytes of "01234567890123456789012345678901". */
  const KEY: seq<byte> := [48, 49, 50, 51, 52, 53, 54, 55, 56, 57,
                           48, 49, 50, 51, 52, 53, 54, 55, 56, 57,
                           48, 49, 50, 51, 52, 53, 54, 55, 56, 57,
                           48, 49]

  /** `KEY.into()`: a byte slice becomes a cipher key only when it has exactly the key length. */
  function KeyFromSlice(s: seq<byte>): (r: Option<Key>)
    ensures r.Some? <==> |s| == KEY_LEN
    ensures r.Some? ==> r.value == s
  {
    if |s| == KEY_LEN then Some(s) else None
  }

  /** The hard-coded key is a valid ChaCha20-Poly1305 key, so the conversion never panics. */
  lemma KeyConverts()
    ensures |KEY| == KEY_LEN
    ensures KeyFromSlice(KEY) == Some(KEY)
  {
  }

  /** An authenticated cipher: `seal` encrypts and tags, `open` checks the tag and decrypts. */
  datatype Aead = Aead(seal: (Key, Nonce, seq<byte>) -> seq<byte>,
                       open: (Key, Nonce, seq<byte>) -> Option<seq<byte>>)

  /**
   * What ChaCha20-Poly1305 promises: opening what was sealed under the same
   * key and nonce gives the plaintext back, and a ciphertext is the
   * plaintext's length plus the tag.
   */
  ghost predicate IsChaCha20Poly1305(aead: Aead) {
    && (forall k, n, p :: aead.open(k, n, aead.seal(k, n, p)) == Some(p))
    && (forall k, n, p :: |aead.seal(k, n, p)| == |p| + TAG_LEN)
  }

  /** The byte layout `encrypt` builds: nonce first, then ciphertext. */
  function Frame(nonce: Nonce, ciphertext: seq<byte>): (r: seq<byte>)
    ensures |r| == NONCE_LEN + |ciphertext|
    ensures r[..NONCE_LEN] == nonce && r[NONCE_LEN..] == ciphertext
  {
    nonce + ciphertext
  }

  /** `decrypt`'s split at offset 12; `None` where the slice `[..12]` would panic. */
  function Split(decoded: seq<byte>): (r: Option<(Nonce, seq<byte>)>)
    ensures r.Some? <==> |decoded| >= NONCE_LEN
    ensures r.Some? ==> Frame(r.value.0, r.value.1) == decoded
  {
    if |decoded| < NONCE_LEN then None
    else
      var nonce: Nonce := decoded[..NONCE_LEN];
      Some((nonce, decoded[NONCE_LEN..]))
  }

  /** Splitting a frame recovers exactly the nonce and the ciphertext it was built from. */
  lemma SplitFrame(nonce: Nonce, ciphertext: seq<byte>)
    ensures Split(Frame(nonce, ciphertext)) == Some((nonce, ciphertext))
  {
  }

  /** Splitting is injective on frames: equal frames have equal parts. */
  lemma FrameInjective(n1: Nonce, c1: seq<byte>, n2: Nonce, c2: seq<byte>)
    requires Frame(n1, c1) == Frame(n2, c2)
    ensures n1 == n2 && c1 == c2
  {
    SplitFrame(n1, c1);
    SplitFrame(n2, c2);
  }

  /**
   * `encrypt`: seal under the key and `nonce`, frame, encode. The encoded
   * string decodes to the frame of the nonce and the sealed data: 12 nonce
   * bytes, then the plaintext's length plus the 16 tag bytes.
   */
  function Encrypt(data: seq<byte>, nonce: Nonce, aead: Aead, base64: Codec<seq<byte>, string>): (r: string)
    ensures base64.RoundTrips() ==> base64.dec(r) == Some(Frame(nonce, aead.seal(KEY, nonce, data)))
    ensures base64.RoundTrips() && IsChaCha20Poly1305(aead) ==>
              |base64.dec(r).value| == NONCE_LEN + |data| + TAG_LEN
  {
    var key := KeyFromSlice(KEY).value;
    base64.enc(Frame(nonce, aead.seal(key, nonce, data)))
  }

  /**
   * How `decrypt` can fail. Only `InvalidBase64` is returned as an error;
   * the other two are panics in the source (the `[..12]` slice of a short
   * input, and `unwrap` on a tag mismatch).
   */
  datatype DecryptError = InvalidBase64 | ShortInput | AuthenticationFailed {
    predicate IsPanic() {
      !InvalidBase64?
    }
  }

  /** `decrypt`: decode, split at offset 12, open. */
  function Decrypt(encoded: string, aead: Aead, base64: Codec<seq<byte>, string>): (r: Result<seq<byte>, DecryptError>)
    ensures r == Failure(InvalidBase64) <==> base64.dec(encoded).None?
    ensures r == Failure(ShortInput) <==> base64.dec(encoded).Some? && |base64.dec(encoded).value| < NONCE_LEN
    ensures r.Success? || r == Failure(AuthenticationFailed) <==>
              base64.dec(encoded).Some? && |base64.dec(encoded).value| >= NONCE_LEN
    ensures r.Success? || r == Failure(AuthenticationFailed) ==>
              var decoded := base64.dec(encoded).value;
              r == match aead.open(KEY, decoded[..NONCE_LEN], decoded[NONCE_LEN..])
                   case Some(plain) => Success(plain)
                   case None => Failure(AuthenticationFailed)
  {
    var key := KeyFromSlice(KEY).value;
    match base64.dec(encoded)
    case None => Failure(InvalidBase64)
    case Some(decoded) =>
      match Split(decoded)
      case None => Failure(ShortInput)
      case Some((nonce, ciphertext)) =>
        match aead.open(key, nonce, ciphertext)
        case None => Failure(AuthenticationFailed)
        case Some(plain) => Success(plain)
  }

  /** Whatever nonce was drawn, decrypting an encryption gives the data back. */
  lemma {:induction false} DecryptEncrypt(data: seq<byte>, nonce: Nonce, aead: Aead, base64: Codec<seq<byte>, string>)
    requires IsChaCha20Poly1305(aead) && base64.RoundTrips()
    ensures Decrypt(Encrypt(data, nonce, aead, base64), aead, base64) == Success(data)
  {
    var ciphertext := aead.seal(KEY, nonce, data);
    SplitFrame(nonce, ciphertext);
  }
}
