/** The platform cryptography engine (`window.crypto`), abstracted as an injected provider.
    Its algorithms are not modelled: each primitive is a function field, and the laws the
    core depends on are stated as the predicate `Sound`. */
module WebCrypto {
  import opened Wrappers
  import opened Bytes

  /** Opaque `CryptoKey` handles. */
  datatype RsaPublicKey = RsaPublicKey(id: nat)
  datatype RsaPrivateKey = RsaPrivateKey(id: nat)
  datatype AesKey = AesKey(id: nat)

  /** The AES-GCM nonce `getRandomValues(new Uint8Array(12))` draws. */
  const IvLength := 12
  type Iv = s: seq<byte> | |s| == IvLength witness [0, 0, 0, 0, 0, 0, 0, 0, 0, 0, 0, 0]

  /** SHA-256 digest length (section 6.2 of FIPS 180-4). */
  const DigestLength := 32
  /** AES-GCM authentication tag length, the Web Crypto default of 128 bits
      (section 5.2.1.2 of NIST SP 800-38D). */
  const TagLength := 16

  /** The primitives, each returning `Failure` where the engine rejects a promise. */
  datatype Provider = Provider(
    importSpki: seq<byte> -> Result<RsaPublicKey>,
    importPkcs8: seq<byte> -> Result<RsaPrivateKey>,
    rsaOaepEncrypt: (RsaPublicKey, seq<byte>) -> Result<seq<byte>>,
    rsaOaepDecrypt: (RsaPrivateKey, seq<byte>) -> Result<seq<byte>>,
    exportRaw: AesKey -> seq<byte>,
    importRaw: seq<byte> -> Result<AesKey>,
    aesGcmEncrypt: (AesKey, seq<byte>, seq<byte>) -> Result<seq<byte>>,
    aesGcmDecrypt: (AesKey, seq<byte>, seq<byte>) -> Result<seq<byte>>,
    sha256: seq<byte> -> seq<byte>,
    isKeyPair: (RsaPublicKey, RsaPrivateKey) -> bool)

  /** Every digest is 32 bytes long. */
  ghost predicate DigestsAreFixedLength(p: Provider) {
    forall m :: |p.sha256(m)| == DigestLength
  }

  /** AES-GCM output is the ciphertext with the tag appended, and decryption under the
      same key and nonce inverts encryption (NIST SP 800-38D, section 7). */
  ghost predicate GcmInverts(p: Provider) {
    forall k, iv, m, c :: p.aesGcmEncrypt(k, iv, m) == Success(c) ==>
      |c| == |m| + TagLength && p.aesGcmDecrypt(k, iv, c) == Success(m)
  }

  /** RSA-OAEP decryption with the private half of a key pair inverts encryption with
      its public half (RFC 8017, section 7.1). */
  ghost predicate OaepInverts(p: Provider) {
    forall pub, priv, m, w :: p.isKeyPair(pub, priv) && p.rsaOaepEncrypt(pub, m) == Success(w) ==>
      p.rsaOaepDecrypt(priv, w) == Success(m)
  }

  /** Importing the raw export of an AES key gives back that key. */
  ghost predicate RawKeysRoundTrip(p: Provider) {
    forall k :: p.importRaw(p.exportRaw(k)) == Success(k)
  }

  /** The laws of a correct engine that the envelope relies on. */
  ghost predicate Sound(p: Provider) {
    DigestsAreFixedLength(p) && GcmInverts(p) && OaepInverts(p) && RawKeysRoundTrip(p)
  }

  /** A transparent stand-in engine: "encryption" appends a zero tag and keys are their ids. */
  function Transparent(): Provider {
    Provider(
      (b: seq<byte>) => Success(RsaPublicKey(|b|)),
      (b: seq<byte>) => Success(RsaPrivateKey(|b|)),
      (k: RsaPublicKey, m: seq<byte>) => Success(m),
      (k: RsaPrivateKey, w: seq<byte>) => Success(w),
      (k: AesKey) => seq(k.id, _ => 0),
      (raw: seq<byte>) => Success(AesKey(|raw|)),
      (k: AesKey, iv: seq<byte>, m: seq<byte>) => Success(m + seq(TagLength, _ => 0)),
      (k: AesKey, iv: seq<byte>, c: seq<byte>) =>
        if |c| < TagLength then Failure("OperationError") else Success(c[..|c| - TagLength]),
      (m: seq<byte>) => seq(DigestLength, _ => 0),
      (pub: RsaPublicKey, priv: RsaPrivateKey) => pub.id == priv.id)
  }

  /** The laws in `Sound` are consistent: the stand-in engine satisfies all of them. */
  lemma TransparentIsSound()
    ensures Sound(Transparent())
  {
    var p := Transparent();
    forall k, iv, m, c | p.aesGcmEncrypt(k, iv, m) == Success(c)
      ensures |c| == |m| + TagLength && p.aesGcmDecrypt(k, iv, c) == Success(m)
    {
      assert c == m + seq(TagLength, _ => 0);
      assert c[..|c| - TagLength] == m;
    }
    forall k ensures p.importRaw(p.exportRaw(k)) == Success(k) {
      assert |p.exportRaw(k)| == k.id;
    }
  }
}
