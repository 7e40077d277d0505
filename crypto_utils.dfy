/** The hybrid file envelope built by `encryptFile` and opened by `decryptFile`, and the
    key-import wrappers around it.

    Encryption: payload = SHA-256(file) ‖ file; envelope = IV ‖ AES-GCM(payload);
    the AES key travels separately, wrapped with RSA-OAEP. */
module CryptoUtils {
  import opened Wrappers
  import opened JsText
  import opened Bytes
  import opened Hex
  import opened WebCrypto
  import opened Progress

  // Messages thrown by the module. They are written as concatenations of short phrases
  // so that the verifier can reason about which substrings they contain.

  const PublicKeyImportMessage: string :=
    "Invalid Public " + "RSA key. Please " + "use a valid SPKI " + "key in HEX " + "format."
  const PrivateKeyImportMessage: string :=
    "Invalid Private " + "RSA key. Please " + "use a valid " + "PKCS#8 key in " + "HEX format."
  const KeyUnwrapMessage: string :=
    "Failed to decrypt " + "AES key. The " + "provided private " + "key is likely " + "incorrect or "
    + "does not match " + "the " + "public key " + "used for " + "encryption."
  const ContentMessage: string :=
    "Failed to decrypt " + "file content. " + "The encrypted " + "data may be " + "corrupted" + "."
  const IntegrityMessage: string :=
    "Integrity check " + "failed: " + "Hashes do not match" + ". The file may " + "be "
    + "corrupted" + " or has been " + "tampered with."

  // Progress statuses.

  const KeyGeneratedStatus := "Generated random AES-256 key."
  const DigestStatus := "Calculated SHA-256 digest of the file."
  const ContentEncryptedStatus := "Encrypted file content with AES-256-GCM."
  const KeyWrappedStatus := "Encrypted AES key with RSA public key."
  const StoringStatus := "Storing encrypted file on server..."
  const KeyUnwrappedStatus := "Successfully decrypted the AES key."
  const ContentDecryptedStatus := "File content has been decrypted."
  const IntegrityStatus := "Integrity verified successfully."

  /** What `importRsaPublicKey` resolves to: the imported key, or the fixed message
      whichever of hex decoding or SPKI import fails. */
  function PublicKeyOf(p: Provider, hexKey: string): (r: Result<RsaPublicKey>)
    ensures r.Failure? ==> r.error == PublicKeyImportMessage
    ensures r.Success? <==> ValidHex(hexKey) && p.importSpki(Decoded(hexKey)).Success?
    ensures r.Success? ==> r == p.importSpki(Decoded(hexKey))
  {
    if !ValidHex(hexKey) then Failure(PublicKeyImportMessage)
    else match p.importSpki(Decoded(hexKey))
      case Failure(_) => Failure(PublicKeyImportMessage)
      case Success(k) => Success(k)
  }

  /** What `importRsaPrivateKey` resolves to, with the PKCS#8 import. */
  function PrivateKeyOf(p: Provider, hexKey: string): (r: Result<RsaPrivateKey>)
    ensures r.Failure? ==> r.error == PrivateKeyImportMessage
    ensures r.Success? <==> ValidHex(hexKey) && p.importPkcs8(Decoded(hexKey)).Success?
    ensures r.Success? ==> r == p.importPkcs8(Decoded(hexKey))
  {
    if !ValidHex(hexKey) then Failure(PrivateKeyImportMessage)
    else match p.importPkcs8(Decoded(hexKey))
      case Failure(_) => Failure(PrivateKeyImportMessage)
      case Success(k) => Success(k)
  }

  /** `importRsaPublicKey(hexKey)`: decode the hex, import it as SPKI, and replace any
      failure by the fixed message. */
  method ImportRsaPublicKey(p: Provider, hexKey: string) returns (r: Result<RsaPublicKey>)
    ensures r == PublicKeyOf(p, hexKey)
  {
    var keyBuffer := HexToBuffer(hexKey);
    if keyBuffer.Failure? {
      return Failure(PublicKeyImportMessage);
    }
    var imported := p.importSpki(keyBuffer.value);
    if imported.Failure? {
      return Failure(PublicKeyImportMessage);
    }
    return imported;
  }

  /** `importRsaPrivateKey(hexKey)`. */
  method ImportRsaPrivateKey(p: Provider, hexKey: string) returns (r: Result<RsaPrivateKey>)
    ensures r == PrivateKeyOf(p, hexKey)
  {
    var keyBuffer := HexToBuffer(hexKey);
    if keyBuffer.Failure? {
      return Failure(PrivateKeyImportMessage);
    }
    var imported := p.importPkcs8(keyBuffer.value);
    if imported.Failure? {
      return Failure(PrivateKeyImportMessage);
    }
    return imported;
  }

  /** A hex key that is the encoding of an importable key is accepted: the hex exports
      written by key generation import back to the key they encode. */
  lemma ImportAcceptsEncodedKeys(p: Provider, spki: seq<byte>, pkcs8: seq<byte>)
    ensures p.importSpki(spki).Success? ==> PublicKeyOf(p, BufferToHex(spki)) == p.importSpki(spki)
    ensures p.importPkcs8(pkcs8).Success? ==> PrivateKeyOf(p, BufferToHex(pkcs8)) == p.importPkcs8(pkcs8)
  {
    DecodeEncoded(spki);
    DecodeEncoded(pkcs8);
  }

  /** The two blobs `encryptFile` returns. */
  datatype Encrypted = Encrypted(fileBlob: seq<byte>, aesKeyBlob: seq<byte>)

  /** The outcome of an operation together with the progress objects it reported. */
  datatype Run<T> = Run(result: Result<T>, events: seq<Progress>)

  /** What `encryptFile` does, given the fresh key `generateKey` yields (or its failure) and
      the random `iv`. A rejected primitive ends the run with its own message. */
  function Encrypt(p: Provider, generated: Result<AesKey>, iv: Iv, file: seq<byte>, pub: RsaPublicKey): (r: Run<Encrypted>)
    ensures NoErrors(r.events)
    ensures r.result.Success? ==> |r.result.value.fileBlob| >= IvLength && r.result.value.fileBlob[..IvLength] == iv
  {
    if generated.Failure? then Run(Failure(generated.error), [])
    else
      var key := generated.value;
      var hashed := [Event(1, KeyGeneratedStatus), Event(2, DigestStatus)];
      match p.aesGcmEncrypt(key, iv, p.sha256(file) + file)
      case Failure(e) => Run(Failure(e), hashed)
      case Success(content) =>
        var encrypted := hashed + [Event(3, ContentEncryptedStatus)];
        match p.rsaOaepEncrypt(pub, p.exportRaw(key))
        case Failure(e) => Run(Failure(e), encrypted)
        case Success(wrapped) =>
          Run(Success(Encrypted(iv + content, wrapped)),
              encrypted + [Event(4, KeyWrappedStatus), Event(5, StoringStatus)])
  }

  /** `encryptFile(file, rsaPublicKey, onProgress)`: the payload and the envelope are
      assembled in preallocated buffers with `set`, and `onProgress` is the returned trace. */
  method EncryptFile(p: Provider, generated: Result<AesKey>, iv: Iv, file: seq<byte>, pub: RsaPublicKey)
    returns (r: Result<Encrypted>, events: seq<Progress>)
    ensures Run(r, events) == Encrypt(p, generated, iv, file, pub)
  {
    events := [];
    if generated.Failure? {
      return Failure(generated.error), events;
    }
    var aesKey := generated.value;
    events := events + [Event(1, KeyGeneratedStatus)];

    var hashBuffer := p.sha256(file);
    events := events + [Event(2, DigestStatus)];

    var dataToEncrypt := new byte[|hashBuffer| + |file|];
    TypedArraySet(dataToEncrypt, hashBuffer, 0);
    TypedArraySet(dataToEncrypt, file, |hashBuffer|);
    assert dataToEncrypt[..] == hashBuffer + file;
    var encryptedContent := p.aesGcmEncrypt(aesKey, iv, dataToEncrypt[..]);
    if encryptedContent.Failure? {
      return Failure(encryptedContent.error), events;
    }
    events := events + [Event(3, ContentEncryptedStatus)];

    var exportedRawAesKey := p.exportRaw(aesKey);
    var encryptedAesKey := p.rsaOaepEncrypt(pub, exportedRawAesKey);
    if encryptedAesKey.Failure? {
      return Failure(encryptedAesKey.error), events;
    }
    events := events + [Event(4, KeyWrappedStatus)];
    events := events + [Event(5, StoringStatus)];

    var finalContent := new byte[|iv| + |encryptedContent.value|];
    TypedArraySet(finalContent, iv, 0);
    TypedArraySet(finalContent, encryptedContent.value, |iv|);
    assert finalContent[..] == iv + encryptedContent.value;
    r := Success(Encrypted(finalContent[..], encryptedAesKey.value));
  }

  /** What `decryptFile` does: unwrap the AES key, split the envelope at 12, decrypt,
      split the payload at 32, and compare the hex of the stored and recomputed digests. */
  function Decrypt(p: Provider, envelope: seq<byte>, wrappedKey: seq<byte>, priv: RsaPrivateKey): (r: Run<seq<byte>>)
    ensures NoErrors(r.events)
    ensures r.result.Failure? ==> r.result.error == KeyUnwrapMessage || r.result.error == ContentMessage || r.result.error == IntegrityMessage
  {
    match p.rsaOaepDecrypt(priv, wrappedKey)
    case Failure(_) => Run(Failure(KeyUnwrapMessage), [])
    case Success(rawKey) =>
      match p.importRaw(rawKey)
      case Failure(_) => Run(Failure(KeyUnwrapMessage), [])
      case Success(aesKey) =>
        var unwrapped := [EventWithData(1, KeyUnwrappedStatus, Data(Some(BufferToHex(rawKey)), None))];
        match p.aesGcmDecrypt(aesKey, SliceTo(envelope, IvLength), SliceFrom(envelope, IvLength))
        case Failure(_) => Run(Failure(ContentMessage), unwrapped)
        case Success(combined) =>
          var decrypted := unwrapped + [Event(2, ContentDecryptedStatus)];
          var content := SliceFrom(combined, DigestLength);
          var calculatedHex := BufferToHex(p.sha256(content));
          if BufferToHex(SliceTo(combined, DigestLength)) != calculatedHex then
            Run(Failure(IntegrityMessage), decrypted)
          else
            Run(Success(content), decrypted + [EventWithData(3, IntegrityStatus, Data(None, Some(calculatedHex)))])
  }

  /** `decryptFile(encryptedFileBuffer, encryptedAesKeyBuffer, rsaPrivateKey, onProgress)`. */
  method DecryptFile(p: Provider, encryptedFileBuffer: seq<byte>, encryptedAesKeyBuffer: seq<byte>, priv: RsaPrivateKey)
    returns (r: Result<seq<byte>>, events: seq<Progress>)
    ensures Run(r, events) == Decrypt(p, encryptedFileBuffer, encryptedAesKeyBuffer, priv)
  {
    events := [];
    // Step 1: unwrap the AES key.
    var aesKey: AesKey;
    var decryptedAesKeyBytes := p.rsaOaepDecrypt(priv, encryptedAesKeyBuffer);
    if decryptedAesKeyBytes.Failure? {
      return Failure(KeyUnwrapMessage), events;
    }
    var imported := p.importRaw(decryptedAesKeyBytes.value);
    if imported.Failure? {
      return Failure(KeyUnwrapMessage), events;
    }
    aesKey := imported.value;
    events := events + [EventWithData(1, KeyUnwrappedStatus, Data(Some(BufferToHex(decryptedAesKeyBytes.value)), None))];

    // Step 2: decrypt the envelope.
    var decryptedCombinedData: seq<byte>;
    var iv := SliceTo(encryptedFileBuffer, 12);
    var encryptedData := SliceFrom(encryptedFileBuffer, 12);
    var decrypted := p.aesGcmDecrypt(aesKey, iv, encryptedData);
    if decrypted.Failure? {
      return Failure(ContentMessage), events;
    }
    decryptedCombinedData := decrypted.value;
    events := events + [Event(2, ContentDecryptedStatus)];

    // Step 3: verify the digest.
    var decryptedHash := SliceTo(decryptedCombinedData, 32);
    var decryptedFileContent := SliceFrom(decryptedCombinedData, 32);
    var calculatedHashBuffer := p.sha256(decryptedFileContent);
    var decryptedHashHex := BufferToHex(decryptedHash);
    var calculatedHashHex := BufferToHex(calculatedHashBuffer);
    if decryptedHashHex != calculatedHashHex {
      return Failure(IntegrityMessage), events;
    }
    events := events + [EventWithData(3, IntegrityStatus, Data(None, Some(calculatedHashHex)))];
    r := Success(decryptedFileContent);
  }

  // ----- Properties -----

  /** The payload is the 32-byte digest followed by the file, and splitting it at 32
      recovers both parts. */
  lemma PayloadLayout(p: Provider, file: seq<byte>)
    requires DigestsAreFixedLength(p)
    ensures |p.sha256(file) + file| == DigestLength + |file|
    ensures SliceTo(p.sha256(file) + file, DigestLength) == p.sha256(file)
    ensures SliceFrom(p.sha256(file) + file, DigestLength) == file
  {
    SliceConcat(p.sha256(file), file);
  }

  /** A successful encryption yields the IV followed by the AES-GCM output of the payload;
      the envelope is 12 + 16 + 32 bytes longer than the file. */
  lemma EnvelopeLayout(p: Provider, generated: Result<AesKey>, iv: Iv, file: seq<byte>, pub: RsaPublicKey)
    requires Sound(p)
    requires Encrypt(p, generated, iv, file, pub).result.Success?
    ensures var blob := Encrypt(p, generated, iv, file, pub).result.value.fileBlob;
      && |blob| == IvLength + TagLength + DigestLength + |file|
      && SliceTo(blob, IvLength) == iv
      && p.aesGcmEncrypt(generated.value, iv, p.sha256(file) + file) == Success(SliceFrom(blob, IvLength))
  {
    var content := p.aesGcmEncrypt(generated.value, iv, p.sha256(file) + file).value;
    SliceConcat(iv, content);
  }

  /** `encryptFile` reports steps 1, 2, ... in order with no error flag, and where it stops
      tells which primitive rejected: nothing before the key exists, 2 steps when AES-GCM
      fails, 3 when RSA-OAEP fails, all 5 on success. */
  lemma EncryptProgress(p: Provider, generated: Result<AesKey>, iv: Iv, file: seq<byte>, pub: RsaPublicKey)
    ensures var run := Encrypt(p, generated, iv, file, pub);
      && Steps(run.events) == Ascending(1, |run.events| + 1)
      && NoErrors(run.events)
      && (|run.events| == 0 <==> generated.Failure?)
      && (|run.events| == 2 <==> generated.Success? && p.aesGcmEncrypt(generated.value, iv, p.sha256(file) + file).Failure?)
      && (|run.events| == 3 <==> generated.Success? && p.aesGcmEncrypt(generated.value, iv, p.sha256(file) + file).Success?
                                 && p.rsaOaepEncrypt(pub, p.exportRaw(generated.value)).Failure?)
      && (|run.events| == 5 <==> run.result.Success?)
      && (run.result.Failure? ==> run.events == [] || |run.events| == 2 || |run.events| == 3)
  {
  }

  /** An envelope whose key unwraps and whose content decrypts to a digest followed by
      the content it is the digest of opens to that content, reporting steps 1, 2 and 3. */
  lemma DecryptAccepts(p: Provider, envelope: seq<byte>, wrappedKey: seq<byte>, priv: RsaPrivateKey,
                       rawKey: seq<byte>, aesKey: AesKey, file: seq<byte>)
    requires DigestsAreFixedLength(p)
    requires p.rsaOaepDecrypt(priv, wrappedKey) == Success(rawKey) && p.importRaw(rawKey) == Success(aesKey)
    requires p.aesGcmDecrypt(aesKey, SliceTo(envelope, IvLength), SliceFrom(envelope, IvLength)) == Success(p.sha256(file) + file)
    ensures Decrypt(p, envelope, wrappedKey, priv) ==
      Run(Success(file),
          [EventWithData(1, KeyUnwrappedStatus, Data(Some(BufferToHex(rawKey)), None)),
           Event(2, ContentDecryptedStatus),
           EventWithData(3, IntegrityStatus, Data(None, Some(BufferToHex(p.sha256(file)))))])
  {
    PayloadLayout(p, file);
  }

  /** Encryption followed by decryption with the matching private key gives the file back,
      reporting steps 1, 2 and 3: the decryption splits at exactly the offsets where
      encryption joined. */
  lemma RoundTrip(p: Provider, generated: Result<AesKey>, iv: Iv, file: seq<byte>, pub: RsaPublicKey, priv: RsaPrivateKey)
    requires Sound(p) && p.isKeyPair(pub, priv)
    requires Encrypt(p, generated, iv, file, pub).result.Success?
    ensures var blobs := Encrypt(p, generated, iv, file, pub).result.value;
      Decrypt(p, blobs.fileBlob, blobs.aesKeyBlob, priv) ==
        Run(Success(file),
            [EventWithData(1, KeyUnwrappedStatus, Data(Some(BufferToHex(p.exportRaw(generated.value))), None)),
             Event(2, ContentDecryptedStatus),
             EventWithData(3, IntegrityStatus, Data(None, Some(BufferToHex(p.sha256(file)))))])
  {
    var key := generated.value;
    var blobs := Encrypt(p, generated, iv, file, pub).result.value;
    var content := p.aesGcmEncrypt(key, iv, p.sha256(file) + file).value;
    assert blobs.fileBlob == iv + content;
    assert p.rsaOaepEncrypt(pub, p.exportRaw(key)) == Success(blobs.aesKeyBlob);
    assert p.rsaOaepDecrypt(priv, blobs.aesKeyBlob) == Success(p.exportRaw(key));
    assert p.importRaw(p.exportRaw(key)) == Success(key);
    SliceConcat(iv, content);
    assert p.aesGcmDecrypt(key, iv, content) == Success(p.sha256(file) + file);
    DecryptAccepts(p, blobs.fileBlob, blobs.aesKeyBlob, priv, p.exportRaw(key), key, file);
  }

  /** Every way `decryptFile` can end: exactly the three messages it throws, each after a
      fixed prefix of its progress steps, and all three steps on success. */
  lemma DecryptOutcomes(p: Provider, envelope: seq<byte>, wrappedKey: seq<byte>, priv: RsaPrivateKey)
    ensures var run := Decrypt(p, envelope, wrappedKey, priv);
      && NoErrors(run.events)
      && (run.result.Failure? ==>
            run.result.error == KeyUnwrapMessage || run.result.error == ContentMessage || run.result.error == IntegrityMessage)
      && (run.result == Failure(KeyUnwrapMessage) <==> run.events == [])
      && (run.result == Failure(ContentMessage) <==> Steps(run.events) == [Some(1)])
      && (run.result == Failure(IntegrityMessage) <==> Steps(run.events) == [Some(1), Some(2)] && run.result.Failure?)
      && (run.result.Success? <==> Steps(run.events) == Ascending(1, 4))
      && (run.events == [] <==> p.rsaOaepDecrypt(priv, wrappedKey).Failure? || p.importRaw(p.rsaOaepDecrypt(priv, wrappedKey).value).Failure?)
  {
    assert |KeyUnwrapMessage| == 125 && |ContentMessage| == 68 && |IntegrityMessage| == 97;
    var run := Decrypt(p, envelope, wrappedKey, priv);
    if run.events != [] {
      assert Steps(run.events)[0] == Some(1);
    }
  }

  /** Once the key is unwrapped and the envelope decrypts, the integrity check fails
      exactly when the stored digest differs from the digest of the decrypted content;
      comparing hex strings is comparing bytes. */
  lemma IntegrityCheck(p: Provider, envelope: seq<byte>, wrappedKey: seq<byte>, priv: RsaPrivateKey,
                       rawKey: seq<byte>, aesKey: AesKey, combined: seq<byte>)
    requires p.rsaOaepDecrypt(priv, wrappedKey) == Success(rawKey) && p.importRaw(rawKey) == Success(aesKey)
    requires p.aesGcmDecrypt(aesKey, SliceTo(envelope, IvLength), SliceFrom(envelope, IvLength)) == Success(combined)
    ensures var run := Decrypt(p, envelope, wrappedKey, priv);
      && (run.result == Failure(IntegrityMessage) <==>
            SliceTo(combined, DigestLength) != p.sha256(SliceFrom(combined, DigestLength)))
      && (run.result.Success? ==> run.result.value == SliceFrom(combined, DigestLength))
  {
    HexInjective(SliceTo(combined, DigestLength), p.sha256(SliceFrom(combined, DigestLength)));
  }

  /** The integrity message mentions both the hashes and corruption. */
  lemma IntegrityMessageMarkers()
    ensures Includes(IntegrityMessage, "Hashes do not match")
    ensures Includes(IntegrityMessage, "corrupted")
  {
    var before := "Integrity check " + "failed: ";
    var after := ". The file may " + "be " + "corrupted" + " or has been " + "tampered with.";
    assert IntegrityMessage == before + "Hashes do not match" + after;
    IncludesMiddle(before, "Hashes do not match", after);
    var prefix := before + "Hashes do not match" + ". The file may " + "be ";
    var suffix := " or has been " + "tampered with.";
    assert IntegrityMessage == prefix + "corrupted" + suffix;
    IncludesMiddle(prefix, "corrupted", suffix);
  }

  /** The content message mentions corruption but not the hashes: "Hashes do not match"
      starts with 'H', which the message does not contain. */
  lemma ContentMessageMarkers()
    ensures Includes(ContentMessage, "corrupted")
    ensures !Includes(ContentMessage, "Hashes do not match")
  {
    var a := "Failed to decrypt " + "file content. " + "The encrypted " + "data may be ";
    assert ContentMessage == a + "corrupted" + ".";
    IncludesMiddle(a, "corrupted", ".");
    assert 'H' !in ContentMessage;
    if Includes(ContentMessage, "Hashes do not match") {
      IncludedChar(ContentMessage, "Hashes do not match", 0);
    }
  }

  /** The key message does not mention the hashes: it has no 'H'. */
  lemma KeyMessageNoHashes()
    ensures !Includes(KeyUnwrapMessage, "Hashes do not match")
  {
    assert 'H' !in KeyUnwrapMessage;
    if Includes(KeyUnwrapMessage, "Hashes do not match") {
      IncludedChar(KeyUnwrapMessage, "Hashes do not match", 0);
    }
  }

  /** The key message does not mention corruption: "corrupted" contains "up", and no 'u'
      of the key message is followed by 'p'. */
  lemma KeyMessageUncorrupted()
    ensures !Includes(KeyUnwrapMessage, "corrupted")
  {
    var head := "Failed to decrypt " + "AES key. The " + "provided private " + "key is likely " + "incorrect or "
      + "does not match " + "the ";
    assert 'u' !in head;
    NoPairWithout(head, 'u', 'p');
    assert !HasPair("public key ", 'u', 'p');
    NoPairAppend(head, "public key ", 'u', 'p');
    assert !HasPair("used for ", 'u', 'p');
    NoPairAppend(head + "public key ", "used for ", 'u', 'p');
    assert 'u' !in "encryption.";
    NoPairWithout("encryption.", 'u', 'p');
    NoPairAppend(head + "public key " + "used for ", "encryption.", 'u', 'p');
    assert KeyUnwrapMessage == head + "public key " + "used for " + "encryption.";
    if Includes(KeyUnwrapMessage, "corrupted") {
      IncludedPair(KeyUnwrapMessage, "corrupted", 4);
    }
  }
}
