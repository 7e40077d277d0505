/** The file store: key fields, and the upload and download flows that wrap the envelope
    with pre-validation and progress reporting. */
module FileStore {
  import opened Wrappers
  import opened JsText
  import opened Bytes
  import opened WebCrypto
  import opened Progress
  import opened CryptoUtils

  const PublicKeyItem := "rsaPublicKeyHex"

  const NoPublicKeyMessage := "Public RSA key is not set."
  const InvalidPublicKeyFallback := "Invalid Public RSA key."
  const UploadFailedFallback := "File upload failed."
  const NoPrivateKeyMessage := "Private key is not provided in the input field."
  const InvalidPrivateKeyFallback := "Invalid Private RSA key."
  const UploadCompleteStatus := "Upload complete!"
  const DownloadingStatus := "Downloading encrypted file data..."

  /** The step a failed download is reported at, chosen by what the message mentions. */
  function FailedStep(msg: string): (r: int)
    ensures 1 <= r <= 3
    ensures r == 3 ==> Includes(msg, "Hashes do not match") && !Includes(msg, "corrupted")
    ensures r == 2 ==> Includes(msg, "corrupted")
    ensures r == 1 ==> !Includes(msg, "corrupted") && !Includes(msg, "Hashes do not match")
  {
    if Includes(msg, "corrupted") then 2
    else if Includes(msg, "Hashes do not match") then 3
    else 1
  }

  /** As written, the integrity-failure message also mentions corruption, so it is
      classified as step 2 like the content failure; the key failure stays at step 1. */
  lemma DecryptMessagesClassified()
    ensures FailedStep(KeyUnwrapMessage) == 1
    ensures FailedStep(ContentMessage) == 2
    ensures FailedStep(IntegrityMessage) == 2
  {
    KeyMessageUncorrupted();
    KeyMessageNoHashes();
    ContentMessageMarkers();
    IntegrityMessageMarkers();
  }

  /** No message `decryptFile` throws is classified as step 3. */
  lemma NeverStepThree(p: Provider, envelope: seq<byte>, wrappedKey: seq<byte>, priv: RsaPrivateKey)
    ensures var run := Decrypt(p, envelope, wrappedKey, priv);
      run.result.Failure? ==> FailedStep(run.result.error) in {1, 2} && FailedStep(run.result.error) != 3
  {
    DecryptOutcomes(p, envelope, wrappedKey, priv);
    DecryptMessagesClassified();
  }

  /** The pre-validation of `uploadFile`: the key must be set and must import. */
  function PublicKeyCheck(p: Provider, publicKeyHex: string): (r: Result<RsaPublicKey>)
    ensures r.Failure? ==> r.error == NoPublicKeyMessage || r.error == PublicKeyImportMessage
    ensures r.Failure? <==> publicKeyHex == "" || PublicKeyOf(p, publicKeyHex).Failure?
  {
    if publicKeyHex == "" then Failure(NoPublicKeyMessage) else PublicKeyOf(p, publicKeyHex)
  }

  /** The pre-validation of `downloadAndDecryptFile`. */
  function PrivateKeyCheck(p: Provider, privateKeyHex: string): (r: Result<RsaPrivateKey>)
    ensures r.Failure? ==> r.error == NoPrivateKeyMessage || r.error == PrivateKeyImportMessage
    ensures r.Failure? <==> privateKeyHex == "" || PrivateKeyOf(p, privateKeyHex).Failure?
  {
    if privateKeyHex == "" then Failure(NoPrivateKeyMessage) else PrivateKeyOf(p, privateKeyHex)
  }

  /** What an upload sent to the server (if it got that far) and the progress it reported. */
  datatype UploadOutcome = UploadOutcome(posted: Option<Encrypted>, events: seq<Progress>)

  /** What `uploadFile` does, given the stored public key and the outcomes of key
      generation, the random IV and the POST request. */
  function Upload(p: Provider, publicKeyHex: string, generated: Result<AesKey>, iv: Iv, file: seq<byte>, post: Result<()>): (r: UploadOutcome)
    ensures r.events != []
    ensures r.posted.Some? ==> PublicKeyCheck(p, publicKeyHex).Success? && generated.Success?
  {
    match PublicKeyCheck(p, publicKeyHex)
    case Failure(e) => UploadOutcome(None, [FailureEvent(OrElse(e, InvalidPublicKeyFallback), Some(0))])
    case Success(pub) =>
      var run := Encrypt(p, generated, iv, file, pub);
      match run.result
      case Failure(e) => UploadOutcome(None, run.events + [FailureEvent(OrElse(e, UploadFailedFallback), None)])
      case Success(blobs) =>
        match post
        case Failure(e) => UploadOutcome(Some(blobs), run.events + [FailureEvent(OrElse(e, UploadFailedFallback), None)])
        case Success(_) => UploadOutcome(Some(blobs), run.events + [Event(6, UploadCompleteStatus)])
  }

  /** What `downloadAndDecryptFile` does, given the private key in the input field and the
      outcome of fetching and decoding the two blobs. The result is the blob returned or
      the message rethrown. */
  function Download(p: Provider, privateKeyHex: string, download: Result<(seq<byte>, seq<byte>)>): (r: Run<seq<byte>>)
    ensures r.events != []
    ensures r.result.Success? ==> PrivateKeyCheck(p, privateKeyHex).Success? && download.Success?
  {
    match PrivateKeyCheck(p, privateKeyHex)
    case Failure(e) =>
      var msg := OrElse(e, InvalidPrivateKeyFallback);
      Run(Failure(msg), [FailureEvent(msg, Some(1))])
    case Success(priv) =>
      var downloading := [Event(0, DownloadingStatus)];
      match download
      case Failure(msg) => Run(Failure(msg), downloading + [FailureEvent(msg, Some(FailedStep(msg)))])
      case Success(blobs) =>
        var run := Decrypt(p, blobs.0, blobs.1, priv);
        match run.result
        case Failure(msg) => Run(Failure(msg), downloading + run.events + [FailureEvent(msg, Some(FailedStep(msg)))])
        case Success(content) => Run(Success(content), downloading + run.events)
  }

  /** The browser's `localStorage`. */
  class LocalStorage {
    var items: map<string, string>

    constructor(items: map<string, string>)
      ensures this.items == items
    {
      this.items := items;
    }
  }

  /** The store's state. The file list is not modelled. */
  class Store {
    const storage: LocalStorage
    var publicKey: string
    var privateKey: string
    var isLoading: bool
    var error: Option<string>

    /** The public key is read back from storage; the private key starts empty. */
    constructor(storage: LocalStorage)
      ensures this.storage == storage
      ensures publicKey == (if PublicKeyItem in storage.items then storage.items[PublicKeyItem] else "")
      ensures privateKey == "" && !isLoading && error == None
    {
      this.storage := storage;
      publicKey := if PublicKeyItem in storage.items then OrElse(storage.items[PublicKeyItem], "") else "";
      privateKey := "";
      isLoading := false;
      error := None;
    }

    /** `setPublicKey`: persists the key and sets the field. */
    method SetPublicKey(key: string)
      modifies this, storage
      ensures storage.items == old(storage.items)[PublicKeyItem := key]
      ensures publicKey == key
      ensures privateKey == old(privateKey) && isLoading == old(isLoading) && error == old(error)
    {
      storage.items := storage.items[PublicKeyItem := key];
      publicKey := key;
    }

    /** `clearPublicKey`: removes the persisted key and empties the field. */
    method ClearPublicKey()
      modifies this, storage
      ensures storage.items == old(storage.items) - {PublicKeyItem}
      ensures publicKey == ""
      ensures privateKey == old(privateKey) && isLoading == old(isLoading) && error == old(error)
    {
      storage.items := storage.items - {PublicKeyItem};
      publicKey := "";
    }

    /** `setPrivateKey`: the private key lives in memory only; storage is untouched. */
    method SetPrivateKey(key: string)
      modifies this
      ensures privateKey == key
      ensures storage.items == old(storage.items)
      ensures publicKey == old(publicKey) && isLoading == old(isLoading) && error == old(error)
    {
      privateKey := key;
    }

    /** `uploadFile(file, onProgress)`. */
    method UploadFile(p: Provider, generated: Result<AesKey>, iv: Iv, file: seq<byte>, post: Result<()>)
      returns (posted: Option<Encrypted>, events: seq<Progress>)
      modifies this
      ensures UploadOutcome(posted, events) == Upload(p, old(publicKey), generated, iv, file, post)
      ensures !isLoading && error == None
      ensures publicKey == old(publicKey) && privateKey == old(privateKey)
    {
      var publicKeyHex := publicKey;
      isLoading := true;
      error := None;
      posted := None;

      var rsaPublicKey: Result<RsaPublicKey>;
      if publicKeyHex == "" {
        rsaPublicKey := Failure(NoPublicKeyMessage);
      } else {
        rsaPublicKey := ImportRsaPublicKey(p, publicKeyHex);
      }
      if rsaPublicKey.Failure? {
        var msg := OrElse(rsaPublicKey.error, InvalidPublicKeyFallback);
        events := [FailureEvent(msg, Some(0))];
        isLoading := false;
        return;
      }

      var encrypted;
      encrypted, events := EncryptFile(p, generated, iv, file, rsaPublicKey.value);
      if encrypted.Failure? {
        events := events + [FailureEvent(OrElse(encrypted.error, UploadFailedFallback), None)];
      } else {
        posted := Some(encrypted.value);
        if post.Failure? {
          events := events + [FailureEvent(OrElse(post.error, UploadFailedFallback), None)];
        } else {
          events := events + [Event(6, UploadCompleteStatus)];
        }
      }
      isLoading := false;
    }

    /** `downloadAndDecryptFile(filename, onProgress)`. As written, a pre-validation failure
        leaves `isLoading` set. */
    method DownloadAndDecryptFile(p: Provider, download: Result<(seq<byte>, seq<byte>)>)
      returns (r: Result<seq<byte>>, events: seq<Progress>)
      modifies this
      ensures Run(r, events) == Download(p, old(privateKey), download)
      ensures isLoading <==> PrivateKeyCheck(p, old(privateKey)).Failure?
      ensures publicKey == old(publicKey) && privateKey == old(privateKey) && error == old(error)
    {
      var privateKeyHex := privateKey;
      isLoading := true;

      var rsaPrivateKey: Result<RsaPrivateKey>;
      if privateKeyHex == "" {
        rsaPrivateKey := Failure(NoPrivateKeyMessage);
      } else {
        rsaPrivateKey := ImportRsaPrivateKey(p, privateKeyHex);
      }
      if rsaPrivateKey.Failure? {
        var msg := OrElse(rsaPrivateKey.error, InvalidPrivateKeyFallback);
        events := [FailureEvent(msg, Some(1))];
        return Failure(msg), events;
      }

      events := [Event(0, DownloadingStatus)];
      var outcome: Result<seq<byte>>;
      if download.Failure? {
        outcome := Failure(download.error);
      } else {
        var decryptEvents;
        outcome, decryptEvents := DecryptFile(p, download.value.0, download.value.1, rsaPrivateKey.value);
        events := events + decryptEvents;
      }
      if outcome.Success? {
        isLoading := false;
        return outcome, events;
      }

      var msg := outcome.error;
      var failedStep := 1;
      if Includes(msg, "corrupted") {
        failedStep := 2;
      } else if Includes(msg, "Hashes do not match") {
        failedStep := 3;
      }
      events := events + [FailureEvent(msg, Some(failedStep))];
      isLoading := false;
      return Failure(msg), events;
    }
  }

  // ----- Properties of the upload flow -----

  /** A missing or unimportable public key is reported as a single error at step 0 carrying
      the thrown message, and nothing is encrypted or sent; a valid key never produces an
      event at step 0. */
  lemma UploadPrevalidation(p: Provider, publicKeyHex: string, generated: Result<AesKey>, iv: Iv, file: seq<byte>, post: Result<()>)
    ensures var u := Upload(p, publicKeyHex, generated, iv, file, post);
      var check := PublicKeyCheck(p, publicKeyHex);
      && |u.events| >= 1
      && (check.Failure? <==> StepIs(u.events[0], 0))
      && (check.Success? ==> forall i | 0 <= i < |u.events| :: !StepIs(u.events[i], 0))
      && (check.Failure? ==> u.posted.None? && u.events == [FailureEvent(check.error, Some(0))])
      && (publicKeyHex == "" ==> u.events == [FailureEvent(NoPublicKeyMessage, Some(0))])
  {
    var check := PublicKeyCheck(p, publicKeyHex);
    if check.Success? {
      var u := Upload(p, publicKeyHex, generated, iv, file, post);
      var run := Encrypt(p, generated, iv, file, check.value);
      EncryptProgress(p, generated, iv, file, check.value);
      assert u.events[..|run.events|] == run.events;
      forall i | 0 <= i < |u.events|
        ensures !StepIs(u.events[i], 0)
      {
        if i < |run.events| {
          assert u.events[i] == run.events[i];
          assert Steps(run.events)[i] == Some(i + 1);
        }
      }
    }
  }

  /** An upload reports step 6 exactly when the envelope was built and the POST succeeded,
      and then it is the last of steps 1 to 6 in order. */
  lemma UploadCompletes(p: Provider, publicKeyHex: string, generated: Result<AesKey>, iv: Iv, file: seq<byte>, post: Result<()>)
    ensures var u := Upload(p, publicKeyHex, generated, iv, file, post);
      && |u.events| >= 1
      && (StepIs(u.events[|u.events| - 1], 6) <==> u.posted.Some? && post.Success?)
      && (u.posted.Some? && post.Success? ==> Steps(u.events) == Ascending(1, 7) && NoErrors(u.events))
  {
    var check := PublicKeyCheck(p, publicKeyHex);
    if check.Success? {
      EncryptProgress(p, generated, iv, file, check.value);
      var run := Encrypt(p, generated, iv, file, check.value);
      if run.result.Success? && post.Success? {
        var u := Upload(p, publicKeyHex, generated, iv, file, post);
        assert Steps(u.events) == Steps(run.events) + [Some(6)];
      }
    }
  }

  /** An upload reports at most one error, always as its last event; past pre-validation
      that error carries no step. */
  lemma UploadSingleError(p: Provider, publicKeyHex: string, generated: Result<AesKey>, iv: Iv, file: seq<byte>, post: Result<()>)
    ensures var u := Upload(p, publicKeyHex, generated, iv, file, post);
      && |u.events| >= 1
      && NoErrors(u.events[..|u.events| - 1])
      && (HasError(u.events[|u.events| - 1]) <==> !(u.posted.Some? && post.Success?))
      && (HasError(u.events[|u.events| - 1]) && PublicKeyCheck(p, publicKeyHex).Success? ==>
            u.events[|u.events| - 1].step.None?)
  {
    var check := PublicKeyCheck(p, publicKeyHex);
    if check.Success? {
      EncryptProgress(p, generated, iv, file, check.value);
      var u := Upload(p, publicKeyHex, generated, iv, file, post);
      var run := Encrypt(p, generated, iv, file, check.value);
      assert u.events[..|u.events| - 1] == run.events;
    }
  }

  // ----- Properties of the download flow -----

  /** A missing or unimportable private key is reported as a single error at step 1 and
      rethrown, before anything is downloaded; otherwise the first event is step 0. */
  lemma DownloadPrevalidation(p: Provider, privateKeyHex: string, download: Result<(seq<byte>, seq<byte>)>)
    ensures var run := Download(p, privateKeyHex, download);
      var check := PrivateKeyCheck(p, privateKeyHex);
      && |run.events| >= 1
      && (check.Failure? ==> run.result == Failure(check.error) && run.events == [FailureEvent(check.error, Some(1))])
      && (check.Success? ==> run.events[0] == Event(0, DownloadingStatus))
      && (privateKeyHex == "" ==> run.result == Failure(NoPrivateKeyMessage))
  {
  }

  /** After the step-0 event come exactly the events of `decryptFile`, and then, on
      failure, one error event at the classified step. */
  lemma DownloadThenDecrypt(p: Provider, privateKeyHex: string, envelope: seq<byte>, wrappedKey: seq<byte>)
    requires PrivateKeyCheck(p, privateKeyHex).Success?
    ensures var run := Download(p, privateKeyHex, Success((envelope, wrappedKey)));
      var d := Decrypt(p, envelope, wrappedKey, PrivateKeyCheck(p, privateKeyHex).value);
      && run.result == d.result
      && run.events[..1 + |d.events|] == [Event(0, DownloadingStatus)] + d.events
      && (d.result.Success? ==> run.events == [Event(0, DownloadingStatus)] + d.events)
      && (d.result.Failure? ==> run.events == [Event(0, DownloadingStatus)] + d.events
                                  + [FailureEvent(d.result.error, Some(FailedStep(d.result.error)))])
  {
  }

  /** A download reports an error exactly when it throws: a single event, the last one,
      with the message that is rethrown. */
  lemma DownloadSingleError(p: Provider, privateKeyHex: string, download: Result<(seq<byte>, seq<byte>)>)
    ensures var run := Download(p, privateKeyHex, download);
      && |run.events| >= 1
      && NoErrors(run.events[..|run.events| - 1])
      && (run.result.Failure? <==> HasError(run.events[|run.events| - 1]))
      && (run.result.Failure? ==> run.events[|run.events| - 1].status == Some(run.result.error))
  {
    var check := PrivateKeyCheck(p, privateKeyHex);
    if check.Success? && download.Success? {
      var d := Decrypt(p, download.value.0, download.value.1, check.value);
      DecryptOutcomes(p, download.value.0, download.value.1, check.value);
      var run := Download(p, privateKeyHex, download);
      if d.result.Failure? {
        assert run.events[..|run.events| - 1] == [Event(0, DownloadingStatus)] + d.events;
      } else {
        assert run.events[..|run.events| - 1] == ([Event(0, DownloadingStatus)] + d.events)[..|d.events|];
      }
    }
  }

  /** The steps a download reports for each outcome of decryption: a wrong key fails at
      step 1 right after step 0; corrupted content fails at step 2 after step 1; a digest
      mismatch is shown as step 2 completing and then failing: the error event is never at
      step 3. */
  lemma DownloadFailureSteps(p: Provider, privateKeyHex: string, envelope: seq<byte>, wrappedKey: seq<byte>)
    requires PrivateKeyCheck(p, privateKeyHex).Success?
    ensures var run := Download(p, privateKeyHex, Success((envelope, wrappedKey)));
      && (run.result == Failure(KeyUnwrapMessage) ==> Steps(run.events) == [Some(0), Some(1)])
      && (run.result == Failure(ContentMessage) ==> Steps(run.events) == [Some(0), Some(1), Some(2)])
      && (run.result == Failure(IntegrityMessage) ==> Steps(run.events) == [Some(0), Some(1), Some(2), Some(2)])
      && (run.result.Success? ==> Steps(run.events) == Ascending(0, 4))
      && (run.result.Failure? ==> run.events[|run.events| - 1].step.Some?
                                  && run.events[|run.events| - 1].step.value in {1, 2})
  {
    var priv := PrivateKeyCheck(p, privateKeyHex).value;
    DecryptOutcomes(p, envelope, wrappedKey, priv);
    DecryptMessagesClassified();
    var d := Decrypt(p, envelope, wrappedKey, priv);
    var run := Download(p, privateKeyHex, Success((envelope, wrappedKey)));
    var downloading := [Event(0, DownloadingStatus)];
    StepsAppend(downloading, d.events);
    if d.result.Failure? {
      var failure := [FailureEvent(d.result.error, Some(FailedStep(d.result.error)))];
      StepsAppend(downloading + d.events, failure);
      assert run.events == downloading + d.events + failure;
    } else {
      assert run.events == downloading + d.events;
    }
  }
}
