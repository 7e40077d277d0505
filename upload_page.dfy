/** The upload page: the process log's per-step icons, the progress merge, and the
    handlers that select a file and start an upload. */
module UploadPage {
  import opened Wrappers
  import opened Bytes
  import opened WebCrypto
  import opened Progress
  import opened CryptoUtils
  import opened FileStore

  /** The log shows five steps: key, digest, content, key wrap, storage. */
  const StepCount := 5

  /** `{ step: 0 }`, the progress an upload starts from. */
  const UploadStart := Progress(Some(0), None, None, None)

  /** `{ step: 0, error: false, status: '' }`, the progress after choosing a file. */
  const DroppedProgress := Progress(Some(0), Some(""), Some(false), None)

  /** `getIcon(stepIndex)` of the process log. */
  function Icon(progress: Progress, stepIndex: nat): (r: StepIcon)
    ensures r != Cancelled
    ensures r == Failed ==> HasError(progress) && StepIs(progress, stepIndex + 1)
    ensures r == Complete ==> StepAbove(progress, stepIndex + 1)
    ensures r == Pending <==> !StepAtLeast(progress, stepIndex + 1)
  {
    var current := stepIndex + 1;
    if HasError(progress) && StepIs(progress, current) then Failed
    else if StepAbove(progress, current) then Complete
    else if StepIs(progress, current) then InProgress
    else Pending
  }

  /** The icons of the five rows. */
  function Icons(progress: Progress): (r: seq<StepIcon>)
    ensures |r| == StepCount && forall i | 0 <= i < StepCount :: r[i] == Icon(progress, i)
  {
    seq(StepCount, i requires 0 <= i < StepCount => Icon(progress, i))
  }

  /** The label of row `stepIndex` is dimmed (`progress.step > index`): exactly the rows
      that have started, whose icon is anything but Pending. */
  function LabelDimmed(progress: Progress, stepIndex: nat): (r: bool)
    ensures r <==> Icon(progress, stepIndex) != Pending
  {
    StepAbove(progress, stepIndex)
  }

  /** The error text under the log (`progress.error && progress.status`). */
  function ErrorText(progress: Progress): (r: Option<string>)
    ensures r.Some? ==> HasError(progress) && r == progress.status
    ensures HasError(progress) ==> r == progress.status
    ensures !HasError(progress) ==> r.None?
  {
    if HasError(progress) then progress.status else None
  }

  // ----- Properties of the icons -----

  /** At step `s` the rows before `s` are Complete, row `s` is Failed when the error flag is
      set and InProgress otherwise, and the rows after it are Pending: unlike the
      decryption dialog, nothing is ever Cancelled. Step 6 completes every row. */
  lemma RowShape(progress: Progress)
    ensures var icons := Icons(progress);
      && (progress.step.None? || progress.step.value <= 0 ==> icons == Repeat(Pending, StepCount))
      && (progress.step.Some? && 1 <= progress.step.value <= StepCount ==>
            icons == Repeat(Complete, progress.step.value - 1) + [if HasError(progress) then Failed else InProgress]
                     + Repeat(Pending, StepCount - progress.step.value))
      && (progress.step.Some? && progress.step.value > StepCount ==> icons == Repeat(Complete, StepCount))
      && Cancelled !in icons
  {
    var icons := Icons(progress);
    if progress.step.Some? && 1 <= progress.step.value <= StepCount {
      var s := progress.step.value;
      var shape := Repeat(Complete, s - 1) + [if HasError(progress) then Failed else InProgress] + Repeat(Pending, StepCount - s);
      assert forall i | 0 <= i < StepCount :: icons[i] == shape[i];
    }
  }

  // ----- The page after an upload -----

  /** The log after the encryption events `events` (steps 1, 2, ...) and a failure event
      without a step: the error flag and message are shown at the last step reached. */
  lemma ShownAfterFailure(events: seq<Progress>, msg: string)
    requires Steps(events) == Ascending(1, |events| + 1)
    ensures var shown := MergeAll(UploadStart, events + [FailureEvent(msg, None)]);
      && shown.step == Some(|events|)
      && HasError(shown)
      && shown.status == Some(msg)
  {
    var before := MergeAll(UploadStart, events);
    MergeAllAppend(UploadStart, events, [FailureEvent(msg, None)]);
    assert MergeAll(before, [FailureEvent(msg, None)]) == MergeAll(Merge(before, FailureEvent(msg, None)), []);
    if events != [] {
      assert Steps(events)[|events| - 1] == Some(|events|);
    }
  }

  /** Once encryption has started, a failed upload marks the last step reached as Failed:
      after `k` events and the failure event, rows before `k` are Complete, row `k` is
      Failed and shows the message, and the rows after it stay Pending. A failed key
      generation (`k` = 0) marks no row. */
  lemma UploadFailureIcons(p: Provider, publicKeyHex: string, generated: Result<AesKey>, iv: Iv, file: seq<byte>, post: Result<()>)
    requires PublicKeyCheck(p, publicKeyHex).Success?
    ensures var u := Upload(p, publicKeyHex, generated, iv, file, post);
      var shown := MergeAll(UploadStart, u.events);
      var k := |u.events| - 1;
      && 1 <= |u.events| <= StepCount + 1
      && (HasError(u.events[k]) ==> ErrorText(shown) == u.events[k].status)
      && (HasError(u.events[k]) && k == 0 ==> Icons(shown) == Repeat(Pending, StepCount))
      && (HasError(u.events[k]) && k >= 1 ==>
            Icons(shown) == Repeat(Complete, k - 1) + [Failed] + Repeat(Pending, StepCount - k))
  {
    var u := Upload(p, publicKeyHex, generated, iv, file, post);
    var pub := PublicKeyCheck(p, publicKeyHex).value;
    var run := Encrypt(p, generated, iv, file, pub);
    EncryptProgress(p, generated, iv, file, pub);
    var last := u.events[|u.events| - 1];
    assert u.events == run.events + [last];
    if HasError(last) {
      assert last == FailureEvent(last.status.value, None);
      ShownAfterFailure(run.events, last.status.value);
      RowShape(MergeAll(UploadStart, u.events));
    }
  }

  /** The log rows with row 2, 3 or 5 Failed. */
  lemma FailedRows()
    ensures Repeat(Complete, 1) + [Failed] + Repeat(Pending, 3) == [Complete, Failed, Pending, Pending, Pending]
    ensures Repeat(Complete, 2) + [Failed] + Repeat(Pending, 2) == [Complete, Complete, Failed, Pending, Pending]
    ensures Repeat(Complete, 4) + [Failed] + Repeat(Pending, 0) == [Complete, Complete, Complete, Complete, Failed]
  {
    assert Repeat(Complete, 1) + [Failed] + Repeat(Pending, 3) == [Complete, Failed, Pending, Pending, Pending];
    assert Repeat(Complete, 2) + [Failed] + Repeat(Pending, 2) == [Complete, Complete, Failed, Pending, Pending];
    assert Repeat(Complete, 4) + [Failed] + Repeat(Pending, 0) == [Complete, Complete, Complete, Complete, Failed];
  }

  /** A rejected AES-GCM encryption, RSA-OAEP wrap or POST marks row 2, 3 or 5 Failed: the
      instances of `UploadFailureIcons` for the three primitives that can reject. */
  lemma IconsAfterRejection(p: Provider, publicKeyHex: string, generated: Result<AesKey>, iv: Iv, file: seq<byte>, post: Result<()>)
    requires PublicKeyCheck(p, publicKeyHex).Success? && generated.Success?
    ensures var u := Upload(p, publicKeyHex, generated, iv, file, post);
      var shown := MergeAll(UploadStart, u.events);
      var aes := p.aesGcmEncrypt(generated.value, iv, p.sha256(file) + file);
      var rsa := p.rsaOaepEncrypt(PublicKeyCheck(p, publicKeyHex).value, p.exportRaw(generated.value));
      && (aes.Failure? ==> Icons(shown) == [Complete, Failed, Pending, Pending, Pending])
      && (aes.Success? && rsa.Failure? ==> Icons(shown) == [Complete, Complete, Failed, Pending, Pending])
      && (u.posted.Some? && post.Failure? ==> Icons(shown) == [Complete, Complete, Complete, Complete, Failed])
  {
    var u := Upload(p, publicKeyHex, generated, iv, file, post);
    var pub := PublicKeyCheck(p, publicKeyHex).value;
    var run := Encrypt(p, generated, iv, file, pub);
    var aes := p.aesGcmEncrypt(generated.value, iv, p.sha256(file) + file);
    EncryptProgress(p, generated, iv, file, pub);
    FailedRows();
    if aes.Failure? {
      assert |u.events| == 3 && HasError(u.events[2]);
      UploadFailureIcons(p, publicKeyHex, generated, iv, file, post);
    } else if p.rsaOaepEncrypt(pub, p.exportRaw(generated.value)).Failure? {
      assert |u.events| == 4 && HasError(u.events[3]);
      UploadFailureIcons(p, publicKeyHex, generated, iv, file, post);
    } else if u.posted.Some? && post.Failure? {
      assert |u.events| == 6 && HasError(u.events[5]);
      UploadFailureIcons(p, publicKeyHex, generated, iv, file, post);
    }
  }

  /** What the log shows after an upload. A pre-validation failure marks no row Failed and
      shows its message only as text; a failed key generation marks no row either; a
      completed upload shows every row Complete. Other failures: `UploadFailureIcons`
      and `IconsAfterRejection`. */
  lemma IconsAfterUpload(p: Provider, publicKeyHex: string, generated: Result<AesKey>, iv: Iv, file: seq<byte>, post: Result<()>)
    ensures var u := Upload(p, publicKeyHex, generated, iv, file, post);
      var shown := MergeAll(UploadStart, u.events);
      var check := PublicKeyCheck(p, publicKeyHex);
      && (check.Failure? ==> Icons(shown) == Repeat(Pending, StepCount) && ErrorText(shown) == Some(check.error))
      && (check.Success? && generated.Failure? ==> Icons(shown) == Repeat(Pending, StepCount) && HasError(shown))
      && (u.posted.Some? && post.Success? ==> Icons(shown) == Repeat(Complete, StepCount) && !HasError(shown))
  {
    var u := Upload(p, publicKeyHex, generated, iv, file, post);
    var check := PublicKeyCheck(p, publicKeyHex);
    if check.Failure? {
      RowShape(MergeAll(UploadStart, u.events));
    } else if generated.Failure? {
      UploadFailureIcons(p, publicKeyHex, generated, iv, file, post);
      EncryptProgress(p, generated, iv, file, check.value);
    } else if u.posted.Some? && post.Success? {
      ShownAfterCompletion(p, publicKeyHex, generated, iv, file, post);
      RowShape(MergeAll(UploadStart, u.events));
    }
  }

  /** A completed upload leaves step 6 and no error flag on the log. */
  lemma ShownAfterCompletion(p: Provider, publicKeyHex: string, generated: Result<AesKey>, iv: Iv, file: seq<byte>, post: Result<()>)
    requires PublicKeyCheck(p, publicKeyHex).Success?
    requires Upload(p, publicKeyHex, generated, iv, file, post).posted.Some? && post.Success?
    ensures var shown := MergeAll(UploadStart, Upload(p, publicKeyHex, generated, iv, file, post).events);
      shown.step == Some(6) && !HasError(shown)
  {
    var u := Upload(p, publicKeyHex, generated, iv, file, post);
    var run := Encrypt(p, generated, iv, file, PublicKeyCheck(p, publicKeyHex).value);
    EncryptProgress(p, generated, iv, file, PublicKeyCheck(p, publicKeyHex).value);
    var last := u.events[|u.events| - 1];
    assert u.events == run.events + [last];
    MergeAllAppend(UploadStart, run.events, [last]);
    assert MergeAll(MergeAll(UploadStart, run.events), [last]) == MergeAll(Merge(MergeAll(UploadStart, run.events), last), []);
    MergeAllPlain(UploadStart, run.events);
  }

  /** The callback `(p) => setProgress(prev => ({ ...prev, ...p }))` applied to each event
      in turn, each to the state the previous one left. */
  method ApplyCallbacks(start: Progress, events: seq<Progress>) returns (shown: Progress)
    ensures shown == MergeAll(start, events)
  {
    shown := start;
    var i := 0;
    while i < |events|
      invariant 0 <= i <= |events|
      invariant shown == MergeAll(start, events[..i])
    {
      MergeAllSnoc(start, events[..i], events[i]);
      assert events[..i + 1] == events[..i] + [events[i]];
      shown := Merge(shown, events[i]);
      i := i + 1;
    }
    assert events[..|events|] == events;
  }

  /** The page's state. */
  class Page {
    var file: Option<seq<byte>>
    var isUploading: bool
    var progress: Progress

    constructor()
      ensures file == None && !isUploading && progress == UploadStart
    {
      file := None;
      isUploading := false;
      progress := UploadStart;
    }

    /** `onDrop(acceptedFiles)`: keep the first file and reset the log. */
    method OnDrop(acceptedFiles: seq<seq<byte>>)
      modifies this
      ensures file == (if |acceptedFiles| > 0 then Some(acceptedFiles[0]) else None)
      ensures !isUploading && progress == DroppedProgress
    {
      file := if |acceptedFiles| > 0 then Some(acceptedFiles[0]) else None;
      isUploading := false;
      progress := DroppedProgress;
    }

    /** `handleUpload`: without a file nothing happens; otherwise the log restarts at
        `{ step: 0 }` and each progress object of the upload is merged into it in turn. */
    method HandleUpload(store: Store, p: Provider, generated: Result<AesKey>, iv: Iv, post: Result<()>)
      modifies this, store
      ensures old(file).None? ==>
        file == old(file) && isUploading == old(isUploading) && progress == old(progress) && unchanged(store)
      ensures old(file).Some? ==>
        && file == old(file) && isUploading
        && progress == MergeAll(UploadStart, Upload(p, old(store.publicKey), generated, iv, old(file).value, post).events)
        && !store.isLoading && store.error == None
      ensures store.publicKey == old(store.publicKey) && store.privateKey == old(store.privateKey)
    {
      if file.None? {
        return;
      }
      isUploading := true;
      progress := UploadStart;
      var posted, events := store.UploadFile(p, generated, iv, file.value, post);
      var shown := ApplyCallbacks(progress, events);
      progress := shown;
    }
  }
}
