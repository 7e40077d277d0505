/** The decryption dialog: per-step icons and status lines derived from the latest progress
    object, and the handlers that run a download and save its result. */
module DecryptionModal {
  import opened Wrappers
  import opened JsText
  import opened Bytes
  import opened Hex
  import opened WebCrypto
  import opened Progress
  import opened CryptoUtils
  import opened FileStore

  /** The dialog shows three steps: unwrap the key, decrypt the content, verify the digest. */
  const StepCount := 3

  /** `{ step: 0, status: '', error: false, data: {} }`. */
  const InitialProgress := Progress(Some(0), Some(""), Some(false), Some(Data(None, None)))

  /** `getIcon(stepIndex)`. */
  function Icon(progress: Progress, isDecrypting: bool, stepIndex: nat): (r: StepIcon)
    ensures r == Failed ==> HasError(progress) && StepIs(progress, stepIndex + 1)
    ensures r == Cancelled ==> HasError(progress) && !StepAtLeast(progress, stepIndex + 1)
    ensures r == InProgress ==> isDecrypting && !HasError(progress) && StepIs(progress, stepIndex)
    ensures r == Complete ==> StepAbove(progress, stepIndex)
  {
    var current := stepIndex + 1;
    if HasError(progress) then
      if StepIs(progress, current) then Failed
      else if StepAbove(progress, current) then Complete
      else Cancelled
    else if StepAtLeast(progress, current) then Complete
    else if isDecrypting && StepIs(progress, stepIndex) then InProgress
    else Pending
  }

  /** The icons of the three rows. */
  function Icons(progress: Progress, isDecrypting: bool): (r: seq<StepIcon>)
    ensures |r| == StepCount && forall i | 0 <= i < StepCount :: r[i] == Icon(progress, isDecrypting, i)
  {
    [Icon(progress, isDecrypting, 0), Icon(progress, isDecrypting, 1), Icon(progress, isDecrypting, 2)]
  }

  /** What `getStatusInfo` returns; either field may be undefined. */
  datatype StatusInfo = StatusInfo(status: Option<string>, data: Option<string>)

  const CompletedStatus := "Completed."
  const HashesMatchStatus := "Hashes match."
  const CancelledStatus := "Cancelled due to error."
  const ProcessingStatus := "Processing..."
  const PendingStatus := "Pending..."

  /** `progress.data?.aesKeyHex`. */
  function AesKeyHex(progress: Progress): Option<string> {
    if progress.data.Some? then progress.data.value.aesKeyHex else None
  }

  /** `progress.data?.hashMatch`. */
  function HashMatch(progress: Progress): Option<string> {
    if progress.data.Some? then progress.data.value.hashMatch else None
  }

  /** `getStatusInfo(stepIndex)`. */
  function Status(progress: Progress, isDecrypting: bool, stepIndex: nat): (r: StatusInfo)
    ensures r.data.Some? ==> !HasError(progress) && StepAtLeast(progress, stepIndex + 1) && stepIndex in {0, 2}
    ensures r.status.None? ==> HasError(progress) && StepIs(progress, stepIndex + 1) && progress.status.None?
    ensures HasError(progress) && StepIs(progress, stepIndex + 1) ==> r.status == progress.status
  {
    var current := stepIndex + 1;
    if !HasError(progress) && StepAtLeast(progress, current) then
      if stepIndex == 0 then
        StatusInfo(Some(if AesKeyHex(progress).Some? then OrElse(AesKeyHex(progress).value, CompletedStatus) else CompletedStatus),
                   AesKeyHex(progress))
      else if stepIndex == 1 then StatusInfo(Some(ContentDecryptedStatus), None)
      else if stepIndex == 2 then StatusInfo(Some(HashesMatchStatus), HashMatch(progress))
      else StatusInfo(Some(CompletedStatus), None)
    else if HasError(progress) && StepBelow(progress, current) then StatusInfo(Some(CancelledStatus), None)
    else if HasError(progress) && StepIs(progress, current) then StatusInfo(progress.status, None)
    else if isDecrypting && StepAtLeast(progress, stepIndex) then StatusInfo(Some(ProcessingStatus), None)
    else StatusInfo(Some(PendingStatus), None)
  }

  // ----- Properties of the icons -----

  /** With an error at step `s`, the rows before it are Complete, row `s` is Failed and the
      rows after it are Cancelled; an error without a step in range cancels every row or
      completes every row. */
  lemma ErrorIcons(progress: Progress, isDecrypting: bool)
    requires HasError(progress)
    ensures var icons := Icons(progress, isDecrypting);
      && (progress.step.None? || progress.step.value <= 0 ==> icons == Repeat(Cancelled, StepCount))
      && (progress.step.Some? && 1 <= progress.step.value <= StepCount ==>
            icons == Repeat(Complete, progress.step.value - 1) + [Failed] + Repeat(Cancelled, StepCount - progress.step.value))
      && (progress.step.Some? && progress.step.value > StepCount ==> icons == Repeat(Complete, StepCount))
  {
    var icons := Icons(progress, isDecrypting);
    if progress.step.Some? && 1 <= progress.step.value <= StepCount {
      var s := progress.step.value;
      var shape := Repeat(Complete, s - 1) + [Failed] + Repeat(Cancelled, StepCount - s);
      assert forall i | 0 <= i < StepCount :: icons[i] == shape[i];
    }
  }

  /** Without an error at step `s`, the first `s` rows are Complete, the next one is
      InProgress while decrypting (Pending otherwise) and the rest are Pending. */
  lemma ProgressIcons(progress: Progress, isDecrypting: bool)
    requires !HasError(progress)
    ensures var icons := Icons(progress, isDecrypting);
      && (progress.step.None? || progress.step.value < 0 ==> icons == Repeat(Pending, StepCount))
      && (progress.step.Some? && 0 <= progress.step.value < StepCount ==>
            icons == Repeat(Complete, progress.step.value) + [if isDecrypting then InProgress else Pending]
                     + Repeat(Pending, StepCount - 1 - progress.step.value))
      && (progress.step.Some? && progress.step.value >= StepCount ==> icons == Repeat(Complete, StepCount))
  {
    var icons := Icons(progress, isDecrypting);
    if progress.step.Some? && 0 <= progress.step.value < StepCount {
      var s := progress.step.value;
      var shape := Repeat(Complete, s) + [if isDecrypting then InProgress else Pending] + Repeat(Pending, StepCount - 1 - s);
      assert forall i | 0 <= i < StepCount :: icons[i] == shape[i];
    }
  }

  /** For any progress value, at most one row is Failed and at most one is InProgress; a
      Failed row needs the error flag and an InProgress row needs a running decryption
      without one. */
  lemma SingleFailedAndInProgress(progress: Progress, isDecrypting: bool)
    ensures var icons := Icons(progress, isDecrypting);
      && Count(icons, Failed) <= 1 && Count(icons, InProgress) <= 1
      && (Count(icons, Failed) == 1 ==> HasError(progress))
      && (Count(icons, InProgress) == 1 ==> isDecrypting && !HasError(progress))
  {
    var icons := Icons(progress, isDecrypting);
    CountThree(icons, Failed);
    CountThree(icons, InProgress);
  }

  lemma CountThree(icons: seq<StepIcon>, icon: StepIcon)
    requires |icons| == 3
    ensures Count(icons, icon) ==
      (if icons[0] == icon then 1 else 0) + (if icons[1] == icon then 1 else 0) + (if icons[2] == icon then 1 else 0)
  {
    assert icons[1..][0] == icons[1] && icons[1..][1..] == icons[2..];
    assert icons[2..][0] == icons[2] && icons[2..][1..] == [];
    assert Count(icons[2..], icon) == if icons[2] == icon then 1 else 0;
    assert Count(icons[1..], icon) == (if icons[1] == icon then 1 else 0) + Count(icons[2..], icon);
  }

  // ----- Properties of the status lines -----

  /** A completed first step shows the unwrapped key's hex when the progress carries a
      non-empty one, and "Completed." otherwise, also when `data` is absent. */
  lemma CompletedKeyStatus(progress: Progress, isDecrypting: bool)
    requires !HasError(progress) && StepAtLeast(progress, 1)
    ensures Status(progress, isDecrypting, 0).status ==
      Some(if progress.data.Some? && progress.data.value.aesKeyHex.Some? && progress.data.value.aesKeyHex.value != ""
           then progress.data.value.aesKeyHex.value else CompletedStatus)
    ensures progress.data.None? ==> Status(progress, isDecrypting, 0) == StatusInfo(Some(CompletedStatus), None)
    ensures Icon(progress, isDecrypting, 0) == Complete
  {
  }

  /** With an error at step `s`, row `s` shows the error's status and the rows after it
      show "Cancelled due to error.", matching their Failed and Cancelled icons. */
  lemma ErrorStatuses(progress: Progress, isDecrypting: bool, stepIndex: nat)
    requires HasError(progress) && progress.step.Some?
    ensures stepIndex + 1 == progress.step.value ==>
      Status(progress, isDecrypting, stepIndex) == StatusInfo(progress.status, None) && Icon(progress, isDecrypting, stepIndex) == Failed
    ensures stepIndex + 1 > progress.step.value ==>
      Status(progress, isDecrypting, stepIndex) == StatusInfo(Some(CancelledStatus), None) && Icon(progress, isDecrypting, stepIndex) == Cancelled
  {
  }

  /** As written, a row before the failed one has a Complete icon but its status line falls
      through to "Processing..." while decrypting and "Pending..." afterwards. */
  lemma StatusBeforeFailure(progress: Progress, isDecrypting: bool, stepIndex: nat)
    requires HasError(progress) && StepAbove(progress, stepIndex + 1)
    ensures Icon(progress, isDecrypting, stepIndex) == Complete
    ensures Status(progress, isDecrypting, stepIndex).status == Some(if isDecrypting then ProcessingStatus else PendingStatus)
  {
  }

  /** Without an error, the spinner row says "Processing..." and a Pending row says
      "Pending..."; below the first row (whose completed status is the key's hex, which
      may be any text) the converse holds too. */
  lemma StatusMatchesIcon(progress: Progress, isDecrypting: bool, stepIndex: nat)
    requires !HasError(progress)
    ensures Icon(progress, isDecrypting, stepIndex) == InProgress ==>
            Status(progress, isDecrypting, stepIndex).status == Some(ProcessingStatus)
    ensures Icon(progress, isDecrypting, stepIndex) == Pending ==>
            Status(progress, isDecrypting, stepIndex).status == Some(PendingStatus)
    ensures stepIndex > 0 ==>
      (Status(progress, isDecrypting, stepIndex).status == Some(ProcessingStatus) ==> Icon(progress, isDecrypting, stepIndex) == InProgress)
      && (Status(progress, isDecrypting, stepIndex).status == Some(PendingStatus) ==> Icon(progress, isDecrypting, stepIndex) == Pending)
  {
  }

  // ----- The dialog after a download -----

  /** The progress object on screen after the events of a run: the last one, or the
      starting one if there was none. */
  function Shown(start: Progress, events: seq<Progress>): Progress {
    if events == [] then start else events[|events| - 1]
  }

  /** `setProgress` passed as the callback, called once per event: each call replaces
      the object on screen. */
  function ReplaceAll(current: Progress, events: seq<Progress>): Progress
    decreases |events|
  {
    if events == [] then current else ReplaceAll(events[0], events[1..])
  }

  /** Calling `setProgress` once per event leaves the last event on screen. */
  lemma {:induction false} ShownIsReplaceAll(start: Progress, events: seq<Progress>)
    ensures ReplaceAll(start, events) == Shown(start, events)
    decreases |events|
  {
    if events != [] {
      ShownIsReplaceAll(events[0], events[1..]);
    }
  }

  /** Right after the reset, the first row spins and says "Processing..." and the other
      rows are Pending. */
  lemma IconsAtStart()
    ensures Icons(InitialProgress, true) == [InProgress, Pending, Pending]
    ensures Status(InitialProgress, true, 0).status == Some(ProcessingStatus)
    ensures Status(InitialProgress, true, 1).status == Some(PendingStatus)
    ensures Status(InitialProgress, true, 2).status == Some(PendingStatus)
  {
  }

  /** While a successful download runs, the spinner moves down the rows: after the event
      at step `k` the first `k` rows are Complete and row `k` is InProgress. */
  lemma IconsDuringDownload(p: Provider, privateKeyHex: string, envelope: seq<byte>, wrappedKey: seq<byte>, k: nat)
    requires PrivateKeyCheck(p, privateKeyHex).Success?
    requires Download(p, privateKeyHex, Success((envelope, wrappedKey))).result.Success?
    requires k < StepCount
    ensures Icons(Download(p, privateKeyHex, Success((envelope, wrappedKey))).events[k], true) ==
      Repeat(Complete, k) + [InProgress] + Repeat(Pending, StepCount - 1 - k)
  {
    var run := Download(p, privateKeyHex, Success((envelope, wrappedKey)));
    DownloadFailureSteps(p, privateKeyHex, envelope, wrappedKey);
    DownloadSingleError(p, privateKeyHex, Success((envelope, wrappedKey)));
    assert Steps(run.events)[k] == Some(k);
    assert !HasError(run.events[k]) by {
      assert run.events[k] == run.events[..|run.events| - 1][k];
    }
    ProgressIcons(run.events[k], true);
  }

  /** What the dialog shows once a download has ended: every row Complete on success; the
      first row Failed when the key is missing, invalid or does not unwrap; and, as
      written, the second row Failed for a digest mismatch as for corrupted content. */
  lemma IconsAfterDownload(p: Provider, privateKeyHex: string, envelope: seq<byte>, wrappedKey: seq<byte>)
    ensures var run := Download(p, privateKeyHex, Success((envelope, wrappedKey)));
      var icons := Icons(Shown(InitialProgress, run.events), false);
      && (run.result.Success? ==> icons == [Complete, Complete, Complete])
      && (PrivateKeyCheck(p, privateKeyHex).Failure? || run.result == Failure(KeyUnwrapMessage) ==>
            icons == [Failed, Cancelled, Cancelled])
      && (run.result == Failure(ContentMessage) || run.result == Failure(IntegrityMessage) ==>
            icons == [Complete, Failed, Cancelled])
      && (run.result.Failure? ==> Status(Shown(InitialProgress, run.events), false, StepIndexOf(run)).status
                                  == Some(run.result.error))
  {
    var run := Download(p, privateKeyHex, Success((envelope, wrappedKey)));
    var check := PrivateKeyCheck(p, privateKeyHex);
    var shown := Shown(InitialProgress, run.events);
    DownloadPrevalidation(p, privateKeyHex, Success((envelope, wrappedKey)));
    if check.Success? {
      IconsAfterDecrypt(p, privateKeyHex, envelope, wrappedKey);
    } else {
      assert check.error != KeyUnwrapMessage && check.error != ContentMessage && check.error != IntegrityMessage by {
        assert |NoPrivateKeyMessage| == 47 && |PrivateKeyImportMessage| == 69;
        assert |KeyUnwrapMessage| == 125 && |ContentMessage| == 68 && |IntegrityMessage| == 97;
      }
      ErrorIcons(shown, false);
    }
  }

  /** The case of `IconsAfterDownload` where the private key imports. */
  lemma IconsAfterDecrypt(p: Provider, privateKeyHex: string, envelope: seq<byte>, wrappedKey: seq<byte>)
    requires PrivateKeyCheck(p, privateKeyHex).Success?
    ensures var run := Download(p, privateKeyHex, Success((envelope, wrappedKey)));
      var icons := Icons(Shown(InitialProgress, run.events), false);
      && (run.result.Success? ==> icons == [Complete, Complete, Complete])
      && (run.result == Failure(KeyUnwrapMessage) ==> icons == [Failed, Cancelled, Cancelled])
      && (run.result == Failure(ContentMessage) || run.result == Failure(IntegrityMessage) ==>
            icons == [Complete, Failed, Cancelled])
      && (run.result.Failure? ==> Status(Shown(InitialProgress, run.events), false, StepIndexOf(run)).status
                                  == Some(run.result.error))
  {
    var run := Download(p, privateKeyHex, Success((envelope, wrappedKey)));
    var shown := Shown(InitialProgress, run.events);
    DownloadFailureSteps(p, privateKeyHex, envelope, wrappedKey);
    DownloadSingleError(p, privateKeyHex, Success((envelope, wrappedKey)));
    assert Steps(run.events)[|run.events| - 1] == shown.step;
    if run.result.Success? {
      ProgressIcons(shown, false);
    } else {
      ErrorIcons(shown, false);
      ErrorStatuses(shown, false, StepIndexOf(run));
    }
  }

  /** The statuses after a successful decryption. The last event, `{ step: 3, data:
      { hashMatch } }`, replaces the step-1 object that carried `aesKeyHex`, so the first
      row falls back to "Completed." with no data; the second row reports the decrypted
      content and the third the digest hex of the returned file. */
  lemma StatusesAfterDecrypt(p: Provider, privateKeyHex: string, envelope: seq<byte>, wrappedKey: seq<byte>)
    requires Download(p, privateKeyHex, Success((envelope, wrappedKey))).result.Success?
    ensures var run := Download(p, privateKeyHex, Success((envelope, wrappedKey)));
      var shown := Shown(InitialProgress, run.events);
      && Status(shown, false, 0) == StatusInfo(Some(CompletedStatus), None)
      && Status(shown, false, 1) == StatusInfo(Some(ContentDecryptedStatus), None)
      && Status(shown, false, 2) == StatusInfo(Some(HashesMatchStatus), Some(BufferToHex(p.sha256(run.result.value))))
  {
    var run := Download(p, privateKeyHex, Success((envelope, wrappedKey)));
    var priv := PrivateKeyCheck(p, privateKeyHex).value;
    var dec := Decrypt(p, envelope, wrappedKey, priv);
    assert run.events == [Event(0, DownloadingStatus)] + dec.events;
    assert run.result.value == dec.result.value;
    assert dec.events[|dec.events| - 1] == EventWithData(3, IntegrityStatus, Data(None, Some(BufferToHex(p.sha256(dec.result.value)))));
  }

  /** The row a failed run is reported on. */
  function StepIndexOf(run: Run<seq<byte>>): nat {
    if |run.events| > 0 && run.events[|run.events| - 1].step.Some? && run.events[|run.events| - 1].step.value >= 1
    then run.events[|run.events| - 1].step.value - 1 else 0
  }

  /** The dialog's state. */
  class Modal {
    var progress: Progress
    var isDecrypting: bool
    var decryptedBlob: Option<seq<byte>>

    constructor()
      ensures progress == InitialProgress && !isDecrypting && decryptedBlob == None
    {
      progress := InitialProgress;
      isDecrypting := false;
      decryptedBlob := None;
    }

    /** The reset at the start of `handleStartDecryption`: spinner on, no blob, fresh
        progress. */
    method BeginDecryption()
      modifies this
      ensures isDecrypting && decryptedBlob == None && progress == InitialProgress
    {
      isDecrypting := true;
      decryptedBlob := None;
      progress := InitialProgress;
    }

    /** `handleStartDecryption`: reset the dialog, run the download with `setProgress` as
        the progress callback, keep the blob on success, and stop the spinner. */
    method HandleStartDecryption(store: Store, p: Provider, download: Result<(seq<byte>, seq<byte>)>)
      modifies this, store
      ensures var run := Download(p, old(store.privateKey), download);
        && progress == Shown(InitialProgress, run.events)
        && decryptedBlob == (if run.result.Success? then Some(run.result.value) else None)
        && !isDecrypting
      ensures store.privateKey == old(store.privateKey) && store.publicKey == old(store.publicKey)
      ensures store.isLoading <==> PrivateKeyCheck(p, old(store.privateKey)).Failure?
      ensures store.error == old(store.error)
    {
      BeginDecryption();
      var blob, events := store.DownloadAndDecryptFile(p, download);
      progress := Shown(progress, events);
      if blob.Success? {
        decryptedBlob := Some(blob.value);
      }
      isDecrypting := false;
    }

    /** `handleDownloadAndClose`: without a decrypted blob nothing is saved and the dialog
        stays open; otherwise the blob is saved and the dialog closes. */
    method HandleDownloadAndClose() returns (saved: Option<seq<byte>>, closed: bool)
      ensures decryptedBlob.None? ==> saved.None? && !closed
      ensures decryptedBlob.Some? ==> saved == decryptedBlob && closed
    {
      if decryptedBlob.None? {
        return None, false;
      }
      return decryptedBlob, true;
    }
  }
}
