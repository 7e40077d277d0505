# Verified model of the vault's client-side envelope and progress protocol

The vault encrypts files in the browser before they are uploaded:

- the file is prefixed with its SHA-256 digest;
- that payload is sealed with a fresh AES-256-GCM key under a random 12-byte IV;
- the envelope is the IV followed by the AES-GCM output;
- the AES key is wrapped with the user's RSA-OAEP public key.

Keys travel as lowercase hex. Decryption reverses each step and re-checks the digest. The store and two views report each stage as a stream of progress objects `{step, status, error, data}`. The views turn the latest progress into per-step icons and status lines.

The project proves:

- the hex codec round trips, both ways;
- the byte layout of payload and envelope;
- that decryption after encryption returns the file;
- which progress events precede each of the three decryption failures;
- how the store classifies failures and emits progress;
- what the upload log and the decryption dialog display for every progress value.

Modules, one per source concern:

- `Wrappers`: `Option` and `Result`.
- `JsText`: `String.prototype.includes` and `||` on strings.
- `Bytes`: bytes, `slice`, `TypedArray.set`.
- `Hex`: `bufferToHex` and `hexToBuffer`.
- `WebCrypto`: the crypto engine, injected as a `Provider` record of functions. The inverse laws the envelope relies on form the predicate `Sound`. A stand-in engine, `Transparent`, shows the laws are consistent.
- `Progress`: progress objects, JavaScript comparisons on absent fields, the `{...prev, ...p}` merge.
- `CryptoUtils`: key import, `encryptFile`, `decryptFile`.
- `FileStore`: the store's key fields, `uploadFile`, `downloadAndDecryptFile`.
- `DecryptionModal` and `UploadPage`: the two views.

Each stateful operation is an imperative method. It is proved equal to a specification function (`Encrypt`, `Decrypt`, `Upload`, `Download`), and the lemmas are stated about those functions. Randomness and I/O outcomes are parameters:

- the key `generateKey` yields;
- the IV;
- the outcome of the POST;
- the downloaded bytes.

The progress callback is modelled as the returned sequence of progress objects.

The model follows the code as written, including four places where the code does not do what its own comments, markers or sibling view suggest:

- **Integrity failures show as step 2.** The store picks the failed step by substring (`frontend/src/store/fileStore.js:129-134`): "corrupted" gives step 2 and "Hashes do not match" step 3. The integrity message (`frontend/src/lib/cryptoUtils.js:145`) contains both, and the "corrupted" test comes first. A digest mismatch is therefore reported at step 2, like corrupted content, and the step-3 branch is unreachable for every message `decryptFile` throws (`FileStore.NeverStepThree`, `FileStore.DecryptMessagesClassified`).
- **An upload failure carries no step.** The pre-validation failures carry an explicit step (`frontend/src/store/fileStore.js:69` and `:108`, the latter commented "Fails at step 1"). The upload's later failure event at `frontend/src/store/fileStore.js:90` has none, so the merge leaves the last step reached marked Failed. A failed key generation therefore marks no row at all (`UploadPage.UploadFailureIcons`).
- **Upload rows are not cancelled.** The decryption dialog greys out the rows after a failure as cancelled (`frontend/src/components/DecryptionModal.jsx:80`). The upload log has no such branch: its rows after a failure stay Pending (`UploadPage.RowShape`).
- **A failed download pre-validation leaves the store loading.** `uploadFile` clears `isLoading` on its pre-validation failure (`frontend/src/store/fileStore.js:71`). `downloadAndDecryptFile` rethrows without clearing it (`frontend/src/store/fileStore.js:105-110`), so `isLoading` stays set (`FileStore.Store.DownloadAndDecryptFile`).

## Model

| member | source | states |
|---|---|---|
| Hex.ByteToHex | frontend/src/lib/cryptoUtils.js:5 | each byte is written as exactly two lowercase hex digits whose value is the byte |
| Hex.BufferToHex | frontend/src/lib/cryptoUtils.js:4-6 | output is twice as long as the buffer, uses only `[0-9a-f]`, and its i-th pair of digits encodes byte i |
| Hex.HexToBuffer | frontend/src/lib/cryptoUtils.js:8-18 | fails with "Invalid HEX string provided." exactly when the input has a non-hex character or odd length; otherwise returns len/2 bytes, byte i being the case-insensitive value of digits 2i and 2i+1 (the empty string gives the empty buffer) |
| Hex.DecodeEncoded | frontend/src/lib/cryptoUtils.js:4-18 | every encoded buffer is accepted by the decoder and decodes back to itself |
| Hex.EncodeDecoded | frontend/src/lib/cryptoUtils.js:4-18 | decoding then encoding gives the lowercase form of the input |
| Hex.HexInjective | frontend/src/lib/cryptoUtils.js:141-144 | two buffers have equal hex text iff they are equal, so the hex comparison of digests is a byte comparison |
| Bytes.SliceTo | frontend/src/lib/cryptoUtils.js:127 | `slice(0, n)` is a prefix of length min(n, len) |
| Bytes.SliceFrom | frontend/src/lib/cryptoUtils.js:128 | `slice(n)` has length len - min(n, len) and holds the bytes from offset n |
| Bytes.SliceConcat | frontend/src/lib/cryptoUtils.js:138-139 | slicing a concatenation at the first part's length recovers both parts |
| Bytes.TypedArraySet | frontend/src/lib/cryptoUtils.js:79-81 | `set(source, offset)` copies source into the array at offset and leaves every other element unchanged |
| JsText.Includes | frontend/src/store/fileStore.js:130-132 | `msg.includes(sub)`: the empty string and `msg` itself are always included, and nothing longer than `msg` is |
| JsText.OrElse | frontend/src/store/fileStore.js:68 | `msg \|\| fallback` is one of the two, is `msg` itself whenever `msg` is non-empty, and is non-empty whenever either is |
| Progress.Merge | frontend/src/pages/UploadPage.jsx:58 | `{...prev, ...p}` with an empty update leaves `prev` as it was, and an update carrying every field replaces it |
| Progress.MergeAssociative | frontend/src/pages/UploadPage.jsx:58 | spreading two updates in turn equals spreading their merge |
| Progress.MergeIdempotent | frontend/src/pages/UploadPage.jsx:58 | spreading the same update a second time changes nothing |
| Progress.MergeAll | frontend/src/pages/UploadPage.jsx:58 | after a run of callback merges, every field the last event carries is shown as carried |
| Progress.MergeAllKeeps | frontend/src/pages/UploadPage.jsx:58 | each of the four fields (step, status, error, data) that no event carries keeps its starting value through the merges |
| Progress.MergeAllAppend | frontend/src/pages/UploadPage.jsx:58 | merging a concatenation of updates is merging the first part, then the second |
| Progress.MergeAllPlain | frontend/src/pages/UploadPage.jsx:58 | after plain `{step, status}` updates the last step and status are shown and the error flag and data are kept |
| CryptoUtils.PublicKeyOf | frontend/src/lib/cryptoUtils.js:39-49 | the public key imports iff the hex is valid and the SPKI import succeeds; every failure carries the fixed "Invalid Public RSA key..." message |
| CryptoUtils.PrivateKeyOf | frontend/src/lib/cryptoUtils.js:51-61 | the private key imports iff the hex is valid and the PKCS#8 import succeeds; every failure carries the fixed "Invalid Private RSA key..." message |
| CryptoUtils.ImportRsaPublicKey | frontend/src/lib/cryptoUtils.js:39-49 | decoding the hex with `HexToBuffer` and importing gives exactly `PublicKeyOf` |
| CryptoUtils.ImportRsaPrivateKey | frontend/src/lib/cryptoUtils.js:51-61 | decoding the hex with `HexToBuffer` and importing gives exactly `PrivateKeyOf` |
| CryptoUtils.ImportAcceptsEncodedKeys | frontend/src/lib/cryptoUtils.js:39-61 | the hex encoding of any importable SPKI or PKCS#8 export imports to the same key |
| CryptoUtils.Encrypt | frontend/src/lib/cryptoUtils.js:64-105 | the specification of `encryptFile`: it never reports an error itself, and a successful envelope starts with the IV |
| CryptoUtils.Decrypt | frontend/src/lib/cryptoUtils.js:108-150 | the specification of `decryptFile`: it never reports an error itself, and every failure carries one of its three fixed messages |
| CryptoUtils.EncryptFile | frontend/src/lib/cryptoUtils.js:64-105 | building the payload and envelope in preallocated buffers with `set` yields the blobs and progress trace of `Encrypt` |
| CryptoUtils.DecryptFile | frontend/src/lib/cryptoUtils.js:108-150 | the step-by-step decryption yields the result and progress trace of `Decrypt` |
| CryptoUtils.PayloadLayout | frontend/src/lib/cryptoUtils.js:79-81 | the payload is the 32-byte digest followed by the file, 32 + len bytes long, and splitting it at 32 recovers both |
| CryptoUtils.EnvelopeLayout | frontend/src/lib/cryptoUtils.js:77-99 | the envelope starts with the 12-byte IV, continues with the AES-GCM output of the payload under that IV, and is 12 + 16 + 32 + len bytes long |
| CryptoUtils.EncryptProgress | frontend/src/lib/cryptoUtils.js:64-93 | steps 1, 2, ... are emitted strictly in order without error flags; 0, 2, 3 or 5 events are emitted exactly when key generation, AES-GCM or RSA-OAEP fails or all succeed |
| CryptoUtils.DecryptAccepts | frontend/src/lib/cryptoUtils.js:108-149 | an envelope whose key unwraps and whose content decrypts to a digest of the rest returns that rest, emitting steps 1, 2, 3 with the key hex and digest hex |
| CryptoUtils.RoundTrip | frontend/src/lib/cryptoUtils.js:64-149 | with a sound engine and a matching key pair, decrypting the blobs of a successful encryption returns the file, emitting steps 1, 2, 3 carrying the AES key's hex and the file digest's hex |
| CryptoUtils.DecryptOutcomes | frontend/src/lib/cryptoUtils.js:110-149 | decryption fails only with the three messages: the unwrap message iff nothing was emitted, the content message iff only step 1 was, the integrity message iff steps 1 and 2 were; success iff steps 1, 2, 3 were |
| CryptoUtils.IntegrityCheck | frontend/src/lib/cryptoUtils.js:137-146 | once the key unwraps and the content decrypts, the integrity failure occurs iff the stored digest differs from the digest of the content, and success returns the content |
| CryptoUtils.IntegrityMessageMarkers | frontend/src/lib/cryptoUtils.js:145 | the integrity message contains both "Hashes do not match" and "corrupted" |
| CryptoUtils.ContentMessageMarkers | frontend/src/lib/cryptoUtils.js:134 | the content message contains "corrupted" but not "Hashes do not match" |
| CryptoUtils.KeyMessageNoHashes | frontend/src/lib/cryptoUtils.js:121 | the key-unwrap message does not contain "Hashes do not match" |
| CryptoUtils.KeyMessageUncorrupted | frontend/src/lib/cryptoUtils.js:121 | the key-unwrap message does not contain "corrupted" |
| FileStore.FailedStep | frontend/src/store/fileStore.js:129-134 | the step is 2 exactly for a message containing "corrupted", 3 exactly for one naming a hash mismatch without "corrupted", and 1 for one naming neither, a download or network error included |
| FileStore.DecryptMessagesClassified | frontend/src/store/fileStore.js:129-134 | the key message is classified as step 1, the content message as step 2, and the integrity message, as written, also as step 2 |
| FileStore.NeverStepThree | frontend/src/store/fileStore.js:129-134 | no failure of `decryptFile` is classified as step 3 |
| FileStore.PublicKeyCheck | frontend/src/store/fileStore.js:64-66 | pre-validation fails iff the key is empty or does not import, with "Public RSA key is not set." or the import message |
| FileStore.PrivateKeyCheck | frontend/src/store/fileStore.js:102-104 | pre-validation fails iff the key is empty or does not import, with "Private key is not provided..." or the import message |
| FileStore.Upload | frontend/src/store/fileStore.js:58-95 | the specification of `uploadFile`: `onProgress` is always called, and nothing is posted unless the key checks out and key generation succeeded |
| FileStore.Download | frontend/src/store/fileStore.js:97-140 | the specification of `downloadAndDecryptFile`: `onProgress` is always called, and a blob is returned only when the key checks out and the download succeeded |
| FileStore.Store.constructor | frontend/src/store/fileStore.js:26-30 | the public key is the stored `rsaPublicKeyHex` item or empty; the private key starts empty, not loading, no error |
| FileStore.Store.SetPublicKey | frontend/src/store/fileStore.js:33-37 | writes the key to storage under `rsaPublicKeyHex` and to the field, nothing else |
| FileStore.Store.ClearPublicKey | frontend/src/store/fileStore.js:38-42 | removes the stored item and empties the field, nothing else |
| FileStore.Store.SetPrivateKey | frontend/src/store/fileStore.js:43 | sets only the in-memory private key; storage is unchanged |
| FileStore.Store.UploadFile | frontend/src/store/fileStore.js:58-95 | posts and reports exactly as `Upload` for the stored public key, clears the error and ends not loading |
| FileStore.Store.DownloadAndDecryptFile | frontend/src/store/fileStore.js:97-140 | returns, rethrows and reports exactly as `Download` for the entered private key (classifying the message with the inline if-chain); stays loading iff pre-validation failed |
| FileStore.UploadPrevalidation | frontend/src/store/fileStore.js:63-73 | a missing or unimportable public key gives one error event at step 0 with its message and nothing is encrypted; otherwise no event of the upload, first or later, is at step 0 |
| FileStore.UploadCompletes | frontend/src/store/fileStore.js:77-87 | step 6 is the last event iff the envelope was built and posted, and then the steps are exactly 1 to 6 with no error |
| FileStore.UploadSingleError | frontend/src/store/fileStore.js:88-91 | at most one error event, always the last, present iff the upload did not complete; after pre-validation it carries no step |
| FileStore.DownloadPrevalidation | frontend/src/store/fileStore.js:101-113 | a missing or invalid private key gives exactly one error event at step 1 and rethrows its message; otherwise the first event is step 0, "Downloading..." |
| FileStore.DownloadThenDecrypt | frontend/src/store/fileStore.js:112-138 | after step 0 come exactly `decryptFile`'s events, then on failure one error event at the classified step; the result is `decryptFile`'s |
| FileStore.DownloadSingleError | frontend/src/store/fileStore.js:124-138 | an error event is emitted iff the download throws; it is the only one, the last, and carries the rethrown message |
| FileStore.DownloadFailureSteps | frontend/src/store/fileStore.js:112-138 | steps reported: 0,1 for a wrong key; 0,1,2 for corrupted content; 0,1,2,2 for a digest mismatch; 0,1,2,3 on success; an error event is always at step 1 or 2 |
| DecryptionModal.Icon | frontend/src/components/DecryptionModal.jsx:73-87 | a Failed row is the failing step; Cancelled only follows an error, on rows at or after it; the spinner shows only while decrypting without an error, on the row after the last completed step; a Complete row lies below the current step |
| DecryptionModal.Status | frontend/src/components/DecryptionModal.jsx:90-116 | data is shown only on completed rows 1 and 3 without an error; the status is missing only on a failed row whose error carried none; the failing row shows the error's status |
| DecryptionModal.Icons | frontend/src/components/DecryptionModal.jsx:143-147 | the dialog shows exactly three rows, row i carrying the icon `getIcon(i)` |
| DecryptionModal.ErrorIcons | frontend/src/components/DecryptionModal.jsx:77-81 | with an error at step s, rows before s are Complete, row s is Failed, later rows Cancelled |
| DecryptionModal.ProgressIcons | frontend/src/components/DecryptionModal.jsx:83-86 | without an error at step s, the first s rows are Complete, the next is InProgress only while decrypting, the rest Pending |
| DecryptionModal.SingleFailedAndInProgress | frontend/src/components/DecryptionModal.jsx:73-87 | at most one row is Failed and at most one InProgress; Failed needs the error flag, InProgress needs a running decryption without one |
| DecryptionModal.CompletedKeyStatus | frontend/src/components/DecryptionModal.jsx:93-97 | a completed first row shows the key hex when present and non-empty, else "Completed."; with `data` absent it yields "Completed." and no data |
| DecryptionModal.ErrorStatuses | frontend/src/components/DecryptionModal.jsx:103-109 | with an error, the failing row shows the progress status and later rows "Cancelled due to error.", matching their icons |
| DecryptionModal.StatusBeforeFailure | frontend/src/components/DecryptionModal.jsx:79-115 | as written, rows before a failure show a Complete icon but the status "Processing..." while decrypting and "Pending..." afterwards |
| DecryptionModal.StatusMatchesIcon | frontend/src/components/DecryptionModal.jsx:83-115 | without an error, the spinner row says "Processing..." and Pending rows say "Pending..."; below the first row the converse holds too |
| DecryptionModal.ShownIsReplaceAll | frontend/src/components/DecryptionModal.jsx:49 | calling `setProgress` once per event, each call replacing the object on screen, leaves the last event shown, or the reset state if there was none |
| DecryptionModal.IconsDuringDownload | frontend/src/components/DecryptionModal.jsx:84 | during a successful download the spinner moves down the rows: after the event at step k, k rows are Complete and row k spins |
| DecryptionModal.IconsAfterDownload | frontend/src/components/DecryptionModal.jsx:73-109 | after a download: all rows Complete on success; row 1 Failed for a missing, invalid or non-unwrapping key; row 2 Failed for corrupted content and, as written, for a digest mismatch; the failed row shows the thrown message |
| DecryptionModal.IconsAfterDecrypt | frontend/src/components/DecryptionModal.jsx:73-109 | the same display facts once the private key has imported |
| DecryptionModal.StatusesAfterDecrypt | frontend/src/components/DecryptionModal.jsx:93-100 | after a successful decryption: row 1 shows "Completed." with no data, because the step-3 object replaced the one carrying the key hex; row 2 shows "File content has been decrypted."; row 3 shows "Hashes match." with the returned file's digest hex |
| DecryptionModal.Modal.constructor | frontend/src/components/DecryptionModal.jsx:38-40 | starts at `{step: 0, status: '', error: false, data: {}}`, not decrypting, no blob |
| DecryptionModal.IconsAtStart | frontend/src/components/DecryptionModal.jsx:73-116 | right after the reset the first row spins with "Processing..." and the others are Pending |
| DecryptionModal.Modal.BeginDecryption | frontend/src/components/DecryptionModal.jsx:44-46 | the reset: decrypting, no blob, progress `{step: 0, status: '', error: false, data: {}}` |
| DecryptionModal.Modal.HandleStartDecryption | frontend/src/components/DecryptionModal.jsx:43-56 | resets, runs the download, ends showing its last event, keeps the blob exactly on success, and stops decrypting; the store's keys and error are untouched, and it stays loading exactly when pre-validation failed |
| DecryptionModal.Modal.HandleDownloadAndClose | frontend/src/components/DecryptionModal.jsx:58-69 | without a decrypted blob nothing is saved and the dialog stays open; otherwise the blob is saved and the dialog closes |
| UploadPage.Icon | frontend/src/pages/UploadPage.jsx:16-22 | never Cancelled; Failed only on the step of an error; Complete only below the current step; Pending exactly when the step has not been reached |
| UploadPage.Icons | frontend/src/pages/UploadPage.jsx:28-33 | the log shows exactly five rows, row i carrying the icon `getIcon(i)` |
| UploadPage.ErrorText | frontend/src/pages/UploadPage.jsx:35 | text appears under the log exactly when the error flag is set, and it is the progress status |
| UploadPage.RowShape | frontend/src/pages/UploadPage.jsx:16-22 | at step s: rows before s Complete, row s Failed with the error flag and InProgress without, later rows Pending; step 6 completes all five; no row is ever Cancelled |
| UploadPage.LabelDimmed | frontend/src/pages/UploadPage.jsx:31 | a row's label is dimmed (`progress.step > index`) iff its icon is not Pending |
| UploadPage.IconsAfterUpload | frontend/src/pages/UploadPage.jsx:54-59 | after merging an upload's events: a pre-validation failure marks no row Failed and shows its message as text; a failed key generation marks none either; a completed upload shows all rows Complete |
| UploadPage.UploadFailureIcons | frontend/src/store/fileStore.js:76-91 | past pre-validation an upload reports 1 to 6 events; a failure after k encryption events shows its message, marks row k Failed with the rows before it Complete and the rest Pending, and marks no row when k = 0 |
| UploadPage.IconsAfterRejection | frontend/src/store/fileStore.js:76-91 | a rejected AES-GCM encryption or RSA-OAEP wrap (`frontend/src/lib/cryptoUtils.js:83-93`) or a rejected POST marks row 2, 3 or 5 Failed, the rows before it Complete and the rest Pending |
| UploadPage.Page.constructor | frontend/src/pages/UploadPage.jsx:41-44 | no file, not uploading, progress `{step: 0}` |
| UploadPage.Page.OnDrop | frontend/src/pages/UploadPage.jsx:46-50 | keeps the first accepted file (none if the list is empty), stops uploading and resets progress to `{step: 0, error: false, status: ''}` |
| UploadPage.ApplyCallbacks | frontend/src/pages/UploadPage.jsx:58 | applying the callback to each event in turn, each merging into the state the previous left, yields `MergeAll` of the events |
| UploadPage.Page.HandleUpload | frontend/src/pages/UploadPage.jsx:54-59 | does nothing without a file; otherwise marks uploading and shows `{step: 0}` merged with every event of the upload in order, leaving the store not loading, with a null error and its keys unchanged |

## Left out

- The cryptographic algorithms (RSA-OAEP, AES-GCM, SHA-256, key generation, `getRandomValues`, `exportKey`/`importKey`) are platform calls. They are function fields of `Provider`, constrained only by the laws in `Sound`.
- SPKI and PKCS#8 parsing happen inside `importKey`; they are the provider's `importSpki` and `importPkcs8`.
- `generateRsaKeyPairHex` is a thin wrapper around key generation. The model states only that hex exports import back (`ImportAcceptsEncodedKeys`).
- `sleep` delays, async scheduling and React state batching are timing only. Each callback call applies in order.
- Network and browser I/O are left out: axios requests, `FormData`, `atob`, `toast`, `console.error`, `triggerBrowserDownload` and blob URLs. The POST outcome and the decoded download bytes are parameters, and a download failure is the message it would throw. Blobs are byte sequences.
- `fetchFiles`, `deleteFile` and the store's `files` list are network-only.
- `file.arrayBuffer()` is taken to succeed: the file is its bytes.
- `sha256` and `exportRaw` never reject in the model; the other primitives may.
- Engine rejections carry an arbitrary message string. An undefined `message` and the `TypeError` that `msg.includes` would then raise are not modelled.
- The key sizes (AES-256, RSA-2048) are not tracked. Keys are opaque handles, so the 256-byte wrapped-key length is not modelled.
- Tamper detection, wrong-key rejection and nonce uniqueness are not modelled. They are properties of the primitives and of randomness, not of this code.
- Rendering is left out: JSX, `ProgressStep`, clipboard copy and the disabled state of the upload button (`!file || !publicKey || isLoading`).
- The backend, the dashboard, authentication, mail and the other UI components are outside the core.
- DecryptionModal.StatusMatchesIcon: the converse direction is stated only below the first row, because a completed first row shows the key hex, which may be any text.
