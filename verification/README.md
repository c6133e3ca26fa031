# Verified models of the upload server, the hub, the ciphers and their companions

This project states in Dafny what the hard parts of the repository do and proves what they promise.

- **Resumable uploads** (`pkg/tus`, tus protocol 1.0.0). `TusStore`, `TusProtocol`: POST, PATCH, HEAD and DELETE
  as handlers that interleave over one file store and one locker, each system call, each piece of a body and each
  lock operation a step of its own. Connections break, hooks fail, and the server stops uploads at any moment.
  `TusInvariant`, `TusSteps`: an invariant of every reachable state. `TusTheorems`: what holds over whole runs;
  `TusEvents`: the same of completion events, locks and deletions. `TusMissed`: when a complete upload is never
  reported. `TusProgress`: no handler waits for another, and each ends.
  `TusAnswers`: which answer a POST and a PATCH get, exactly when. `TusFileStore`, `TusHandlers`: the locker, the
  body reader, the file store and the handlers as imperative code whose every action is a step of the protocol;
  `TusUploads` carries the theorems over to these objects; `TusWitness` shows that one bound is met. `TusHeaders`:
  Upload-Metadata, Upload-Concat, ids in paths, numbers.
- **AES and counter mode** (`pkg/security/aes.go`). `AesField`, `Fips197`: the cipher of FIPS 197 over GF(2^8), its
  inverse, and that the one takes the other back; `AesKnownAnswers`: the worked examples of the standard. `AesCode`:
  the code's loops over the state and the key schedule. `AesCtr`: counter blocks, `Encrypt` and `Decrypt`, and for
  which texts one takes the other back. `TextCodec`: base64 and query escaping, defined in full.
- **Web-socket hub** (`pkg/ws`). `Merger`, `MergeWorkers`: batching with a race between timer and size. `Rooms`,
  `RoomObjects`, `RoomHub`: rooms indexed from both sides. `FanOut`, `FanOutWorkers`: dispatch to all buckets;
  `FanOutProgress`: that it comes to rest; `FanOutOrder`: in which order. `Broadcast`: merger and fan-out together.
- **Paged export** (`pkg/export.go`). `ExportPlan`: how three quotients rounded up share rows out over pages and
  sheets. `ExportCode`: the loops.
- **One-time passwords** (`pkg/goauth`), `Otp`, `OtpCode`; **RSA in pieces** (`pkg/security/rsa.go`), `Rsa`.
- `Basics`: int64 arithmetic, decimal digits, and the usual small datatypes.

A method with a loop, or one that changes an object, is proved against a function or a step of a protocol; lemmas
then say what that function or protocol promises. In `TusHandlers`, `MergeWorkers`, `FanOutWorkers` and `RoomHub` an
object carries, as ghost state, a run of the protocol that has led to it; `Valid()` says that the two agree, and a method
may only go on from that run.

What the code does not do, although a reader may expect it, is stated with its exact condition or a concrete input:

- A text of 2^32 blocks or more is not taken back by `Decrypt`, which computes the high counter word from b + 1
  where `Encrypt` uses b (`CountersAgree`, `RoundTripWhenStreamsAgree`, `NoRoundTripBeyond`).
- A sheet can hold more than `SheetSize` rows, and a sheet can stay empty, although `NewExport` raises `SheetSize` to
  `PageSize` (`SheetSizeKept`, `NoSheetEmpty`, `SizesThatDoNotDivide`).
- An upload is reported complete twice exactly when it is a final upload of no bytes whose hook agrees
  (`TusEvents.CompletionAtMostOnce`, `FinalEventsSent`, `EmptyFinalCompletesTwice`).
- A complete upload that is not final is never reported exactly when the request that completed it was refused at its
  end, although later requests are told that it is complete (`UnreportedExactlyWhenMissed`, `CompleteAndNeverReported`).
- With two dispatch workers or more a job can overtake another (`OneWorkerKeepsOrder`, `TwoWorkersOvertake`).
- At rest every accepted message has been committed exactly when all of them marshal (`NothingLeftBehind`). A batch
  with one item that does not is never committed and swallows all later messages; any such item brings that about
  (`PoisonedForever`, `PoisonIsReached`).
- `DispatchPending` runs behind by the number of `PushRoom` jobs (`DispatchPendingDrifts`).
- A metadata key with a blank or comma, or with white space where it is trimmed, is not read back
  (`MetadataRoundTrip` is an equivalence).
- What HEAD answers for a final upload names its partial uploads exactly when the base path is not empty; else the
  host runs into the ids (`ConcatRoundTrip` is an equivalence, `EmptyBasePathLosesIds`, `EmptyBasePathAtHostH`).
- A time step that was accepted is accepted again exactly when an accepted attempt in between had a window beginning
  above it (`ReplayedExactlyWhenDropped`), which takes a clock that runs back (`TimeStepsOnce`, `ClockRunningBack`,
  `ClockRunningBackFromTwenty`).
- An offset and a Content-Length that add up to more than an int64 get past the size test
  (`ChunkFitsUnlessWrapped`, `WrappedChunkIsLetThrough`).

`dafny verify dfyconfig.toml` checks the whole project.

## Model

| member | source | states |
|---|---|---|
| TusTheorems.RunInv | pkg/tus/api.go:12-426 | every state of every run of interleaved handlers keeps the invariant: sizes, owners, locks, events, and what each handler knows |
| TusTheorems.RunEvolves | pkg/tus/filestore/filestore.go:155-210 | over any stretch of a run bytes are only appended, a declared size stays, a sealed upload keeps its bytes, a removed file stays away |
| TusTheorems.SizesHold | pkg/tus/tus.go:88-122 | a declared size bounds the stored length and is at most MaxSize, in every reachable state |
| TusTheorems.StoredBytesStay | pkg/tus/api.go:276-309 | between two states of a run stored bytes are a prefix of later ones, a declared length never changes, a complete upload gets no more bytes |
| TusTheorems.OneOwner | pkg/tus/tus.go:326-339 | no two handlers ever own one upload at the same time |
| TusTheorems.OffsetsAreDurable | pkg/tus/tus.go:179-183 | an offset answered by PATCH, POST or HEAD is the file's length at that moment, and the bytes below it stay |
| TusTheorems.Resumption | pkg/tus/api.go:221-315 | if each body is a piece of the client's data from its offset on, an upload always holds a prefix of the data, and when complete exactly its first Size bytes |
| TusTheorems.StoppedNeverCompletes | pkg/tus/tus.go:148-170 | a handler whose upload the server stopped sends no event, before or after |
| TusTheorems.Concatenation | pkg/tus/api.go:41-52 | a successful POST of a final upload leaves the named partial uploads one after the other with the recorded size, each with the bytes of a state since that POST began in which the upload was there and complete, though no lock is held |
| TusEvents.CompletionAtMostOnce | pkg/tus/tus.go:191-215 | at most one completion event for an upload in every state of every run, and two exactly when an earlier step ended a concatenation of no bytes with a hook that agrees |
| TusEvents.CompletionIsSound | pkg/tus/tus.go:191-215 | at the very step that sends an event the upload is there, its stored length is the declared size, and nothing was reported of it before |
| TusEvents.FinalEventsSent | pkg/tus/api.go:114-150 | the step that ends a concatenation sends one event, or two exactly for size 0 and a hook that agrees, and none came before |
| TusEvents.ReportedIsComplete | pkg/tus/tus.go:191-215 | as long as its info is there, an upload that was reported complete is complete |
| TusEvents.LocksAreReturned | pkg/tus/api.go:129-135 | in every reachable state in which all handlers are done, no lock is held |
| TusEvents.RunLocks | pkg/tus/api.go:244-250 | in every reachable state every lock that is held belongs to a handler under way |
| TusEvents.DeletedForGood | pkg/tus/api.go:379-426 | after a DELETE that succeeds neither info nor file is there, then and for the rest of the run |
| TusMissed.UnreportedExactlyWhenMissed | pkg/tus/api.go:276-281 | over all runs, with notifications on: an upload that is complete, not final and not being written was reported once, or not at all; not at all exactly when an earlier step refused the request that completed it, by one of five named branches |
| TusProgress.CanGoOn | pkg/tus/api.go:12-426 | in every reachable state every handler that has not ended has a step it can take in which nothing fails, whatever the others hold or do |
| TusProgress.HandlerIsBounded | pkg/tus/api.go:12-426 | however the handlers interleave, a handler takes a number of steps that its request bounds: nine and one for each byte of the body, or four and three for each part |
| TusProgress.CanFinishAlone | pkg/tus/api.go:12-426 | from every reachable state every handler can come to its answer by its own steps alone, none of them a failure |
| TusWitness.EmptyFinalCompletesTwice | pkg/tus/api.go:142-150 | there is a run in which a final upload is reported complete twice |
| TusWitness.CompleteAndNeverReported | pkg/tus/api.go:142-150 | there is a run in which a client is told that an upload is complete which was never reported |
| TusSteps.StepKeeps | pkg/tus/api.go:12-426 | every step of every handler keeps the invariant and lets the store only evolve |
| TusStore.ChunkFitsUnlessWrapped | pkg/tus/tus.go:94-114 | every chunk let through fits into the upload exactly when offset plus Content-Length does not wrap |
| TusStore.WrappedChunkIsLetThrough | pkg/tus/tus.go:94-114 | a concrete request whose sum wraps and is let through |
| TusStore.JoinedOfTwo | pkg/tus/filestore/filestore.go:182-203 | the parts of a final upload lie one after the other, wherever the list is cut |
| TusUploads.StoredSizes | pkg/tus/tus.go:88-186 | the file store under the handlers' code never holds more than a declared size |
| TusUploads.EventsSent | pkg/tus/tus.go:191-215 | the events that the handlers' code has sent for an upload that is not final: at most one, and only when complete |
| TusFileStore.MemoryLocker.Lock | pkg/tus/memorylocker/memorylocker.go:48-60 | refuses a lock that is held, and takes any other |
| TusFileStore.MemoryLocker.Unlock | pkg/tus/memorylocker/memorylocker.go:63-72 | drops one lock, held or not |
| TusFileStore.LimitedBody.Read | pkg/tus/tus.go:124-124 | one read of a connection behind a limit: what is still to come shrinks by just what was read |
| TusFileStore.BodyReader.Read | pkg/tus/body_reader.go:27-41 | an error of the body reads as the end of the file and is kept; the counter counts every byte |
| TusFileStore.DeliveredIsLimited | pkg/tus/body_reader.go:27-41 | however a body is cut into pieces, the limited reader delivers its first bytes up to the first error |
| TusFileStore.FaultSeen | pkg/tus/body_reader.go:27-41 | a broken connection is noticed exactly when the reader gets to the break before its limit |
| TusFileStore.SentUpTo | pkg/tus/body_reader.go:27-41 | the body is what the pieces hold up to and with the first that carries an error |
| TusFileStore.FileStore.NewUpload | pkg/tus/filestore/filestore.go:49-84 | makes an empty file and its info; a file already there would keep its bytes |
| TusFileStore.FileStore.GetUpload | pkg/tus/filestore/filestore.go:86-118 | info from the .info file, offset from the length of the bin file, not found when either is missing |
| TusFileStore.FileStore.WriteChunk | pkg/tus/filestore/filestore.go:155-166 | the number returned is what the file grew by, and the bytes are the first of the body, for full, broken and over-full copies |
| TusFileStore.FileStore.DeclareLength | pkg/tus/filestore/filestore.go:205-218 | rewrites the info with the length, nothing else |
| TusFileStore.FileStore.Terminate | pkg/tus/filestore/filestore.go:172-180 | info first, then the file: when the one cannot be removed the other stays |
| TusFileStore.FileStore.ConcatUploads | pkg/tus/filestore/filestore.go:182-203 | appends the named files in order; fails only for a missing file or a full disk, and then leaves exactly the files and the part copied so far |
| TusHandlers.Uploader.BodyLimit | pkg/tus/tus.go:94-114 | the limit on the body, or the refusal, as one function of info, offset and Content-Length |
| TusHandlers.Uploader.WriteChunk | pkg/tus/tus.go:88-186 | copy, stop flag twice, body error, new offset and completion as steps of the protocol; result, store and events exactly |
| TusHandlers.Uploader.Copy | pkg/tus/tus.go:122-164 | the file grows by as much of the limited body as fits; broken exactly when not all of it did or the connection failed |
| TusHandlers.Uploader.StopWriting | pkg/tus/tus.go:254-269 | a stopped upload is removed whole, or as far as removing info and file succeeds, along steps of the protocol |
| TusHandlers.Uploader.Finish | pkg/tus/tus.go:157-215 | errors, offset and event in the protocol's order |
| TusAnswers.PatchAppends | pkg/tus/api.go:221-315 | a PATCH answered with success has appended the whole limited body and answers the new length of the file |
| TusAnswers.PatchAnswers | pkg/tus/api.go:221-315 | PATCH in terms of the request alone: success if and only if the upload is there and not final, the offset is its length, and it is complete, or the declared length is allowed, the chunk fits, the disk holds it, the connection and the server let it through and the hook agrees; and each refusal if and only if its own condition holds |
| TusAnswers.PostAnswers | pkg/tus/api.go:12-153 | the same for a POST of an upload that is not final |
| TusAnswers.SizeSumOfTwo | pkg/tus/tus.go:275-299 | the size of a final upload is the sum of the sizes, wherever the list is cut |
| TusHandlers.Uploader.PatchFile | pkg/tus/api.go:221-315 | from any reachable state the code goes on along a run of the protocol; every answer is given exactly when its condition on upload, headers, disk, connection, stop and hook holds, with the store and the event that go with it, locks as they were |
| TusHandlers.Uploader.PatchChecks | pkg/tus/api.go:265-307 | each check in its order, and the info that goes on to the write |
| TusHandlers.Uploader.PatchLocked | pkg/tus/api.go:253-314 | checks, declaration of the length, and write, as steps of the protocol |
| TusHandlers.Uploader.HeadFile | pkg/tus/api.go:156-217 | answers the length of the file, or that the upload is locked or missing |
| TusHandlers.Uploader.DelFile | pkg/tus/api.go:379-426 | locked, missing, removed, or not removed, each exactly when; info and file as far as their removal succeeds; locks as they were |
| TusHandlers.Uploader.PostFile | pkg/tus/api.go:12-153 | creates an upload that is not final, with or without a first chunk, along a run of the protocol; every answer exactly when its condition holds, with the store and the event that go with it |
| TusHandlers.Uploader.PostFinal | pkg/tus/api.go:41-125 | succeeds exactly when all partial uploads are complete, the sum is allowed, the disk has room and no hook refuses; which error otherwise, the answer of the run, the whole store and the events |
| TusHandlers.Uploader.SizeOfUploads | pkg/tus/tus.go:275-299 | succeeds exactly when all partial uploads are there and complete, and returns the sum of their sizes; else the error of the first that is not |
| TusHandlers.Uploader.TakeLock | pkg/tus/tus.go:326-339 | the lock, or the answer that the upload is locked |
| TusHeaders.ParseMetadataHeader | pkg/tus/common.go:51-83 | the map says of every key what the last element says that reads as that key: a key alone, or a key, one blank and base64; other elements are passed over |
| TusHeaders.CollectMeans | pkg/tus/common.go:51-83 | the same of any list of elements |
| TusHeaders.SplitJoins | pkg/tus/common.go:54-57 | splitting loses nothing |
| TusHeaders.TrimTakes | pkg/tus/common.go:55-55 | trimming takes away white space at both ends and nothing else |
| TusHeaders.SerializeMetadataHeader | pkg/tus/common.go:88-101 | the header lists every key once, in the order in which the map was visited, and is read back as the map exactly when the keys allow it |
| TusHeaders.SerializedGrows | pkg/tus/common.go:88-101 | one comma between two elements, one blank in each |
| TusHeaders.MetadataRoundTrip | pkg/tus/common.go:51-101 | for every order of the keys, parsing takes serializing back exactly when the keys meet a stated condition |
| TusHeaders.ParseConcatHeader | pkg/tus/common.go:106-144 | each outcome exactly when: nothing, partial, a list with ids, a value without an id, or anything else |
| TusHeaders.ListOfTwo | pkg/tus/common.go:121-134 | wherever the list is cut the ids come in order, and one value without an id spoils it |
| TusHeaders.ExtractBack | pkg/tus/common.go:147-153 | the id is found again behind any prefix that ends in a slash, with or without a slash added |
| TusHeaders.ExtractMeans | pkg/tus/common.go:147-153 | an id is found if and only if it stands alone or behind a slash, at the end or before one slash at the end |
| TusHeaders.RenderConcat | pkg/tus/api.go:192-201 | the loop of HEAD renders the ids as absolute URLs, blanks between them |
| TusHeaders.HeadGrows | pkg/tus/api.go:192-201 | one blank between two URLs |
| TusHeaders.ConcatRoundTrip | pkg/tus/api.go:192-201 | what HEAD answers for a final upload parses back to its partial uploads exactly when the base path is not empty or the request names no host |
| TusHeaders.EmptyBasePathLosesIds | pkg/tus/tus.go:343-354 | with an empty base path, whatever the scheme, host and ids, every id comes back with the host in front of it |
| TusHeaders.EmptyBasePathAtHostH | pkg/tus/config.go:81-91 | at http://h the partial upload a is named ha |
| TusHeaders.NumberRoundTrip | pkg/tus/common.go:155-157 | a number written into a header is read back |
| TusHeaders.ParseIntMeans | pkg/tus/tus.go:303-324 | exactly the texts of an int64 are read: perhaps a sign, perhaps zeros, and its decimal form |
| TusHeaders.ValidateNewUploadLengthHeaders | pkg/tus/tus.go:303-324 | each outcome if and only if its condition on the two headers holds |
| Fips197.ScheduleDeterminesKey | pkg/security/aes.go:337-375 | any Nk consecutive words of the schedule of section 5.2 of FIPS 197, wherever they stand, determine the whole key |
| Fips197.MixColumnsInverse | pkg/security/aes.go:262-281 | multiplication by the inverse polynomial undoes MixColumns |
| Fips197.CipherInverse | pkg/security/aes.go:236-260 | the inverse cipher takes the cipher back, for every schedule |
| Fips197.CipherInjective | pkg/security/aes.go:236-260 | different blocks have different images, for every schedule |
| AesKnownAnswers.KeyExpansionExample | pkg/security/aes.go:337-375 | the key schedule gives the round keys of Appendix A.1 of FIPS 197 |
| AesKnownAnswers.CipherExample | pkg/security/aes.go:236-260 | the cipher gives the result of Appendix B of FIPS 197 |
| AesField.SubByteIsInverseThenAffine | pkg/security/aes.go:44-65 | every entry of the table is the affine map of the inverse in GF(2^8), as section 5.1.1 of FIPS 197 defines it |
| AesField.DoubleIsXtime | pkg/security/aes.go:262-281 | the doubling in mixColumns is multiplication by x and stays within a byte |
| AesCode.MixLinesMultiply | pkg/security/aes.go:262-281 | the four written-out lines are the product with the fixed polynomial of section 5.1.3 of FIPS 197 |
| AesCode.MixColumns | pkg/security/aes.go:262-281 | the loop in place does MixColumns |
| AesCode.ShiftRows | pkg/security/aes.go:283-295 | the loop in place does ShiftRows |
| AesCode.SubBytes | pkg/security/aes.go:297-326 | the loop in place does SubBytes, every index being a byte |
| AesCode.AddRoundKey | pkg/security/aes.go:328-335 | the loop in place adds the round's four words |
| AesCode.Cipher | pkg/security/aes.go:236-260 | the code computes the cipher of section 5.1 of FIPS 197, for every schedule |
| AesCode.KeyExpansion | pkg/security/aes.go:337-375 | the code computes the key expansion of section 5.2 of FIPS 197, for keys of 16, 24 and 32 bytes |
| AesCode.RconIsPower | pkg/security/aes.go:66-78 | the round constants are the powers of x |
| AesCode.RconIndex | pkg/security/aes.go:350-365 | the index of the round constant stays within the table |
| AesCtr.AesCipher.MakeSchedule | pkg/security/aes.go:89-100 | the schedule begins with a session key and is expanded from it; the session key deciphers, under the schedule of the password itself, to the password |
| AesCtr.AesCipher.Encrypt | pkg/security/aes.go:86-157 | nonce, then every byte of the text against its byte of the enciphered counter block, a short last block included |
| AesCtr.AesCipher.Decrypt | pkg/security/aes.go:158-220 | every byte after the nonce against its byte of the enciphered counter block, nothing for eight bytes or fewer |
| AesCtr.SessionKeyIs | pkg/security/aes.go:89-100 | the inverse cipher takes the first sixteen bytes of the session key back to those of the password; the rest repeats the beginning |
| AesCtr.ScheduleIs | pkg/security/aes.go:125-125 | the first words of the schedule of a message are the words of that key |
| AesCtr.CounterIsNumber | pkg/security/aes.go:128-138 | the last eight bytes of a counter block write the number of the block, the first eight are the nonce |
| AesCtr.NonceIs | pkg/security/aes.go:101-117 | milliseconds, random number and seconds lie in the nonce with the low byte first |
| AesCtr.CountersAgree | pkg/security/aes.go:128-138 | the two formulas for the high counter word agree on a block exactly unless b + 1 is a multiple of 2^32 |
| AesCtr.CountersDistinct | pkg/security/aes.go:128-138 | no counter block of a message occurs twice |
| AesCtr.KeyStreamDistinct | pkg/security/aes.go:128-138 | no two blocks of a message are masked with the same key stream block |
| AesCtr.RoundTripWhenStreamsAgree | pkg/security/aes.go:86-220 | Decrypt takes Encrypt back exactly when the two key streams agree on the text |
| AesCtr.RoundTrip | pkg/security/aes.go:86-220 | it does for every text of fewer than 2^32 blocks and every nonce |
| AesCtr.NoRoundTripBeyond | pkg/security/aes.go:86-220 | it does not for any text of 2^32 full blocks or more |
| AesCtr.TextRoundTrip | pkg/security/aes.go:86-220 | Decrypt takes Encrypt back as texts, escaping and base64 included |
| TextCodec.Base64RoundTrip | pkg/security/aes.go:154-159 | decoding takes encoding back |
| TextCodec.DecodesExactly | pkg/security/aes.go:158-163 | exactly the texts of whole groups of symbols, of which the last two may be padding, decode |
| TextCodec.Base64Examples | pkg/security/aes.go:154-159 | the encodings of section 10 of RFC 4648 |
| TextCodec.EscapeRoundTrip | pkg/security/aes.go:224-234 | unescaping takes escaping back |
| TextCodec.EscapeExample | pkg/security/aes.go:224-226 | a text with a letter, a blank, two marks and a high byte |
| Merger.ExactlyOnce | pkg/ws/merger.go:85-171 | in every run, committed batches, open batch, message in hand and channel are the accepted messages, in order |
| Merger.CommittedOnce | pkg/ws/merger.go:59-83 | no batch is committed twice |
| Merger.StaleTimeoutsCommitNothing | pkg/ws/merger.go:124-132 | a commit that a timeout caused is a commit of that timeout's batch |
| Merger.OpenBatchIsTimed | pkg/ws/merger.go:112-123 | a waiting batch that marshals has its timer armed or its timeout on the way, and is not full |
| Merger.BatchSizes | pkg/ws/merger.go:117-123 | committed batches are never empty and never larger than the limit |
| Merger.NothingLeftBehind | pkg/ws/merger.go:136-142 | at rest every accepted message has been committed exactly when all accepted messages marshal; nothing is pending, and then the counters agree |
| Merger.PoisonedForever | pkg/ws/merger.go:66-82 | a batch with an item that does not marshal is never committed, keeps its items, and nothing is committed after it |
| Merger.PoisonIsReached | pkg/ws/merger.go:66-82 | for every message that does not marshal, and channels with room for at least one, there is a run that gets there |
| MergeWorkers.MergeWorker.PushAll | pkg/ws/merger.go:157-171 | accepts exactly when the channel has room |
| MergeWorkers.MergeWorker.OnContext | pkg/ws/merger.go:95-143 | one turn with a message: added in order, committed exactly when full and marshalling, with timers and counters |
| MergeWorkers.MergeWorker.OnTimeout | pkg/ws/merger.go:124-143 | one turn with a timeout: commits exactly the batch it belongs to, a stale one changes nothing |
| MergeWorkers.MergeWorker.FireTimer | pkg/ws/merger.go:112-115 | the timer of a batch runs out, at any moment |
| MergeWorkers.MergeWorker.AutoCommit | pkg/ws/merger.go:53-57 | the batch goes to the timeout channel exactly when there is room, and waits otherwise |
| MergeWorkers.MergeWorker.CommitOpen | pkg/ws/merger.go:59-83 | hands the open batch over, or keeps it when it does not marshal |
| Broadcast.EveryMessageArrives | pkg/ws/merger.go:59-83 | merger and fan-out run together: at rest, when all marshal and encode, every message the merger accepted is in one batch, in order, and each batch is with every bucket exactly once, or was refused |
| Broadcast.RefusedWhenFull | pkg/ws/connMgr.go:165-183 | a committed batch was refused exactly when the dispatch channel was full at the step that committed it |
| Broadcast.BatchesInOrder | pkg/ws/connMgr.go:82-104 | with one dispatch worker the batches stand in every channel in the order in which they were committed |
| Rooms.RoomsAgree | pkg/ws/connection.go:222-292 | at rest a connection is in exactly the rooms it knows of, in the bucket of its id, nobody else is, and no join or leave ever fails |
| Rooms.RoomsCounted | pkg/ws/bucket.go:25-66 | no room is empty, RoomCount is the number of rooms, nobody is in more rooms than allowed |
| Rooms.OthersStay | pkg/ws/connection.go:280-292 | what one connection does changes no other connection's rooms |
| Rooms.LeaveUndoesJoin | pkg/ws/bucket.go:25-66 | leaving after joining gives back the very same rooms |
| RoomObjects.Room.Join | pkg/ws/Room.go:22-37 | refuses a second join, adds one member otherwise |
| RoomObjects.Room.Leave | pkg/ws/Room.go:39-54 | refuses who is not in the room, takes one member out otherwise |
| RoomObjects.Bucket.JoinRoom | pkg/ws/bucket.go:25-42 | the whole new state of the bucket, the error, and the counter |
| RoomObjects.Bucket.LeaveRoom | pkg/ws/bucket.go:44-66 | the whole new state of the bucket, the error, and the counter; an emptied room is removed |
| RoomObjects.Bucket.AddConn | pkg/ws/bucket.go:68-73 | one entry of the index |
| RoomObjects.Bucket.DelConn | pkg/ws/bucket.go:75-80 | one entry of the index |
| RoomObjects.Bucket.DelConnByCID | pkg/ws/bucket.go:82-93 | closes and forgets one connection, touches no other and no rooms |
| RoomObjects.ConnManager.JoinRoom | pkg/ws/connMgr.go:61-69 | changes the bucket of the connection's id and no other |
| RoomObjects.ConnManager.LeaveRoom | pkg/ws/connMgr.go:71-79 | changes the bucket of the connection's id and no other |
| RoomObjects.ConnManager.AddConn | pkg/ws/connMgr.go:134-143 | index and counter together |
| RoomObjects.ConnManager.DelConn | pkg/ws/connMgr.go:145-154 | index and counter together |
| RoomObjects.Connection.HandleJoin | pkg/ws/connection.go:222-250 | afterwards the connection is in the rooms it was in, and in the one asked for exactly when that has a name, the limit is not reached and the bucket takes it; the error exactly; bucket and counter |
| RoomObjects.Connection.HandleLeave | pkg/ws/connection.go:253-278 | leaves exactly the room it is in; both sides change together |
| RoomObjects.Connection.LeaveAll | pkg/ws/connection.go:280-292 | in any order: the connection is in no room, its bucket is what the specification says, every other bucket as it was |
| RoomObjects.LeftAllMeans | pkg/ws/connection.go:280-292 | after leaveAll this connection is gone from these rooms and everybody else is where they were |
| RoomHub.Hub.Agreement | pkg/ws/connection.go:222-292 | after any sequence of the calls below, of any connections: a bucket has exactly the members that the connections of its ids say, no room is empty, RoomCount counts the rooms, the join limit is kept |
| RoomHub.Hub.HandleJoin | pkg/ws/connection.go:222-250 | a join is a stretch of a run of Rooms; it fails for an empty name only, and joins exactly when the limit is not reached |
| RoomHub.RoomsCanFill | pkg/ws/connection.go:234-236 | for every number up to maxJoinRoom a run leads a connection into exactly that many rooms |
| RoomHub.Hub.HandleLeave | pkg/ws/connection.go:253-278 | the code of a leave is a stretch of a run of Rooms; it fails for an empty name only |
| RoomHub.Hub.LeaveAll | pkg/ws/connection.go:280-292 | leaveAll, in whatever order it visits the rooms, is a stretch of a run of Rooms |
| FanOut.SentExactlyOnce | pkg/ws/connMgr.go:82-104 | a finished job was sent to every bucket once, a failed one to none, none to a bucket twice |
| FanOut.PendingIsQueued | pkg/ws/connMgr.go:97-116 | PushJobPending is the number of queued jobs, but for jobs between a counter and a channel |
| FanOut.DispatchPendingDrifts | pkg/ws/connMgr.go:165-203 | DispatchPending is exact but for one too few for every PushRoom job accepted |
| FanOut.AllSent | pkg/ws/connMgr.go:82-122 | with no dispatch under way every accepted job that encodes has gone to every bucket once, and channels keep their order |
| FanOutProgress.SomeWorkerCanGoOn | pkg/ws/connMgr.go:82-122 | with a worker of each kind and a place in each channel, some worker can go on in every reachable state that is not at rest |
| FanOutProgress.WorkIsDone | pkg/ws/connMgr.go:82-122 | while nothing is pushed, the workers take no more steps than the work that was left, whatever the order |
| FanOutProgress.CanDrain | pkg/ws/connMgr.go:82-122 | from every reachable state the workers can come to rest, in no more steps than that, and nothing accepted is forgotten |
| FanOutOrder.OneWorkerKeepsOrder | pkg/ws/connMgr.go:82-104 | with one dispatch worker every bucket is sent the accepted jobs that encode in the order in which they were accepted |
| FanOutOrder.TwoWorkersOvertake | pkg/ws/connMgr.go:82-104 | with two or more there is a run in which the second job is in a channel and the first is not |
| FanOutWorkers.Channels.Push | pkg/ws/connMgr.go:165-203 | accepts exactly when there is room; only PushAll is counted |
| FanOutWorkers.Channels.DispatchTurn | pkg/ws/connMgr.go:82-104 | one job to the end of every bucket's channel, or to none when it does not encode |
| FanOutWorkers.Channels.JobTurn | pkg/ws/connMgr.go:107-122 | one job from one channel, delivered when it is for all |
| ExportPlan.SheetBound | pkg/export.go:286-306 | every sheet holds fewer than SheetSize + PageSize rows, for all options |
| ExportPlan.SheetSizeKept | pkg/export.go:464-488 | SheetSize is kept exactly when there is one sheet or a sheet's pages fit into it |
| ExportPlan.NoSheetEmpty | pkg/export.go:464-488 | no sheet is empty exactly when the pages reach the last one |
| ExportPlan.DividingSizes | pkg/export.go:215-218 | when PageSize divides SheetSize every sheet holds between 1 and SheetSize rows |
| ExportPlan.SizesThatDoNotDivide | pkg/export.go:286-306 | 12 rows in pages of 3 and sheets of 4: six rows on the first sheet, none on the third |
| ExportPlan.PagesCover | pkg/export.go:295-301 | the pages hold all rows to be written, and one page fewer would not |
| ExportPlan.SheetsCover | pkg/export.go:486-488 | the sheets take all pages |
| ExportCode.Export.Before | pkg/export.go:286-310 | totals of pages and sheets: as many as hold the smaller of total and limit, and one fewer would not; one page for no rows |
| ExportCode.Export.ExportList | pkg/export.go:608-652 | as many rows as the limit allows, in order, in consecutive rows; the limit is noticed by the row after it |
| ExportCode.Export.OneSheet | pkg/export.go:464-544 | the pages of one sheet, rows 2, 3, ... |
| ExportCode.Export.Processor | pkg/export.go:460-544 | all rows on their sheets as planned, every page fetched once and in order |
| ExportCode.ExportAll | pkg/export.go:208-230 | a fresh export writes exactly the smaller of total and LimitSize rows; row i stands on the sheet and in the row that its number gives, sheets taking whole pages evenly; every page fetched once and in order |
| ExportCode.CellAt | pkg/export.go:460-544 | sheet and row of the i-th row of the data, for all options and totals |
| ExportCode.RowsInOrder | pkg/export.go:608-652 | read sheet by sheet, the rows are the data |
| Otp.TimeStepsOnce | pkg/goauth/goauth.go:91-123 | no time step is accepted twice, as long as the later clock is not behind that of an attempt accepted in between |
| Otp.ReplayedExactlyWhenDropped | pkg/goauth/goauth.go:91-123 | over all runs: an attempt for a step that was accepted is accepted again exactly when an accepted attempt in between had a window beginning above that step, and the step was not accepted since |
| Otp.ListSize | pkg/goauth/goauth.go:105-116 | the list stays strictly increasing and within the window's size |
| Otp.ClockRunningBack | pkg/goauth/goauth.go:91-123 | for every secret and window: a password, one of a later window, and the first again at its old time are all accepted |
| Otp.ClockRunningBackFromTwenty | pkg/goauth/goauth.go:91-123 | three such attempts, in numbers |
| Otp.PositionsIncrease | pkg/goauth/goauth.go:74-89 | accepted counter positions strictly increase |
| Otp.CounterAdvances | pkg/goauth/goauth.go:74-89 | every attempt in counter mode moves the counter past what it accepted |
| Otp.ModeStays | pkg/goauth/goauth.go:152-155 | an account never changes between counter and time |
| Otp.ScratchCodesAreSpent | pkg/goauth/goauth.go:59-72 | uses of a code and copies left always add up to the copies there were |
| OtpCode.OTPConfig.CheckScratchCodes | pkg/goauth/goauth.go:59-72 | removes exactly one copy, or changes nothing |
| OtpCode.OTPConfig.CheckHotpCode | pkg/goauth/goauth.go:74-89 | the first position in the window that has the code, or the next counter |
| OtpCode.OTPConfig.CheckTotpCode | pkg/goauth/goauth.go:91-123 | accepts exactly when the first step in the window that has the code is not in the list, or there is no list; the new list |
| OtpCode.OTPConfig.Record | pkg/goauth/goauth.go:98-116 | the new list, and that the trimming loop never runs off its end |
| OtpCode.OTPConfig.Authenticate | pkg/goauth/goauth.go:128-165 | None exactly for a password that is not well formed; a scratch code exactly when it is in the list, a counter code exactly when a position of the window has it, a time code as above; and the whole new state |
| Otp.Answers | pkg/goauth/goauth.go:128-165 | the same of the function that the theorems over runs speak of |
| Rsa.Split | pkg/security/rsa.go:66-78 | the loop computes the pieces, and ends for every positive length |
| Rsa.ChunksPartition | pkg/security/rsa.go:66-78 | the pieces are a partition, all of the length asked for but the last, which is not empty |
| Rsa.ChunksOfBlocks | pkg/security/rsa.go:103-103 | blocks of one length are found again in their concatenation |
| Rsa.ChunkAt | pkg/security/rsa.go:66-78 | piece i is what lies between i and i + 1 times the length |
| Rsa.Encrypt | pkg/security/rsa.go:80-94 | the text is the escaped text cut at every k - 11 bytes, piece i sealed with its own random bytes, one after the other, in base64 |
| Rsa.Decrypt | pkg/security/rsa.go:96-114 | fails exactly when the text is not base64 or one of its pieces of k bytes does not unseal; else the unsealed pieces in order, unescaped |
| Rsa.RoundTrip | pkg/security/rsa.go:80-114 | with keys that belong together Decrypt takes Encrypt back, for every text and all random bytes |

## Left out

- HTTP itself, CORS, logging, metrics, progress ticks, download by GET, and JSON encoding: only the request fields and
  the outcomes named above are kept.
- `pkg/tus/filelocker`: the in-memory locker is the one in use; all extensions are switched on.
- A failing read or rewrite of a `.info` file: the rewrite is one step and always whole.
- An id is new when it is made, and no client knows it before its POST is answered: the protocol assumes both.
- TusTheorems.SizesHold: says nothing of MaxSize while a length is deferred, because the code limits each chunk but
  declares no size then.
- TusHandlers.Uploader.PostFile: one answer WriteOk stands for the success of a POST with a chunk; the Location header
  is not kept.
- TusHandlers.Uploader.PatchFile: asks that offset and Content-Length add up within an int64, as every request of
  TusProtocol does; what the size test does beyond is in TusStore.ChunkFitsUnlessWrapped. A handler's own code goes
  from its start to its end without another in between; interleaving is in TusProtocol, whose steps it takes.
- TusHandlers.Uploader.SizeOfUploads: asks that the sizes add up within an int64, as TusProtocol does.
- A POST of a final upload that brings a chunk, and a creation hook that refuses, end in the protocol's step for
  a handler that gives up.
- AesCtr.AesCipher.Encrypt: asks that the key's used characters have codes below 256 and that the text has at most
  2^40 blocks, beyond which the code leaves the tables; its floating-point quotients are integers here.
- The clock and the random number in the nonce are parameters.
- Rsa.RoundTrip: takes the padding and exponentiation of PKCS #1 as functions with the stated lengths and inverse;
  reading PEM keys is not modelled, nor a key of 11 bytes or fewer, for which the code cannot run.
- Otp.TimeStepsOnce: ComputeCode is a function of the counter; HMAC-SHA1 and base32 are not modelled, and counters
  do not overflow.
- ExportCode.Export.Processor: writing of cells, headers, styles, pictures, summary and parameter sheets, and every
  error of the Excel library, are not modelled; LimitSize stays below 2^31.
- RoomHub.Hub.HandleJoin: a call runs from its start to its end without another in between; calls half done are in
  Rooms.
- Broadcast.EveryMessageArrives: json.Marshal of a batch is a function; pushes by others are steps of the fan-out.
- TusProgress.CanGoOn: a final POST whose sizes add up beyond an int64 is let give up.
- Rooms: the routing of join and leave requests is commented out in the source; they are operations of the
  connection's own goroutine here.
- FanOutWorkers.Channels.DispatchTurn: asks for room in every channel; waiting for room is in FanOut.
- Merger.ExactlyOnce: channels have a buffer; one of size 0, through which a message could be handed straight over,
  takes nothing here. The same holds of FanOut.
- Sockets, heartbeats, read and write loops, and service dispatch in `pkg/ws`.
- `sdk/`, `core/`, `pkg/security/rc4.go`, `pkg/otp`, captcha, database, address and file helpers.
