# Verified model of the upload service

The service stores videos uploaded in chunks.  A client asks for an upload, writes each
chunk with a presigned link, reports it complete, and asks for a merge; a worker, or a
publishing request, assembles the chunks with an S3 multipart copy; afterwards the chunks
are deleted.  This project models that protocol and the parts around it that carry state or
arithmetic, and proves what they keep.

**The protocol.** `Protocol` is a transition system: the upload, chunk and video rows, the
object store, open multipart uploads, the merge queue and the cleanup requests.  One event
is one database or storage call taking effect, so handlers, the merge worker, publishers,
the deleter (one key at a time) and clients interleave freely, and any call may fail before
or after taking effect.  `Invariant` proves what each event keeps, `Theorems` what holds in
every reachable state: no byte is lost, Success means the right bytes, a merge has a gate,
and uploads never touch each other's objects.  The store knows an object by the path its
requests name (`Destinations`), and `Addresses` says when that is the StoragePath and what is
signed.  `AnyWrites` proves what remains when clients may write anything.  `Sizes` is about the window between the size
check and the mark of a completed chunk, in which a client may still write.

**The handlers.** `Server` writes the handlers and workers as the source does, as methods
that issue those events.  Before each call the rest of the system may run any events
(`Interfere`), so each handler is proved to stay within the protocol under every
interleaving.  With `quiet` set nothing interferes and the contract is a relation of
`HandlerSpecs` listing every outcome.  `failing` holds the kinds of call that may fail: the
contracts say what each failure leads to, and when none fails they determine the outcome.
Each handler is also proved to touch only claims of its own, and `Rely` shows that this is what
the others rely on.  `AtomicRuns` proves what holds when requests are served one at a time
while the workers and clients still act between them, call by call.

**Around it.** `Percent`, `Query`, `EncodedOrder` and `Presign` model the AWS Signature
Version 4 client, against `SigV4`, the standard in its own terms; `Url` models the two paths of
a URL, parsed and printed, `Links` the links of chunks and images, `PresignRefresh` the cached
write links, `Cleanup` the batching deleter, `Paging` the video lists and `Tags` tag
normalization.  `Keys`, `Texts`, `Sorting` and `Basics` are shared.

Assumptions about the surroundings:

- Once a chunk has been marked completed, a client that writes it again writes the same bytes
  (`ClientMayPut`); `Theorems.RewriteIff` shows that before the merge other bytes would replace
  the chunk's.  Until the mark clients write what they like, also between the size check and
  the mark: then the bytes are those at the mark, and `Sizes` says exactly when the recorded
  size is theirs.
- Ids drawn for uploads, chunks, videos, checks and multipart uploads are fresh, and no two
  handlers draw the same; upload ids are hexadecimal digits and '-'; user ids hold no '/',
  escaped or not.  In paths and file names a character stands for one byte.
- One database call is one atomic step with exact string comparison, and BatchCreate writes
  all rows or none.  A 2xx answer of the store means that the operation was done; a merge
  request that arrives without its own query gets no such answer.
- The clock does not go back.

Where the comments in the source promise more than the code does, the model follows the
code: PresignChunk resets a Completed chunk to Uploading, CompleteChunk sets Merging without
queueing a task, a full merge queue drops tasks, a slower merge or a failed transcode can
replace Success by Failed, a chunk's recorded size may not be that of its bytes, the canonical
query is sorted by decoded names, a merged object stands at its StoragePath only when the
extension needs no decoding and does not end the path (`Addresses.StandsThereIff`; the file
"v.%41" is stored elsewhere and reported as Success), and links and requests are signed for the
decoded path, which a verifier computes too only when no byte of it needs escaping.

## Model

| member | source | states |
|---|---|---|
| `Theorems.BytesConserved` | ddd/infrastructure/task/merge_task.go:53-75 | In every reachable state, for each upload: the object its merge requests name holds the whole concatenation, or every once-completed chunk body is still at its key; merges, publishes, deletes and failures interleave freely |
| `Theorems.CleanupImpliesAssembled` | ddd/application/app/video_app.go:94-96 | Every cleanup request ever made belongs to an upload whose object, at the key its merge requests name, already holds all its bodies |
| `Theorems.SuccessMeansRightBytes` | ddd/domain/service/video_publish_service.go:77-147 | While an upload is Success, or a video row refers to it, the object its merge requests name is body(0)+...+body(n-1) in index order, each body being what stood at the chunk's key when it was first marked completed |
| `Theorems.AbsentOrComplete` | ddd/infrastructure/rustfs/rustfs_service_impl.go:112-135 | The object that an upload's merge requests name is absent or the whole concatenation, never a prefix or a mixture |
| `Theorems.AssembledForever` | ddd/domain/service/video_publish_service.go:96-104 | Once assembled, the object keeps the same bytes for the rest of any run, through re-merges, callbacks and cleanups |
| `Theorems.MultipartAssembly` | ddd/infrastructure/rustfs/rustfs_service_impl.go:120-134 | Any multipart upload a run completes lists parts 1..n ascending, 1 <= n <= 4096, one per chunk row, and stores exactly the ordered concatenation at the key its requests name, leaving every other object alone |
| `Theorems.OnlyCompletionWrites` | ddd/infrastructure/rustfs/rustfs_service_impl.go:121-133 | No event but completing one of its own multipart uploads changes the object an upload's merge requests name: a failed copy leaves it as it was |
| `AnyWrites.RunsAreAnyRuns` | ddd/domain/service/upload_service.go:290-301 | Every run of the protocol is a run without the assumption about clients |
| `AnyWrites.AbsentOrCopied` | ddd/infrastructure/rustfs/rustfs_service_impl.go:112-135 | With no assumption about clients at all: an upload's object, if there is one, is n strings in index order, string i being what stood at chunk key i at a moment when it was copied as part i+1 of one multipart upload |
| `AnyWrites.OnlyMergesReplace` | ddd/infrastructure/rustfs/rustfs_service_impl.go:121-133 | With no assumption about clients, only completing one of its own multipart uploads replaces that object, and nothing removes it |
| `Addresses.StandsThereIff` | ddd/application/app/video_app.go:124-130 | A Success upload, or one with a video, has an object at its StoragePath, the path that is announced, exactly when the extension holds no '%', '#', '?' or control byte (nor the user id any); it is then the concatenation of the bodies |
| `Addresses.BytesAtPath` | ddd/infrastructure/task/merge_task.go:53-75 | For such extensions and user ids no byte is lost at the literal paths: the concatenation is at StoragePath or every body at its chunk key |
| `Addresses.SuccessElsewhere` | ddd/infrastructure/rustfs/rustfs_service_impl.go:427-430 | A reachable Success for the file name v.%41, every request signed for what a verifier computes: the only object left stands at the path ending in .A, and nothing at StoragePath |
| `Addresses.StoragePathNamedIff` | ddd/infrastructure/rustfs/rustfs_service_impl.go:57-71 | In every reachable state the merge requests of an upload, of a user whose id holds no such byte, name its StoragePath itself exactly when the extension holds no '%', '#', '?' or control byte |
| `Addresses.MergeSignedIff` | ddd/infrastructure/rustfs/rustfs_service_impl.go:437-472 | In every reachable state, for plain user ids, they name it and are signed for the path a verifier computes exactly when the extension is unreserved bytes and '/'; requests that name any path are signed so exactly when the decoded extension is |
| `Addresses.MergeNamedIff` | ddd/infrastructure/rustfs/rustfs_service_impl.go:427-430 | For every path: requests with different queries, as a merge sends, are all made and arrive with their own query exactly when the path has a destination, and then they name it |
| `Destinations.StoreKeysApart` | ddd/infrastructure/rustfs/rustfs_service_impl.go:57-71 | The keys that merge requests of different uploads name differ, whatever the file names hold, escaped '/' and '.' included |
| `Destinations.ChunkIsNoDestination` | ddd/infrastructure/rustfs/rustfs_service_impl.go:57-79 | No merge request names a chunk key |
| `Destinations.DecodedPath` | ddd/infrastructure/rustfs/rustfs_service_impl.go:63-70 | Percent-decoding a StoragePath decodes its user id and its extension and nothing else |
| `Theorems.RewriteIff` | ddd/domain/service/upload_service.go:290-301 | What the code cannot enforce after a mark: re-writing a completed chunk before its merge keeps its body at its key exactly when the same bytes are written |
| `Sizes.MarkSizeIff` | ddd/domain/service/upload_service.go:290-301 | A mark leaves the recorded size equal to the length of the chunk's bytes exactly when the object still has the length HeadObject answered |
| `Sizes.UndisturbedMark` | ddd/domain/service/upload_service.go:290-301 | In any run, a chunk that nobody writes with another length between the size check and the mark of a CompleteChunk call gets its true length recorded, whatever else happens meanwhile |
| `Sizes.CarefulSizes` | ddd/domain/service/upload_service.go:290-301 | In any run in which a chunk is never written with another length while one of its CompleteChunk calls is in flight, its recorded size is the length of its bytes |
| `Sizes.RecordedSizeIff` | ddd/domain/service/upload_service.go:290-301 | After any run, a chunk's recorded size is what the check behind its last mark saw, and it is the length of the chunk's bytes exactly when what stood at that mark still had that length |
| `Sizes.SuccessMeansRecordedSize` | ddd/domain/service/video_publish_service.go:77-111 | If every chunk is written that carefully, the object of a Success upload is as long as the recorded chunk_size values together |
| `Sizes.SizesCanDiffer` | ddd/domain/service/upload_service.go:290-301 | Otherwise it need not be: a run in which 5 bytes are checked, 7 are written before the mark, and the upload ends Success with 7 bytes and a recorded 5 |
| `Theorems.Gate` | ddd/domain/service/upload_service.go:164-213 | An upload that is Merging, Success or Failed, is queued, or is inside a merge has had every index 0..n-1 completed |
| `Theorems.OneRowPerIndex` | ddd/domain/service/upload_service.go:72-91 | Exactly one chunk row per index 0..n-1, at the chunk prefix followed by the index in decimal |
| `Theorems.IndexInRange` | ddd/domain/service/upload_service.go:78-83 | Every chunk row belongs to an upload and its index is below that upload's total |
| `Theorems.KeysNeverMeet` | ddd/infrastructure/rustfs/rustfs_service_impl.go:57-79 | Keys of different chunks differ, no chunk key is one that merge requests name, and those of different uploads differ, whatever percent triples the file names hold |
| `Theorems.Isolation` | ddd/infrastructure/rustfs/rustfs_service_impl.go:268-298 | Completing a merge of one upload, or deleting one of its chunks, leaves every object of every other upload unchanged |
| `Theorems.RunKeeps` | ddd/infrastructure/task/merge_task.go:50-76 | Every run of any length and interleaving keeps the invariant of the tables, the store, the open multipart uploads, the queues and the cleanup requests |
| `Invariant.StepKeeps` | ddd/domain/service/video_publish_service.go:77-111 | Each single database or storage call keeps the invariant, and rows and history only grow |
| `Invariant.CountMeansAll` | ddd/infrastructure/database/dao/upload_chunk_dao.go:76-84 | A count of Completed rows equal to TotalChunks means every index has a completed row (cardinality against the one-row-per-index layout) |
| `Invariant.CompletedBytes` | ddd/infrastructure/rustfs/rustfs_service_impl.go:219-250 | Accepted parts 1..n assemble to the concatenation of all chunk bodies in index order |
| `Keys.DecimalInjective` | ddd/infrastructure/rustfs/rustfs_service_impl.go:272 | Decimal printing of indices is injective |
| `Keys.DecimalIs` | ddd/infrastructure/rustfs/rustfs_service_impl.go:272 | Printed indices are decimal digits, most significant first, without leading zeros |
| `Keys.StoragePathPrinted` | ddd/infrastructure/rustfs/rustfs_service_impl.go:57-71 | uploads/user/year/month/day/upload.extension |
| `Keys.ChunkKeyPrinted` | ddd/infrastructure/rustfs/rustfs_service_impl.go:73-79 | chunks/year/month/day/upload/chunk_index |
| `Keys.ExtensionIs` | ddd/infrastructure/rustfs/rustfs_service_impl.go:63-67 | The extension is what follows the last dot, or nothing |
| `Keys.ChunkKeysApart` | ddd/infrastructure/rustfs/rustfs_service_impl.go:73-79 | Chunk keys of (upload, index) pairs meet only for the same pair, whatever days they were generated on |
| `Keys.StoragePathsApart` | ddd/infrastructure/rustfs/rustfs_service_impl.go:57-71 | Merged paths of different uploads differ, whatever stands after the upload's id |
| `Keys.ChunkIsNotMerged` | ddd/infrastructure/rustfs/rustfs_service_impl.go:57-79 | No chunk key is a merged path |
| `Server.Service.UploadVideoInit` | ddd/domain/service/upload_service.go:39-94 | Resumes the known file's upload without writing, or creates it with one row per index in one transaction; exact when no call fails, any interference otherwise |
| `Server.Service.NewChunkEntities` | ddd/domain/service/upload_service.go:77-83 | The loop builds one Initialized entity per index, each at prefix+index |
| `Server.Service.BatchCreate` | ddd/infrastructure/database/dao/upload_video_dao.go:33-45 | All rows or none |
| `Server.Service.PresignChunk` | ddd/domain/service/upload_service.go:216-264 | Alone: an answer means that the chunk went to Uploading, even if it was Completed; chunk 0 takes Init to Uploading; a completed chunk gets no link, and every other the link for its key unless signing fails |
| `Server.Service.CompleteChunk` | ddd/domain/service/upload_service.go:266-320 | Alone: an answer without error means that the caller's chunk had the announced size at its key and that its row is Completed with that size and hash; if all rows are, the upload is then Merging unless Merging or Success, or that write failed; an error leaves the upload's status alone, and there is none when the size matches and no call before the status write fails.  Under interference a success still means the chunk's bytes are fixed |
| `Server.Service.MergeChunks` | ddd/application/app/upload_app.go:110-123 | Which of error, success and processing is answered, when Merging is written, and when a task is queued or dropped because the queue is full |
| `Server.Service.CheckMergeChunk` | ddd/domain/service/upload_service.go:164-181 | The caller's upload exactly when all its chunk rows are Completed |
| `Server.Service.EnqueueMergeTask` | ddd/infrastructure/task/merge_task.go:36-48 | Appends to the queue, or drops the task when 128 are waiting |
| `Server.Service.MergeWorkerTask` | ddd/infrastructure/task/merge_task.go:50-76 | Takes the oldest task; alone, the upload's status then is Success if its merge finished and Failed however else it ended (not started, a failed copy, a failed completion), unless the row could not be read or that status write itself failed; a cleanup is asked for exactly after a recorded Success.  Without failures, exactly which of the two |
| `Server.Service.MergeObjects` | ddd/infrastructure/rustfs/rustfs_service_impl.go:112-135 | Alone: an end other than Finished leaves no multipart upload open unless starting or aborting it failed too, and no object changed before completion was asked for; it is not started exactly when the requests name no path, and stops at a copy exactly when a source chunk is missing, unless those calls fail; Finished stores the concatenation of the sources |
| `Server.Service.CopyParts` | ddd/infrastructure/rustfs/rustfs_service_impl.go:120-129 | The copy loop: parts listed are exactly 1..n with the stored etags and the source bytes; a failed copy aborts the multipart upload |
| `Server.PartsAreSources` | ddd/infrastructure/rustfs/rustfs_service_impl.go:121-130 | Parts 1..n copied from the sources assemble to the sources' concatenation |
| `Server.Service.DeleteChunks` | ddd/infrastructure/rustfs/rustfs_service_impl.go:268-298 | Under any interference its own deletes are the indices 0..n-1, each exactly once and in order whatever the earlier answers, and the error returned is that of the lowest failing index, nil if none failed.  Alone, nil also means that none of the keys remains |
| `Server.OneMoreAttempt` | ddd/infrastructure/rustfs/rustfs_service_impl.go:271-296 | One more delete extends the attempted prefix by its index and keeps the first error |
| `Server.Service.MergeUploadVideo` | ddd/domain/service/video_publish_service.go:77-111 | The publisher's own gate and merge: Success returned unchanged; otherwise count, Merging written, merge, then Success or Failed; handed on only when the merge finished and Success was recorded |
| `Server.Service.PublishUpload` | ddd/domain/service/video_publish_service.go:40-75 | A video row is created exactly for the caller's upload that is, or has just become, Success; the cleanup flag is set exactly when this call merged, whatever fails |
| `Server.Service.PublishVideo` | ddd/application/app/video_app.go:65-145 | What is announced is the StoragePath of an assembled upload.  Alone, whatever fails: a refused precreation leaves the video Processing, a task that is not produced leaves video and upload Failed (if the database does not fail too), nothing else than Processing or Failed is ever written, and a cleanup is asked for exactly when this call merged.  Without failures, exactly which rows, objects and requests result |
| `Server.Service.UpdateVideoTranscodeInfo` | ddd/domain/service/video_publish_service.go:113-147 | Sets the video row, then Success or Failed on its upload for a published or failed status; a failing read or video write leaves the upload alone; an unknown video changes nothing |
| `Server.Service.CountChunk` | ddd/infrastructure/database/dao/upload_chunk_dao.go:76-84 | The number of rows of the upload with status Completed |
| `HandlerSpecs.RestatusIs` | ddd/infrastructure/database/dao/upload_video_dao.go:29-31 | A status write changes the status of one upload row and nothing else |
| `Server.Service.MarkChunkCompleted` | ddd/infrastructure/database/dao/upload_chunk_dao.go:109-125 | Status, hash and size of the row; the first one fixes the chunk's body to the bytes at its key at that moment |
| `Server.Service.HeadObject` | ddd/infrastructure/rustfs/rustfs_service_impl.go:398-425 | The object's size, or no answer |
| `AtomicRuns.PhaseOrder` | ddd/domain/service/upload_service.go:203-245 | With requests served one at a time, publishes and callbacks included, no upload returns to Init, nor from Merging, Success or Failed to Uploading |
| `AtomicRuns.OneMergeAtATime` | ddd/infrastructure/task/merge_task.go:36-76 | With requests served one at a time and without publishes and callbacks, an upload has at most one pending or running merge task, and is Merging while it has one, across full queues, lost writes and retries |
| `AtomicRuns.ResumeIsStable` | ddd/domain/service/upload_service.go:44-94 | After the first successful init of a file, every later successful one in any run returns the same upload and the same chunk rows in index order and adds no row |
| `AtomicRuns.RowsAreIds` | ddd/infrastructure/database/dao/upload_chunk_dao.go:97-107 | Rows ordered by chunk_index are one fixed list, one row per index |
| `AtomicRuns.ServesRows` | ddd/infrastructure/database/dao/upload_video_dao.go:33-45 | Only an init adds rows; every other step moves at most one upload's status, and not to an earlier phase |
| `Rely.RelyHolds` | ddd/infrastructure/task/merge_task.go:50-76 | Over any part of a run whose events touch none of a handler's calls, ids, multipart uploads or the worker's role, everything the handler relies on is kept |
| `Rely.RelyMeetsGuarantee` | ddd/infrastructure/task/merge_task.go:50-76 | Handlers that run together, each touching only claims of its own as every handler's Valid() says, no claim owned twice: between its own calls each finds its claims kept, which is what it relies on |
| `Percent.PercentEncodeLoop` | ddd/infrastructure/rustfs/rustfs_service_impl.go:523-534 | The byte loop computes the escaping |
| `Percent.EscapeRoundTrip` | ddd/infrastructure/rustfs/rustfs_service_impl.go:523-534 | Decoding undoes escaping, for every byte string and for both treatments of '+' |
| `Percent.EncodeInjective` | ddd/infrastructure/rustfs/rustfs_service_impl.go:523-534 | percentEncode is injective |
| `Percent.EscapeConcat` | ddd/infrastructure/rustfs/rustfs_service_impl.go:523-534 | Escaping distributes over concatenation |
| `Percent.EncodeIsWellEncoded` | ddd/infrastructure/rustfs/rustfs_service_impl.go:527-531 | Only letters, digits and -._~ are emitted, and for every other byte '%' with two digits of 0-9 or A-F (sections 2.1 and 2.3 of RFC 3986) |
| `Percent.WellEncodedIsEncoding` | ddd/infrastructure/rustfs/rustfs_service_impl.go:523-534 | Conversely, every such string is the escaping of what it decodes to |
| `Percent.EscapeNoSeparators` | ddd/infrastructure/rustfs/rustfs_service_impl.go:513-517 | '&', '=' and ';' never occur in escaped text, so in the output they are separators |
| `Percent.DecodesIff` | ddd/infrastructure/rustfs/rustfs_service_impl.go:485 | Text decodes exactly when every '%' in it is followed by two hexadecimal digits of either case |
| `Percent.HexValueIs` | ddd/infrastructure/rustfs/rustfs_service_impl.go:485 | Hexadecimal digits of both cases have the values 0 to 15, and no other byte has one |
| `Percent.DecodesTriple` | ddd/infrastructure/rustfs/rustfs_service_impl.go:485 | A '%' and two digits decode to the byte they spell, in front of any text |
| `Percent.DecodesByte` | ddd/infrastructure/rustfs/rustfs_service_impl.go:485 | Every other byte decodes to itself, and a '+' to a space in a query |
| `Query.ParseQuery` | ddd/infrastructure/rustfs/rustfs_service_impl.go:485 | The map of Go's query parser: bad and ';' segments dropped, '+' as space, values in order of appearance |
| `Query.SegmentParsed` | ddd/infrastructure/rustfs/rustfs_service_impl.go:485 | A segment without ';' is a name and a value around its first '=', or a name alone, and is dropped when one of them does not decode |
| `Query.SemicolonDropped` | ddd/infrastructure/rustfs/rustfs_service_impl.go:485 | A segment with a ';' is dropped |
| `Query.BlankAscii` | ddd/infrastructure/rustfs/rustfs_service_impl.go:482-484 | An ASCII query counts as blank exactly when it holds nothing but tabs, line ends and spaces |
| `Query.CutIsSpace` | ddd/infrastructure/rustfs/rustfs_service_impl.go:482-484 | What is trimmed from the front of a query is the UTF-8 form of a Unicode white-space character |
| `Query.SpaceIsCut` | ddd/infrastructure/rustfs/rustfs_service_impl.go:482-484 | Every such character is trimmed |
| `Query.CanonicalizeQuery` | ddd/infrastructure/rustfs/rustfs_service_impl.go:481-521 | Sorting keys, then each key's values, and writing the blocks gives the sorted list of all pairs, encoded |
| `Query.BlocksAreSortedPairs` | ddd/infrastructure/rustfs/rustfs_service_impl.go:489-518 | Keys in order with their values in order are the pairs sorted by key and value, whatever order the map is walked in |
| `Query.PrintRoundTrip` | ddd/infrastructure/rustfs/rustfs_service_impl.go:513-517 | Parsing what was written gives back the pairs, in order, for both escapings |
| `Query.CanonicalPreservesMeaning` | ddd/infrastructure/rustfs/rustfs_service_impl.go:481-521 | For every query that is not blank, parsing the output gives the parsed input with each value list sorted |
| `Query.CanonicalIdempotent` | ddd/infrastructure/rustfs/rustfs_service_impl.go:481-521 | Canonicalizing twice changes nothing, for every input |
| `Query.CanonicalIgnoresOrder` | ddd/infrastructure/rustfs/rustfs_service_impl.go:489-493 | Permuting the '&' segments of the input does not change the output |
| `Query.EncodeValues` | ddd/infrastructure/rustfs/rustfs_service_impl.go:345 | Values.Encode writes a query that parses back to the same values |
| `EncodedOrder.EncodedOrder` | ddd/infrastructure/rustfs/rustfs_service_impl.go:493 | Escaping keeps the order of two different strings exactly when they do not cross (at the first difference the smaller byte is unreserved and the larger is not) |
| `EncodedOrder.StandardOrderIff` | ddd/infrastructure/rustfs/rustfs_service_impl.go:493-498 | The output is in the order AWS Signature Version 4 asks for (encoded names, then encoded values) exactly when no two pairs of the input cross |
| `EncodedOrder.ClientOrderAgrees` | ddd/infrastructure/rustfs/rustfs_service_impl.go:335-344 | Queries with unreserved names used once each, as this client sends, are always in that order |
| `EncodedOrder.OrdersDiffer` | ddd/infrastructure/rustfs/rustfs_service_impl.go:493 | A canonical query that is not in that order exists: the client sorts decoded names |
| `Presign.SignedQueryRecovered` | ddd/infrastructure/rustfs/rustfs_service_impl.go:345-357 | Parsing the query sent, dropping X-Amz-Signature, sorting, and encoding and joining as the standard prescribes gives back exactly the canonical query that was signed |
| `Presign.PresignPutURL` | ddd/infrastructure/rustfs/rustfs_service_impl.go:322-358 | Which links are made (a host, and a path that parses); X-Amz-Date is the clock reading as YYYYMMDDTHHMMSSZ and X-Amz-Expires what was asked for or 900; a Signature Version 4 verifier, from the link alone and by the standard's own lists, names and key chain, accepts it when the parsed path is plain, and for every plain key a link to base/bucket/key is made and accepted |
| `Presign.PresignGetURL` | ddd/infrastructure/rustfs/rustfs_service_impl.go:360-396 | The same for read links, with a day as default and 86400 as fallback |
| `Presign.RequestsAgreeIff` | ddd/infrastructure/rustfs/rustfs_service_impl.go:347-357 | For every text: the canonical request signed (with u.Path) is the one a verifier computes from the link (with u.String()) exactly when every byte of the parsed path is '/' or unreserved |
| `Presign.KeyServedIff` | ddd/infrastructure/rustfs/rustfs_service_impl.go:326-357 | For every key: the link names that object and is signed for the request a verifier computes exactly when every byte of the key is '/' or unreserved |
| `Presign.KeyAgreesIff` | ddd/infrastructure/rustfs/rustfs_service_impl.go:347-357 | For every key without #, ?, % and control bytes the two requests agree exactly when every byte is '/' or unreserved |
| `Presign.RejectedWhenNotPlain` | ddd/infrastructure/rustfs/rustfs_service_impl.go:347-357 | A link whose parsed path has another byte is rejected, unless the signatures of two different requests collide |
| `Presign.SpaceInKey` | ddd/infrastructure/rustfs/rustfs_service_impl.go:347-357 | For every key of plain bytes and spaces, with a space in it: the client signs the space, the verifier computes %20 |
| `Presign.PercentInKey` | ddd/infrastructure/rustfs/rustfs_service_impl.go:326-347 | A key %41: both sides agree, but on the path of another object, A |
| `Url.PathsAgreeIff` | ddd/infrastructure/rustfs/rustfs_service_impl.go:347 | A verifier computes, from the path the link prints, the path that was signed exactly when that is plain |
| `Url.NamesAndAgreesIff` | ddd/infrastructure/rustfs/rustfs_service_impl.go:326-347 | For every text after the host: the link names this very path and both sides agree on it exactly when every byte is plain |
| `Url.EncodeIsStandard` | ddd/infrastructure/rustfs/rustfs_service_impl.go:523-534 | percentEncode is the encoding that the standard prescribes, written with its sixteen digits |
| `Url.SentPathIs` | ddd/infrastructure/rustfs/rustfs_service_impl.go:357 | A link prints the text of its path as it is when it holds only bytes that a path may hold, and otherwise the parsed path escaped anew |
| `Url.PathSafeIs` | ddd/infrastructure/rustfs/rustfs_service_impl.go:357 | In a path all but letters, digits and -._~$&+,/:;=@ is escaped |
| `Links.ChunkKeysServed` | ddd/infrastructure/rustfs/rustfs_service_impl.go:73-79 | In every reachable state the key of every chunk row is plain: its link names that object and both sides agree on the path, and the service's own requests name it too |
| `Links.ImageServedIff` | ddd/infrastructure/rustfs/rustfs_service_impl.go:300-320 | An image's link names it and is signed for the request a verifier computes exactly when category, user and extension hold '/' and unreserved bytes only |
| `Links.SpaceInExtension` | ddd/infrastructure/rustfs/rustfs_service_impl.go:300-320 | For every file name whose extension has a space, otherwise plain, the two requests differ |
| `Links.SpacedImage` | ddd/application/app/upload_app.go:154-159 | The file name a.jp g, which the service accepts, gets such a link |
| `Presign.ExpirySeconds` | ddd/infrastructure/rustfs/rustfs_service_impl.go:323-342 | Whole seconds of the duration, or of the default when it is not positive; the fallback when they are not within 1..604800 |
| `Presign.AmzNamesDiffer` | ddd/infrastructure/rustfs/rustfs_service_impl.go:335-356 | The six parameter names are the standard's, distinct and unreserved |
| `Presign.SignAndEncode` | ddd/infrastructure/rustfs/rustfs_service_impl.go:345-357 | The signature sent is that of the query a verifier recomputes, and that query is in the standard's order |
| `Presign.SignatureIsStandard` | ddd/infrastructure/rustfs/rustfs_service_impl.go:345-356 | The client's canonical request, string to sign and key are those of the standard: seven lines, four lines, and a chain of HMACs over date, region, s3 and aws4_request |
| `Presign.SentParameters` | ddd/infrastructure/rustfs/rustfs_service_impl.go:335-344 | The query sent holds one value under each of the names X-Amz-Algorithm, X-Amz-Credential, X-Amz-Date, X-Amz-Expires and X-Amz-Signature, so spelled, and which |
| `Presign.PrintIsStandard` | ddd/infrastructure/rustfs/rustfs_service_impl.go:513-517 | The client's printing of sorted pairs is the standard's: encoded name=value, joined by '&' |
| `Presign.SegmentsJoined` | ddd/infrastructure/rustfs/rustfs_service_impl.go:485 | The segments of a query are its parts between '&' |
| `PresignRefresh.Refresher.RefreshChunkPresign` | ddd/domain/service/upload_service.go:97-133 | For each chunk, which outcome is possible and what it leaves in entity and row; links are requested for exactly the chunks not kept, each for the chunk's own storage path or, without one, the prefix with its own index, and what is recorded is the link made for that key; other rows are untouched |
| `Links.RefreshKeys` | ddd/domain/service/upload_service.go:109-112 | In every reachable state that key is the chunk row's own either way, so different chunks never get each other's links |
| `PresignRefresh.Refresher.UpdatePresignByUUID` | ddd/infrastructure/database/dao/upload_chunk_dao.go:62-74 | Both columns of the one row, if it exists; an error may come after the write |
| `PresignRefresh.AgreementKeptIff` | ddd/domain/service/upload_service.go:127-131 | Entity and row agree afterwards, if before, exactly unless an update was written whose answer was an error |
| `PresignRefresh.AnswerMayBeLost` | ddd/domain/service/upload_service.go:127-130 | That can happen to every chunk that needs a link: its row then has a usable new link while the client is answered the old one |
| `PresignRefresh.DifferIff` | ddd/domain/service/upload_service.go:97-133 | Over any number of refreshes, each reading the rows again, entity and row differ exactly when the answer of the last one was lost |
| `PresignRefresh.AskedAgainIff` | ddd/domain/service/upload_service.go:117-126 | Over any number of refreshes, a chunk not completed asks for a link again exactly from fourteen minutes after the link recorded last, whatever failed or was lost since |
| `PresignRefresh.WritesAre` | ddd/domain/service/upload_service.go:127-131 | A refresh, or an update whose answer was lost, puts the new link into the row, and nothing else changes it |
| `PresignRefresh.WritesApart` | ddd/domain/service/upload_service.go:117-127 | Over any number of refreshes, from one recorded link of a chunk to another at least fourteen minutes pass for each one recorded on the way |
| `PresignRefresh.RefreshMeets` | ddd/domain/service/upload_service.go:106-126 | Completed chunks and links with over a minute left are untouched; of the others exactly those without an error end with a link good for over a minute after the check |
| `PresignRefresh.SecondRefreshIff` | ddd/domain/service/upload_service.go:117-126 | A link the first refresh made is requested again by a second exactly when that looks fourteen minutes or more after it was made |
| `Cleanup.CleanupTask.EnqueueChunkCleanup` | ddd/infrastructure/task/chunk_cleanup_task.go:42-60 | A valid request goes to the end of the channel, or to a goroutine when 128 are waiting; an invalid one changes nothing |
| `Cleanup.CleanupTask.Receive` | ddd/infrastructure/task/chunk_cleanup_task.go:69-74 | The oldest request of the channel joins the batch; when it is the sixteenth, the batch is processed and emptied |
| `Cleanup.CleanupTask.Tick` | ddd/infrastructure/task/chunk_cleanup_task.go:75-79 | The waiting batch is processed, and nothing else |
| `Cleanup.CleanupTask.RunSpawned` | ddd/infrastructure/task/chunk_cleanup_task.go:58 | A goroutine processes its one request |
| `Cleanup.CleanupTask.ProcessBatch` | ddd/infrastructure/task/chunk_cleanup_task.go:84-112 | One DeleteChunks call per path of the batch, with the largest total requested for it |
| `Cleanup.CleanupTask.Dedup` | ddd/infrastructure/task/chunk_cleanup_task.go:90-98 | The map holds, for each path, a total of the batch that no other exceeds |
| `Cleanup.CleanupTask.Serve` | ddd/infrastructure/task/chunk_cleanup_task.go:42-82 | After any interleaving of enqueues, receives, ticks and goroutines every valid request is in exactly one of channel, batch, goroutines and processed; the channel holds at most 128, the batch under 16 |
| `Cleanup.OrderDoesNotMatter` | ddd/infrastructure/task/chunk_cleanup_task.go:100-111 | Whatever order the map is walked in, the same calls are made, each once |
| `Cleanup.CoversKeys` | ddd/infrastructure/task/chunk_cleanup_task.go:90-104 | Keeping the largest total of a path attempts exactly the keys of all requests of the batch |
| `Cleanup.RefinesNaive` | ddd/infrastructure/task/chunk_cleanup_task.go:62-112 | For consistent books, the keys attempted, with those still waiting, are those a worker without batches and deduplication attempts |
| `Cleanup.ServeFresh` | ddd/infrastructure/task/chunk_cleanup_task.go:42-112 | A fresh task, after any interleaving of enqueues, receives, ticks and goroutines: the keys attempted, with those still waiting, are exactly those a worker without batches and deduplication attempts, and every call is for an accepted request |
| `Paging.ListUserVideos` | ddd/application/app/video_app.go:147-174 | A request without a user or with an unknown status is refused and the query may fail; otherwise page and size echoed are those the offset was computed from, though they are clamped twice, and what is paged and counted are exactly the user's rows whose status the text spells, up to case and outer space, in their order, or all of them for a blank text |
| `Paging.ListByUserQ` | ddd/infrastructure/database/persistence/video_repository_impl.go:76-93 | The clamped page of the rows with the wanted status, and their number, unless the query fails |
| `Paging.ListVideosReq.Normalize` | ddd/application/cqe/video_cqe.go:110-132 | Page at least 1; size 12 by default and at most 50; a status trimmed and replaced by the one it spells |
| `Paging.StatusAcceptedIff` | ddd/application/cqe/video_cqe.go:119-146 | After normalization exactly the blank texts and those that spell a status, up to case and outer space, are accepted |
| `Paging.SelectsBySpelling` | ddd/application/cqe/video_cqe.go:119-132 | An accepted text that is not blank becomes a given status exactly when it spells it up to case and outer space |
| `Paging.MatchingSelects` | ddd/infrastructure/database/dao/video_dao.go:136-138 | The filtered rows are the rows with that status, each as often as before, in the same order; an empty filter keeps all |
| `Paging.RowsWanted` | ddd/application/cqe/video_cqe.go:119-132 | For an accepted text they are exactly the rows whose status it spells up to case and outer space, or all for a blank one |
| `Paging.ServedPageIff` | ddd/infrastructure/database/dao/video_dao.go:146-150 | A request gets page p of every list exactly when (page-1)*size fits in 64 bits |
| `Paging.HugePageIsFirst` | ddd/infrastructure/database/persistence/video_repository_impl.go:87 | Page 2^62+1 of two rows wraps to a negative offset and returns page 1 |
| `Paging.TotalPagesIff` | ddd/application/dto/video_dto.go:81-85 | The page count shown is the number of pages exactly when total+size-1 fits in 64 bits |
| `Paging.PagesPartition` | ddd/infrastructure/database/dao/video_dao.go:130-156 | Pages 1..TotalPages, one after the other, are the list |
| `Paging.PageLengths` | ddd/infrastructure/database/dao/video_dao.go:146-150 | Pages before the last are full, the last holds the rest and is not empty, later ones are empty |
| `Tags.SanitizeTags` | ddd/application/cqe/video_cqe.go:77-99 | The loop returns the first occurrence of each kind of tag that is not blank, trimmed, in input order |
| `Tags.TrimIs` | ddd/application/cqe/video_cqe.go:84 | Trimming removes all white space at both ends and nothing else |
| `Tags.SpaceIs` | ddd/application/cqe/video_cqe.go:84 | White space is the twenty-five Unicode characters with that property |
| `Tags.OnlyFirsts` | ddd/application/cqe/video_cqe.go:83-94 | Every tag of the result is the trimmed first occurrence of its kind |
| `Tags.KindsKept` | ddd/application/cqe/video_cqe.go:83-94 | A kind occurs in the result exactly when it occurs in the input |
| `Tags.SanitizedIsClean` | ddd/application/cqe/video_cqe.go:77-99 | The result is trimmed, without blanks and without case-insensitive repetitions |
| `Tags.UnchangedIff` | ddd/domain/entity/video_entity.go:176-198 | The loop changes nothing exactly when the tags are already clean; so it is idempotent |
| `Tags.PublishTags` | ddd/application/cqe/video_cqe.go:34-75 | The tags stored are exactly the tags validated, after both normalizations |

## Left out

- Server.Service.Others: one handler is one Service object with claims of its own; that several
  such objects share one run is `Rely.Together`, not a scheduler in code.
- Server.Service.QueryByFileHash: any matching row may be returned; the order of First is not
  modelled, and `AtomicRuns.OnePerFile` shows that one at most exists when requests are served
  one at a time.  The optional created_at filter, which no caller sets, is left out.
- Server.Service.UploadVideoInit: the link columns of the rows and the refresh at its end are
  modelled in `PresignRefresh` only.
- Server.Service.HeadObject: response parsing and a missing Content-Length are failures like
  any other.
- Server.Service.PublishVideo: title, description, cover and resolution, and ValidateUser, which
  runs before it; whether Precreate and the Kafka message fail are parameters.
- Server.Service.MergeWorkerTask: the job timeout is one more way a call can fail.
- Cleanup.CleanupTask.ProcessBatch: one batch is one step; the deletes inside it interleave
  with everything else in `Protocol`, and what one DeleteChunks call does is in
  `Server.Service.DeleteChunks`.
- Presign.PresignPutURL: parsing of the endpoint's scheme and host; SHA-256, HMAC and
  hexadecimal printing are parameters.  Durations are whole nanoseconds; the float rounding of
  Seconds() cannot change a value within 1..604800.
- Links.ImageServedIff: the user is already trimmed, and the uuid of the key is plain text.
- PresignRefresh.Refresher.RefreshChunkPresign: the chunks of one call have different uuids, as
  rows of one upload do; the precision of the expiry column and the gap between signing and
  recording are ignored; a link that was made is not empty.
- PresignRefresh.DifferIff: the refreshes of one upload come one after another.
- Paging.ServedPageIff: the condition is for lists of any length; the rows and their order are
  a parameter, as are uploader names, and rows inserted between the count and the query are not
  modelled.
- ListByStatusQ and ListOpenVideos: the same clamping, offset and page count as the user's list,
  with the status always Published.
- Tags.PublishTags: stops at the entity; the JSON text of the tags_json column is not modelled.
- Tags.SanitizeTags: lower-casing is a parameter; tags are sequences of Unicode characters.
- Unicode white space in a blank query is listed byte by byte in UTF-8.
- Integer widths outside paging: sizes, counts and indices are far from 64 bits.
- Addresses.MergeSignedIff: of the requests that signS3 signs, the path; their headers and
  payload hash are not modelled, and no merge is excluded for a signature a store would refuse.
- Protocol: multipart uploads opened for a path with '#' whose own query happens to survive; none
  of their parts can be copied (`Addresses.MergeNamedIff`).
- HTTP, gRPC and XML handling, the minimum part size of S3, and multipart uploads left open by
  a lost abort.
- Image upload beyond the link's key, rewriteToGatewayPath, CreateWithTags, checkUploadChunk and
  the alternative store in ddd/infrastructure/minio: independent of the protocol, or unused.
- Liveness: an upload set to Merging by CompleteChunk, or whose task was dropped, may never be
  merged; a merged upload may never be cleaned.
