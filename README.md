# HealthStorage gateway, modelled in Dafny

HealthStorage is an HTTP gateway in front of an S3-compatible object store (MinIO).
Every subject (a patient, say) owns one bucket. Files are uploaded into the subject's
bucket under fresh uuid keys. They are read back through `/storage/retrieve`. An
administrator can list buckets and objects, and can merge one subject's bucket into
another's. Every route first passes a JWT middleware that looks up an access claim and
requires one of three role names in it. Each handler then checks its own role.

This project models:

- the storage handlers of `src/handlers/storage.js`;
- the token middleware of `src/handlers/verify-token.js`;
- the bounded in-memory log transport of `src/utils/in-memory-logger.js`;
- the start-up decisions of `src/server.js`: which env file is loaded, and the CORS origin whitelist with its callback.

It proves properties of that model.

Modules, one per concern:

- `Wrappers` (`wrappers.dfy`): `Option` and `Result`.
- `Text` (`text.dfy`): what the source does with strings.
  - `split` and `join` on a separator.
  - `trim` and `toLowerCase` (ASCII only).
  - `indexOf`, `startsWith`, and `replace` of the first occurrence.
  - Listing a set of names in ascending order.
- `Minio` (`object_store.dfy`): the object store behind the gateway.
  - Its state is `map<bucket, map<key, Obj>>`. An `Obj` holds bytes and metadata.
  - There is a fault schedule: each call that can fail consumes the next entry of `faults`, and `true` means the call fails.
  - Each call is a function of this state. The client class `ObjectStore` has one method per call, each proved equal to that function.
  - The store lower-cases metadata names on a put, and the handlers rely on that: they write `Content-Type` and read `content-type`.
- `Storage` (`storage.dfy`): the read side of `storage.js`.
  - The role gate every handler starts with.
  - Bucket provisioning: check, create once, check again.
  - The cache-file path.
  - The retrieve and stat routes, and the two admin listings.
- `StorageUpload` (`upload.dfy`): the upload route.
  - The multipart form is a sequence of field and part events.
  - The closure state of `formPutResult` is the class `UploadForm`.
- `StorageMerge` (`merge.dfy`): the bucket merge.
  - Its loop is a fold over the listed keys. It carries the store, the cache files, the records, the first rejection and the error that ends the loop.
  - The handler is a method over `ObjectStore` and the cache disk `CacheDisk`.
- `VerifyToken` (`verify_token.dfy`): the token middleware.
  - Fetching the signing key and checking the RS256 signature are one parameter: a function from the token to the decoded claims, or nothing.
- `InMemoryLogger` (`in_memory_logger.dfy`): the log transport, as a class whose methods update `queue`, `cache` and `lock`.
- `Server` (`server.dfy`): the env-file choice, the whitelist, and the origin callback.

Each handler is a method over the store. It is proved equal to a function of the old
store state. The properties are lemmas about those functions.

Behaviour of the code that the model keeps on purpose:

- A handler whose role is missing answers 401 `{"message": "Authorisation failed."}`. A claim value that is neither a string nor an array has no `indexOf`, so the gate throws. That error reaches Express's error handler, modelled as a 500.
- The upload ignores the result of its `putObject`. A part is reported as a success once its bucket is provisioned, even if the write then fails.
- `mime.getType` can answer a type, `null` or `undefined`. Only `undefined` falls back to `application/octet-stream`; `null` is stored and reported.
- In the merge, creating a missing destination refers to `region`, which is not defined in that scope. The pass therefore throws, and the loop ends with `RegionUndefined`.
- The merge never reaches its "File not in destination" and "Unable to get object info" branches. `statobject` rejects on every error and never resolves to a falsy value.
- Merging a bucket into itself deletes each object that it copies (`StorageMerge.MergeIntoItselfDeletes`).
- `getobjectToCache` resolves with the cache path before its download ends, and a stream error only closes the file. A broken download therefore leaves a partial cache file, which the merge writes into the destination before it removes the source object (`StorageMerge.BrokenStreamTruncates`). The handler keeps this behaviour. `MergeConfig.awaitDownload` switches on the awaited download, under which nothing is lost (`StorageMerge.AwaitedMergeLosesNothing`).
- An object already in the destination under the same key is overwritten.
- In `storage.js` the `fs.unlink` callback at lines 236-240 lacks its closing brace. The model takes the evident reading: unlink the cache file, remove the source object, then append the record.

## Model

| member | source | states |
|---|---|---|
| Server.EnvFileIgnoresPadding | src/server.js:2-6 | white space around NODE_ENV never changes which env file is loaded |
| Server.WhitelistOf | src/server.js:22-29 | without a comma the whitelist is the setting itself, untrimmed; with one it has one entry per comma-separated piece (two or more), in order, each trimmed, empty ones kept |
| Server.BuildWhitelist | src/server.js:22-29 | the `forEach` loop pushes exactly the entries of `WhitelistOf` |
| Server.FindIndex | src/server.js:35-37 | `findIndex` answers -1 or an entry the origin starts with, and no earlier entry matches; a missing or empty origin matches nothing |
| Server.OriginAcceptedIff | src/server.js:33-44 | an origin is accepted exactly when it is non-empty and starts with some whitelist entry; otherwise the answer is the error `CORS failed` |
| Server.EmptyEntryAdmitsAll | src/server.js:24-37 | an empty whitelist entry (from a trailing comma, say) admits every non-empty origin |
| Server.MissingOriginRejected | src/server.js:33-43 | a request without an origin, or with an empty one, is refused |
| Server.SetupCors | src/server.js:20-46 | the CORS options are empty exactly when `corsEnabled` is not `true` in any case; otherwise they hold the whitelist |
| InMemoryLogger.InMemoryLogTransport.constructor | src/utils/in-memory-logger.js:9-23 | `max` is 100 unless `opts.max` is given and non-zero; the level comes from the options; queue and cache start empty and unlocked |
| InMemoryLogger.InMemoryLogTransport.Log | src/utils/in-memory-logger.js:25-33 | the record is appended at the end of the queue and nothing else changes |
| InMemoryLogger.InMemoryLogTransport.GetLogAsync | src/utils/in-memory-logger.js:35-68 | while locked, the cached answer comes back and nothing changes; otherwise the queue is trimmed to its `max` most recent records, and the answer, also cached, is the formatted `queue.slice(length - n)` with n = min(nLines, max), in both branches as written; it ends unlocked |
| InMemoryLogger.KeepLast | src/utils/in-memory-logger.js:47-49 | the trimming loop leaves the `max` most recent records, oldest first |
| InMemoryLogger.RecentRecordsAreLastN | src/utils/in-memory-logger.js:51-63 | for a request of n >= 0 lines the answer is exactly the last min(n, length) records, in order |
| InMemoryLogger.SliceAsWrittenAgrees | src/utils/in-memory-logger.js:51-63 | for a request no longer than the queue the slice as written is exactly the intended last n records |
| InMemoryLogger.NegativeRequestIsEmpty | src/utils/in-memory-logger.js:60-62 | a negative request answers no records |
| InMemoryLogger.SliceAsWrittenBeyondLength | src/utils/in-memory-logger.js:51-54 | as written, a request beyond the queue length slices from max(2*length - n, 0), dropping records from the front |
| InMemoryLogger.SliceAsWrittenDropsRecords | src/utils/in-memory-logger.js:51-54 | three records and a request for five: the slice as written answers two, while the intended answer is all three |
| VerifyToken.GetPathAppend | src/handlers/verify-token.js:53 | looking up a longer claim path continues from where the shorter one ended |
| VerifyToken.GetPathNest | src/handlers/verify-token.js:53 | a value nested under a path is found again along that path |
| VerifyToken.SearchFindsFirst | src/handlers/verify-token.js:50-58 | the search answers the value of the first claim path that is neither null nor undefined, whatever later paths hold |
| VerifyToken.SearchMisses | src/handlers/verify-token.js:50-58 | when no claim path yields a value, the search answers null or undefined |
| VerifyToken.FindAccess | src/handlers/verify-token.js:45-58 | the loop stops at the first path that yields a value, and otherwise keeps the last lookup (`Search`) |
| VerifyToken.ItemIndex | src/handlers/verify-token.js:68 | array `indexOf`: the first position of the role, and -1 exactly when it is absent |
| VerifyToken.AccessIndexOfMeaning | src/handlers/verify-token.js:68 | `indexOf` finds a role in an array claim exactly when it is an element, and in a string claim exactly when it is a substring; any other value throws |
| VerifyToken.TokenAfterScheme | src/handlers/verify-token.js:31 | in `Bearer <token>` the token is the word after the first space |
| VerifyToken.MissingHeaderDenied | src/handlers/verify-token.js:30-82 | without an Authorization header, or with an empty one, the request is refused and nothing is stored on it |
| VerifyToken.RolesPresentMeaning | src/handlers/verify-token.js:68-70 | the role check passes exactly when the claim is a string or an array holding one of the three role names, and throws exactly when it is neither |
| VerifyToken.PassesIff | src/handlers/verify-token.js:27-84 | a request passes exactly when its token verifies, a claim path yields a truthy value, and that value holds a role name; it then carries the claims and that value |
| VerifyToken.FalsyClaimBlocksLaterPaths | src/handlers/verify-token.js:50-62 | a first present but falsy claim value (such as `''`) ends the search and the request is refused, even when a later path would match |
| VerifyToken.Verify | src/handlers/verify-token.js:27-84 | the middleware's outcome is `Decide`; `userData` is set once the token verifies and `userAccess` once a truthy claim is found |
| Minio.StoredNames | src/handlers/storage.js:206-210 | the names the handlers write come back as the lower-case names they read (`content-type`, `subjectid`) |
| Minio.NotLowerNeverStored | src/handlers/storage.js:203 | a metadata name that is not all lower case is never found in stored metadata |
| Minio.ConcatChunks | src/handlers/storage.js:326-333 | concatenating the streamed chunks gives back the stored bytes |
| Minio.PutThenStat | src/handlers/storage.js:231-233 | a successful write is seen by the following stat with the bytes' size and the lower-cased metadata |
| Storage.GateMeaning | src/handlers/storage.js:279-285 | a handler lets the request through exactly when its role is an element of an array claim or a substring of a string claim; any other claim throws |
| Storage.CheckCall | src/handlers/storage.js:49-65 | `checkBucketExists` is true exactly when the store answers without error that the bucket exists |
| Storage.CreateCall | src/handlers/storage.js:28-47 | `makeBucket` is true exactly when the store created the (absent) bucket, which then exists and is empty; false on any error |
| Storage.ProvisionEffect | src/handlers/storage.js:404-408 | provisioning adds at most the one empty bucket; a true answer means the bucket exists; with no fault in the next three calls it answers true |
| Storage.CheckBucketExists | src/handlers/storage.js:49-65 | the method answers `CheckCall` and leaves the store in its state |
| Storage.MakeBucket | src/handlers/storage.js:28-47 | the method answers `CreateCall` and leaves the store in its state |
| Storage.ProvisionBucket | src/handlers/storage.js:404-408 | check, create once when absent, check again: the store and the answer are `ProvisionCall`'s |
| Storage.CachePath | src/handlers/storage.js:110-148 | an unset or empty cache directory is the error `No Cache directory Set`; otherwise it is a path built from the directory and the key |
| Storage.CachePathPosix | src/handlers/storage.js:111-117 | off Windows, a directory without a backslash gets `/` between it and the key |
| Storage.CachePathWin32 | src/handlers/storage.js:111-114 | on Windows, when neither the directory nor the key holds a `/`, the path is the directory, a backslash and the key |
| Storage.CachePathWin32SlashInDir | src/handlers/storage.js:111-114 | on Windows only the first `/` of the directory becomes a backslash; later ones, and the key, are kept |
| Storage.CachePathKeepsLaterBackslash | src/handlers/storage.js:111-117 | only the first backslash is replaced: one in the directory is rewritten and the inserted one is kept |
| Storage.ContentTypeHeader | src/handlers/storage.js:312-318 | the Content-Type header served is never empty, null or undefined |
| Storage.Retrieve | src/handlers/storage.js:298-348 | retrieval never changes the buckets; without the read role it answers 401 "Authorisation failed." and touches nothing, and a claim that is neither string nor array is answered 500 |
| Storage.RetrieveServesStoredObject | src/handlers/storage.js:306-335 | with the read role and no fault ahead, a stored object is served whole: its bytes in order, Content-Length its size, Content-Type from its metadata |
| Storage.RetrieveMissingObject | src/handlers/storage.js:306-311 | a missing object is answered 500 with the store's error, and no get is made |
| Storage.GatherChunks | src/handlers/storage.js:326-333 | the body is the chunks concatenated in arrival order |
| Storage.GetFile | src/handlers/storage.js:298-348 | the handler's answer and the new store state are `Retrieve`'s |
| Storage.StatRoute | src/handlers/storage.js:278-296 | the stat route changes no bucket, and a served stat is the object's size and metadata; without the read role it answers 401 "Authorisation failed." and touches nothing, and a claim that is neither string nor array is answered 500 |
| Storage.GetFileStat | src/handlers/storage.js:278-296 | the handler's answer and the new store state are `StatRoute`'s |
| Storage.StatEach | src/handlers/storage.js:459-463 | a complete listing has one entry per name, in order, under that name |
| Storage.StatEachStops | src/handlers/storage.js:459-463 | once a stat fails, no later name is stat-ed |
| Storage.BucketListing | src/handlers/storage.js:448-467 | the admin listing changes no bucket; without the admin role it answers 401 "Authorisation failed." and touches nothing, and a claim that is neither string nor array is answered 500 |
| Storage.ListingReportsEveryObject | src/handlers/storage.js:448-467 | with the admin role and no fault, every object of the bucket is listed once, in ascending key order, with its size and metadata |
| Storage.AdminBucketList | src/handlers/storage.js:448-467 | the handler's answer and the new store state are `BucketListing`'s |
| Storage.BucketNames | src/handlers/storage.js:469-482 | a served answer is the bucket names in ascending order; with the admin role and no fault it is served; no bucket changes; without the admin role it answers 401 "Authorisation failed." and touches nothing, and a claim that is neither string nor array is answered 500 |
| Storage.AdminBuckets | src/handlers/storage.js:469-482 | the handler's answer and the new store state are `BucketNames`' |
| StorageUpload.FileParts | src/handlers/storage.js:382-388 | only parts with a filename are files |
| StorageUpload.ExtensionAfterLastDot | src/handlers/storage.js:389 | the extension is the text after the last `.`, or the whole name when there is none |
| StorageUpload.UploadMetaStored | src/handlers/storage.js:394-397 | the stored upload metadata holds exactly the content type and the subject, under lower-case names |
| StorageUpload.FormPut | src/handlers/storage.js:350-357 | without the write role the answer is 401 "Authorisation failed." and nothing changes, and a claim that is neither string nor array is answered 500; with the write role the form is always answered |
| StorageUpload.AfterEventRecord | src/handlers/storage.js:380-430 | one event adds one record and one to `count` exactly when it is a file part, naming its field and file |
| StorageUpload.RecordsFollowFileParts | src/handlers/storage.js:380-436 | each file part adds exactly one record and one to `count`, in arrival order, with its field name and filename; fields and other parts add none |
| StorageUpload.ResponseListsEveryFilePart | src/handlers/storage.js:439-441 | the answer lists one record per file part, in arrival order |
| StorageUpload.FilePartStored | src/handlers/storage.js:386-428 | with no fault ahead, a file part is stored under the next uuid in the subject's bucket with its bytes, content type and subject, and reported with the retrieve href; no bucket appears besides the subject's; the bucket's keys are its old keys and the new one; no other object changes, and when the key is fresh every earlier object of the bucket is kept |
| StorageUpload.UploadThenRetrieve | src/handlers/storage.js:386-428 | an uploaded part is retrieved under its key with its bytes and length; the Content-Type is the mime type when the table knows a non-empty one, else `application/octet-stream` (also after a stored null) |
| StorageUpload.FilePartRefusedWithoutBucket | src/handlers/storage.js:408-416 | when the bucket cannot be provisioned, the part is reported failed and nothing is written |
| StorageUpload.UploadForm.constructor | src/handlers/storage.js:359-362 | the closure state starts with count 0, empty metadata and subject, and no records |
| StorageUpload.UploadForm.OnField | src/handlers/storage.js:370-377 | a `metadata` or `subjectId` field is remembered; others are ignored |
| StorageUpload.UploadForm.OnPart | src/handlers/storage.js:380-436 | the part handler changes the form and the store as `AfterPart` does |
| StorageUpload.FormPutResult | src/handlers/storage.js:350-446 | the handler's answer and the new store state are `FormPut`'s, processing the events in order |
| StorageMerge.ProvenanceFrom | src/handlers/storage.js:202-206 | the provenance ends with the object's subject; it extends a prior list by exactly that one entry, and is that entry alone when the prior value is falsy; a truthy value that is not a list throws |
| StorageMerge.MergeMetaStored | src/handlers/storage.js:207-211 | the stored metadata of a moved object holds exactly the carried content type, the destination as subject, and the provenance list |
| StorageMerge.ProvenanceNeverFoundAsWritten | src/handlers/storage.js:203-204 | read under `previousSubjectIDs`, the provenance of any stored object is only its own subject |
| StorageMerge.ProvenanceChain | src/handlers/storage.js:202-211 | uploaded to A, merged into B, then into C: the provenance names A and B, and the content type survives both moves |
| StorageMerge.ProvenanceChainAsWritten | src/handlers/storage.js:202-211 | the same moves with provenance read as written: the provenance names only B |
| StorageMerge.Settle | src/handlers/storage.js:259-272 | the merge succeeds exactly when no pass rejected and the loop was not left |
| StorageMerge.MergeRoute | src/handlers/storage.js:484-491 | without the admin role the answer is 401 "Authorisation failed." and neither the store nor the cache disk changes; a claim that is neither string nor array is answered 500 |
| StorageMerge.MoveKeysAfterExit | src/handlers/storage.js:270-272 | once the loop is left, the remaining keys change nothing |
| StorageMerge.MoveKeyKeepsFailure | src/handlers/storage.js:216-272 | a rejection or a loop exit, once recorded, stays |
| StorageMerge.Transfer | src/handlers/storage.js:107-261 | `getobjectToCache` (lines 107-145) and the merge's download-to-remove tail (lines 220-261) as written: the cache file is created before the get and the path is resolved before the stream ends, so the file keeps whatever the stream delivered; the corrected variant awaits the stream and rejects on a failed or broken download. A pass appends at most its own record, and only when it completes, leaving no cache file; as written it never leaves the loop |
| StorageMerge.TransferKeepsFailure | src/handlers/storage.js:220-261 | as written, the download-to-remove tail never leaves the loop; with the download awaited, it leaves only when the get fails or its stream breaks; a recorded rejection is kept |
| StorageMerge.TransferEffect | src/handlers/storage.js:107-261 | download, write, stat, remove: with the download awaited, a failed or broken download leaves the loop with no bucket changed; otherwise a pass either rejects, having at most written the destination copy, or writes the copy, removes the source object and appends the record; the copy is a prefix of the source bytes, all of them when the download was awaited or its stream did not break |
| StorageMerge.MoveKeyReachesTransfer | src/handlers/storage.js:200-222 | the checks before the download change no bucket and add no record, ending the pass with an exit or a rejection; a pass that gets past them is the transfer of an existing source object, from its own metadata |
| StorageMerge.MoveKeyWithoutDestination | src/handlers/storage.js:200-215 | with the stat and the first bucket check going through, a pass into a missing destination leaves the loop on the undefined `region` with nothing changed |
| StorageMerge.Downloaded | src/handlers/storage.js:119-141 | the download changes no bucket; what it delivers into the cache file is a prefix of the source object's bytes, all of them when the stream does not break, and strictly fewer when a non-empty object's stream breaks |
| StorageMerge.MoveKeyFrame | src/handlers/storage.js:198-268 | one pass touches only `key`, in the source and the destination, and removes it from the source only once the destination holds a prefix of its bytes, all of them when the download was awaited or did not break |
| StorageMerge.MoveKeyClean | src/handlers/storage.js:198-268 | a pass that neither rejects nor leaves the loop has moved the object with its rewritten metadata and the bytes the download delivered (a prefix, all of them when awaited or unbroken), and appended its record |
| StorageMerge.BrokenStreamTruncates | src/handlers/storage.js:119-246 | as written, when only the stream of a non-empty object breaks, the pass still completes: no rejection, the source object is removed, and the destination holds a strictly shorter copy |
| StorageMerge.MergeIntoItselfDeletes | src/handlers/storage.js:231-244 | merging a bucket into itself, a successful pass deletes the object it copied |
| StorageMerge.NothingLostInvariant | src/handlers/storage.js:198-268 | after any number of passes, each source object is still in place or a prefix of its bytes is in the destination, all of them when no copy was cut short; other buckets are untouched |
| StorageMerge.MergeLosesNothing | src/handlers/storage.js:192-276 | whatever fails, a merge of two different buckets leaves each source object in place or a prefix of its bytes in the destination, all of them when no download was cut short, and touches no other bucket |
| StorageMerge.AwaitedMergeLosesNothing | src/handlers/storage.js:107-276 | with the download awaited, whatever fails, each source object is still in place or all of its bytes are in the destination |
| StorageMerge.MovedAllStep | src/handlers/storage.js:231-252 | moving one more key keeps the description of the moved, remaining and untouched objects |
| StorageMerge.MovedAllPass | src/handlers/storage.js:198-268 | a clean pass over a key not yet moved extends that description; the copies stay whole when this one was awaited or unbroken |
| StorageMerge.MovedAllInvariant | src/handlers/storage.js:198-268 | after clean passes over distinct keys, exactly those keys have left the source and sit moved in the destination with a prefix of their bytes, all of them when no copy was cut short; nothing else changed |
| StorageMerge.RecordsInvariant | src/handlers/storage.js:246-252 | clean passes append one record per key, in order |
| StorageMerge.MergeMovesEverything | src/handlers/storage.js:192-276 | a successful merge of two different buckets moves every source object, with its content type, new subject, extended provenance and a prefix of its bytes (all of them when no download was cut short), and records each in ascending key order; the source is left empty and no other bucket changes |
| StorageMerge.MergeIntoMissingBucket | src/handlers/storage.js:212-215 | into a destination that does not exist, the merge of a non-empty source fails on the undefined `region` before anything is written |
| StorageMerge.CacheDisk.Store | src/handlers/storage.js:119-145 | the cache file holds what the download delivered, or is absent |
| StorageMerge.CacheDisk.Unlink | src/handlers/storage.js:236-240 | the cache file is removed |
| StorageMerge.TransferKey | src/handlers/storage.js:107-261 | the method changes the store and the cache disk, and leaves or stays in the loop, as `Transfer` does |
| StorageMerge.MigrateKey | src/handlers/storage.js:198-268 | one loop pass changes the store and the cache disk as `MoveKey` does, reading the prior provenance under the configured name |
| StorageMerge.MergeBucket | src/handlers/storage.js:192-276 | the loop's answer, store and cache disk are `Merged`'s, reading the prior provenance under the configured name |
| StorageMerge.AdminMergeBuckets | src/handlers/storage.js:484-501 | the handler's answer, store and cache disk are `MergeRoute`'s, which reads the prior provenance under `previousSubjectIDs` as written |

## Left out

- Logging: `console.log`, the `logged` event and `setImmediate` have no effect on the state.
- HTTP plumbing: routing, body parsing, `res.set`, `res.end` and status codes. Answers are the `Reply` datatype, and the request's protocol and host are a parameter.
- Fetching the JWKS signing key and checking the JWT signature, expiry and algorithm are one parameter, `verifyJwt`. Any failure there is `TokenUnverified`.
- `_.get` path syntax: a claim path is split on `.` and followed through objects only. Bracket indices, a dot path through an array (`groups.0`), and a whole path string that is itself a key of the claims object (which `_.get` tries first) all answer undefined in the model.
- The multipart parser: the form is given as its sequence of field and part events. The form's and parts' `error` events, which answer 500 mid-stream, are not modelled.
- Timing. Parts are handled one after the other, though the source's part handlers are async and may interleave. The merge answer is settled after the whole loop, while the source's first rejection answers at once and the loop goes on.
- In `getobjectToCache`, the path is resolved before the download finishes (storage.js:145). How far the download has got when `fs.promises.access` and `putFileObject` run is left out: the model lets the download finish first. A stream that breaks has delivered every chunk but its last; any other break point is equally possible in the source.
- Errors thrown from the `removeObject` and `unlink` callbacks surface outside any handler, so removal is infallible in the model.
- `putFileObject` never settles when `fs.stat` of the cache file fails. That cannot happen in the model, where the file is known to exist.
- Metadata values are kept as values. MinIO's serialisation of metadata to HTTP header strings, including how it would store the provenance array, is left out.
- `fileMetadata` is stored by the upload form but never used. It is kept as a string.
- The uuid generator and the mime table are parameters (`Oracles`). A key the generator repeats overwrites the earlier object, as `putObject` would; only the part of `FilePartStored` about earlier objects being kept assumes a fresh key.
- The error branch of the `getObject` callback in `getobjectToCache` (storage.js:121-125) does not return, so `dataStream.on` at storage.js:130 is then called on an undefined stream and throws inside the callback. By then the promise has already resolved with the path (storage.js:145), so that throw escapes every handler. The model treats a failed download as one that leaves no cache file (though `createWriteStream` at storage.js:119 may already have created an empty one): the `fs.promises.access` check rejects that pass and the loop goes on (`StorageMerge.Downloaded`, `StorageMerge.TransferKeepsFailure`).
- The `catch` of `makeBucket` and `checkBucketExists` (storage.js:43-45, 61-63) rejects when the client throws synchronously, for instance on an invalid bucket name such as the empty subject of a file part that arrives before the `subjectId` field (storage.js:361). In the source that rejection escapes the async part handler and no record is pushed. The model has no synchronous throw: both calls answer false on a store error, and the part is reported with `BucketUnavailable`.
- Server.SetupCors: the settings are strings. In the source an unset `corsEnabled` (server.js:21, `.toLowerCase()`), or an unset `allowedOrigins` while CORS is enabled (server.js:23, `.includes`), throws a TypeError at start-up.
- Server.EnvFileIgnoresPadding: NODE_ENV is a string. An unset NODE_ENV makes `.trim()` at server.js:2 throw a TypeError at start-up.
- Storage.BucketNames: answers bucket names only, without the creation dates that `listBuckets` also reports.
- Storage.StatRoute: a stat holds the size and the metadata; the etag and last-modified date are not modelled.
- InMemoryLogger.InMemoryLogTransport.GetLogAsync: requires `max >= 0`. With a negative `max` the trimming loop at in-memory-logger.js:47-49 never ends, since shifting an empty queue leaves length 0.
- InMemoryLogger.InMemoryLogTransport.constructor: `opts.max` is an optional integer. Non-numeric strings, which `isNaN` rejects, are not modelled.
- `src/utils/logger.js` and `src/handlers/login.js` are not part of this model.

## Findings

| source | as written | input that shows it | evidently intended | confidence | as-written member | corrected member |
|---|---|---|---|---|---|---|
| src/utils/in-memory-logger.js:51-54 | when at least as many lines are asked for as are queued, the answer is `queue.slice(queue.length - nLines)`, whose start is negative | three records queued and `getLogAsync(5)`: `slice(-2)` answers the last two records only | answer the whole queue | high; not executed | InMemoryLogger.SliceAsWrittenDropsRecords | InMemoryLogger.RecentRecordsAreLastN |
| src/handlers/storage.js:203-204 | the merge reads the prior provenance under `previousSubjectIDs`, but the store reports metadata names in lower case | an object uploaded to A, merged into B, then merged into C | the provenance lists A and B | medium; not executed | StorageMerge.ProvenanceChainAsWritten | StorageMerge.ProvenanceChain |
| src/handlers/storage.js:119-246 | `getobjectToCache` resolves with the path before its stream ends, and a stream error only closes the cache file; the merge then writes whatever the file holds into the destination and removes the source object | every call succeeds but the stream of a non-empty object breaks after its first chunks | the download is awaited and its failure rejects, so the loop is left and the source object kept | high; not executed | StorageMerge.BrokenStreamTruncates | StorageMerge.AwaitedMergeLosesNothing |
