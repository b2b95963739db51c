/**
 * The read side of the storage routes (src/handlers/storage.js): the role gate
 * every handler starts with, bucket provisioning (check, create once, check
 * again), the cache-file path, file retrieval, the stat route and the two
 * admin listings. Each handler is a method over the `ObjectStore` client,
 * proved equal to a function of the store's state; the properties are lemmas
 * about those functions.
 */
module Storage {
  import opened Wrappers
  import opened Text
  import opened Minio
  import VerifyToken

  type Json = VerifyToken.Json

  // ---------------------------------------------------------------------
  // Replies
  // ---------------------------------------------------------------------

  /** Why a handler answered 500, or why a merge was rejected. */
  datatype Fault =
    | StoreFault(cause: StoreError)
    | StreamFault
    | AccessTypeError       // the claim value has no `indexOf`
    | ProvenanceNotList     // `push` on a provenance value that is not an array
    | RegionUndefined       // `region` is not defined where the merge creates the bucket
    | BucketNotCreated      // 'Unable to create bucket'
    | NoCacheDirectory      // 'No Cache directory Set'
    | CacheFileMissing      // the cache file is not there to read

  /**
   * What a handler answers: 401 `{message}`, 500 with the error, or the body
   * (a JSON document or the file's bytes).
   */
  datatype Reply<+T> = Unauthorised(message: string) | ServerError(fault: Fault) | Served(body: T)

  /** The scheme and host of the request, as `req.protocol` and `req.get('host')` give them. */
  datatype RequestInfo = RequestInfo(protocol: string, host: string)

  /** `protocol://host/storage/retrieve/`, the prefix of every href the gateway hands out. */
  function RetrieveBase(req: RequestInfo): string
  {
    req.protocol + "://" + req.host + "/storage/retrieve/"
  }

  // ---------------------------------------------------------------------
  // Role gate: `req.userAccess.indexOf(role) === -1`
  // ---------------------------------------------------------------------

  /** The gate passes, refuses (-1), or throws because the claim has no `indexOf`. */
  datatype Gate = Pass | Refuse | Throws

  function GateFor(access: Json, role: string): Gate
  {
    match VerifyToken.AccessIndexOf(access, role)
    case None => Throws
    case Some(i) => if i == -1 then Refuse else Pass
  }

  /**
   * A handler lets the request through exactly when its role is an element of
   * an array claim or a substring of a string claim; any other claim throws.
   */
  lemma GateMeaning(access: Json, role: string)
    ensures GateFor(access, role) == Pass <==>
      (access.Arr? && VerifyToken.Str(role) in access.items) ||
      (access.Str? && exists i :: OccursAt(access.s, role, i))
    ensures GateFor(access, role) == Throws <==> !access.Arr? && !access.Str?
  {
    VerifyToken.AccessIndexOfMeaning(access, role);
  }

  /** A refused request is answered 401 "Authorisation failed."; a throwing gate reaches the error handler (500). */
  function Refusal<T>(g: Gate): (reply: Reply<T>)
    requires g != Pass
  {
    if g == Refuse then Unauthorised(VerifyToken.AuthFailedMessage) else ServerError(AccessTypeError)
  }

  // ---------------------------------------------------------------------
  // Faults to come
  // ---------------------------------------------------------------------

  /** The next `n` calls succeed. */
  predicate Quiet(faults: seq<bool>, n: nat)
  {
    forall i :: 0 <= i < n && i < |faults| ==> !faults[i]
  }

  lemma QuietLater(faults: seq<bool>, n: nat)
    requires Quiet(faults, n + 1)
    ensures !NextFails(faults)
    ensures Quiet(Later(faults), n)
  {
    if |faults| > 0 {
      assert !faults[0];
      forall i | 0 <= i < n && i < |Later(faults)|
        ensures !Later(faults)[i]
      {
        assert Later(faults)[i] == faults[i + 1];
      }
    }
  }

  // ---------------------------------------------------------------------
  // Bucket provisioning
  // ---------------------------------------------------------------------

  /** `checkBucketExists`: true only when the store answers, without error, that the bucket exists. */
  function CheckCall(r: Remote, name: string): (res: (bool, Remote))
    ensures res.0 <==> !NextFails(r.faults) && name in r.buckets
    ensures res.1 == Tick(r)
  {
    var (answer, r1) := BucketExistsCall(r, name);
    (answer == Ok(true), r1)
  }

  /** `makeBucket`: true when the store created the bucket, false on any error. */
  function CreateCall(r: Remote, name: string): (res: (bool, Remote))
    ensures res.0 <==> !NextFails(r.faults) && name !in r.buckets
    ensures res.1.buckets == if res.0 then r.buckets[name := map[]] else r.buckets
  {
    var (answer, r1) := MakeBucketCall(r, name);
    (answer.Ok?, r1)
  }

  /** Check, create once when the check says no, and check again; the answer of the second check decides. */
  function ProvisionCall(r: Remote, name: string): (bool, Remote)
  {
    var (exists1, r1) := CheckCall(r, name);
    var r2 := if exists1 then r1 else CreateCall(r1, name).1;
    CheckCall(r2, name)
  }

  /**
   * Provisioning adds at most the one empty bucket and changes nothing else; a
   * true answer means the bucket is there; with three quiet calls ahead it
   * always answers true.
   */
  lemma ProvisionEffect(r: Remote, name: string)
    ensures var (ok, r') := ProvisionCall(r, name);
      && (ok ==> name in r'.buckets)
      && (r'.buckets == r.buckets || (name !in r.buckets && r'.buckets == r.buckets[name := map[]]))
      && (Quiet(r.faults, 3) ==> ok)
  {
    if Quiet(r.faults, 3) {
      QuietLater(r.faults, 2);
      QuietLater(Later(r.faults), 1);
      QuietLater(Later(Later(r.faults)), 0);
    }
  }

  /** With four quiet calls ahead, provisioning answers true and the call after it does not fail. */
  /** Provisioning a bucket spends two calls of the fault schedule, or three when it creates the bucket. */
  lemma ProvisionSpends(r: Remote, name: string, n: nat)
    requires Quiet(r.faults, n + 3)
    ensures Quiet(ProvisionCall(r, name).1.faults, n)
  {
    QuietLater(r.faults, n + 2);
    QuietLater(Later(r.faults), n + 1);
    QuietLater(Later(Later(r.faults)), n);
    var r1 := ProvisionCall(r, name).1;
    if r1.faults != Later(Later(Later(r.faults))) {
      assert r1.faults == Later(Later(r.faults));
      QuietShorter(Later(Later(r.faults)), n + 1, n);
    }
  }

  /** A promise about more calls covers fewer. */
  lemma QuietShorter(faults: seq<bool>, n: nat, m: nat)
    requires Quiet(faults, n) && m <= n
    ensures Quiet(faults, m)
  {
  }

  lemma ProvisionThenQuiet(r: Remote, name: string)
    requires Quiet(r.faults, 4)
    ensures var (ok, r1) := ProvisionCall(r, name); ok && !NextFails(r1.faults)
  {
    ProvisionEffect(r, name);
    var (ok, r1) := ProvisionCall(r, name);
    QuietLater(r.faults, 3);
    QuietLater(Later(r.faults), 2);
    QuietLater(Later(Later(r.faults)), 1);
    if r1.faults != Later(Later(Later(r.faults))) {
      assert r1.faults == Later(Later(r.faults));
    } else {
      QuietLater(Later(Later(Later(r.faults))), 0);
    }
  }

  method CheckBucketExists(store: ObjectStore, name: string) returns (found: bool)
    modifies store
    ensures (found, store.Value()) == CheckCall(old(store.Value()), name)
  {
    var answer := store.BucketExists(name);
    found := answer == Ok(true);
  }

  method MakeBucket(store: ObjectStore, name: string) returns (created: bool)
    modifies store
    ensures (created, store.Value()) == CreateCall(old(store.Value()), name)
  {
    var answer := store.MakeBucket(name);
    created := answer.Ok?;
  }

  method ProvisionBucket(store: ObjectStore, name: string) returns (found: bool)
    modifies store
    ensures (found, store.Value()) == ProvisionCall(old(store.Value()), name)
  {
    found := CheckBucketExists(store, name);
    if !found {
      var _ := MakeBucket(store, name);
    }
    found := CheckBucketExists(store, name);
  }

  // ---------------------------------------------------------------------
  // Cache-file path
  // ---------------------------------------------------------------------

  const NoCacheDirectoryMessage := "No Cache directory Set"

  /**
   * `cacheDirectory + '\\' + key`, then the first '/' made '\\' on Windows, or
   * the first '\\' made '/' elsewhere; an unset or empty directory is an error.
   */
  function CachePath(cacheDirectory: Option<string>, key: string, win32: bool): (r: Result<string, string>)
    ensures r.Err? <==> cacheDirectory == None || cacheDirectory == Some("")
    ensures r.Err? ==> r.error == NoCacheDirectoryMessage
  {
    if cacheDirectory == None || cacheDirectory == Some("") then Err(NoCacheDirectoryMessage)
    else
      var joined := cacheDirectory.value + ['\\'] + key;
      Ok(if win32 then ReplaceFirst(joined, '/', '\\') else ReplaceFirst(joined, '\\', '/'))
  }

  /** Off Windows, a directory without a backslash gets a '/' between it and the key, and the key is kept as is. */
  lemma CachePathPosix(dir: string, key: string)
    requires dir != "" && '\\' !in dir
    ensures CachePath(Some(dir), key, false) == Ok(dir + ['/'] + key)
  {
    var joined := dir + ['\\'] + key;
    ReplaceFirstMeaning(joined, '\\', '/');
    assert joined[|dir|] == '\\';
    assert '\\' !in joined[..|dir|] by { assert joined[..|dir|] == dir; }
    var i :| 0 <= i < |joined| && joined[i] == '\\' && '\\' !in joined[..i]
      && ReplaceFirst(joined, '\\', '/') == joined[..i] + ['/'] + joined[i + 1..];
    assert forall j :: 0 <= j < |dir| ==> joined[j] == dir[j];
    assert i == |dir|;
    assert joined[..|dir|] == dir;
    assert joined[|dir| + 1..] == key;
  }

  /** On win32 the joined path keeps its backslash separator when neither the directory nor the key holds a '/'. */
  lemma CachePathWin32(dir: string, key: string)
    requires dir != "" && '/' !in dir && '/' !in key
    ensures CachePath(Some(dir), key, true) == Ok(dir + ['\\'] + key)
  {
    var joined := dir + ['\\'] + key;
    forall j | 0 <= j < |joined|
      ensures joined[j] != '/'
    {
      if j < |dir| {
        assert joined[j] == dir[j];
      } else if j > |dir| {
        assert joined[j] == key[j - |dir| - 1];
      }
    }
    ReplaceFirstMeaning(joined, '/', '\\');
  }

  /** On win32 only the first '/' of the directory becomes a backslash; later ones stay. */
  lemma CachePathWin32SlashInDir(dir: string, key: string)
    requires '/' in dir
    ensures var i := FirstIndex(dir, '/');
      CachePath(Some(dir), key, true) == Ok(dir[..i] + ['\\'] + dir[i + 1..] + ['\\'] + key)
  {
    ReplaceFirstAt(dir, '/', '\\');
    ReplaceFirstAppend(dir, ['\\'] + key, '/', '\\');
    var i := FirstIndex(dir, '/');
    var t := ['\\'] + key;
    assert dir != "";
    assert dir + ['\\'] + key == dir + t;
    assert ReplaceFirst(dir + t, '/', '\\') == dir[..i] + ['\\'] + dir[i + 1..] + t;
    assert dir[..i] + ['\\'] + dir[i + 1..] + t == dir[..i] + ['\\'] + dir[i + 1..] + ['\\'] + key;
  }


  /** Only the first separator is rewritten: off Windows a backslash in the directory is replaced and the inserted one is kept. */
  lemma CachePathKeepsLaterBackslash(dir: string, key: string)
    requires |dir| >= 1 && dir[0] == '\\'
    ensures CachePath(Some(dir), key, false) == Ok(['/'] + dir[1..] + ['\\'] + key)
  {
    var joined := dir + ['\\'] + key;
    ReplaceFirstMeaning(joined, '\\', '/');
    assert joined[0] == '\\';
    var i :| 0 <= i < |joined| && joined[i] == '\\' && '\\' !in joined[..i]
      && ReplaceFirst(joined, '\\', '/') == joined[..i] + ['/'] + joined[i + 1..];
    assert i == 0;
    assert joined[1..] == dir[1..] + ['\\'] + key;
    assert joined[..0] + ['/'] + joined[1..] == ['/'] + dir[1..] + ['\\'] + key;
  }

  // ---------------------------------------------------------------------
  // Retrieval: GET /retrieve/:bucket/:file
  // ---------------------------------------------------------------------

  const OctetStream := "application/octet-stream"

  /** The Content-Type header: the stored 'content-type' when truthy, else application/octet-stream. */
  function ContentTypeHeader(meta: Metadata): (ct: MetaValue)
    ensures Truthy(ct)
  {
    if Truthy(Lookup(meta, "content-type")) then Lookup(meta, "content-type") else Str(OctetStream)
  }

  /** The headers and the body of a served file. */
  datatype FileReply = FileReply(contentType: MetaValue, contentLength: nat, body: Bytes)

  function Retrieve(r: Remote, access: Json, readRole: string, bucket: string, key: string): (res: (Reply<FileReply>, Remote))
    ensures GateFor(access, readRole) == Refuse ==> res == (Unauthorised(VerifyToken.AuthFailedMessage), r)
    ensures GateFor(access, readRole) == Throws ==> res == (ServerError(AccessTypeError), r)
    ensures res.1.buckets == r.buckets
  {
    var g := GateFor(access, readRole);
    if g != Pass then (Refusal(g), r)
    else
      var (st, r1) := StatCall(r, bucket, key);
      if st.Err? then (ServerError(StoreFault(st.error)), r1)
      else
        var (got, r2) := GetCall(r1, bucket, key);
        if got.Err? then (ServerError(StoreFault(got.error)), r2)
        else if got.value.broken then (ServerError(StreamFault), r2)
        else (Served(FileReply(ContentTypeHeader(st.value.meta), st.value.size, Concat(got.value.chunks))), r2)
  }

  /**
   * With the read role and three quiet calls ahead, a stored object is served
   * whole: its bytes in order, Content-Length its size, Content-Type from its
   * metadata.
   */
  lemma RetrieveServesStoredObject(r: Remote, access: Json, readRole: string, bucket: string, key: string)
    requires GateFor(access, readRole) == Pass
    requires bucket in r.buckets && key in r.buckets[bucket]
    requires Quiet(r.faults, 3)
    ensures var o := r.buckets[bucket][key];
      Retrieve(r, access, readRole, bucket, key).0 == Served(FileReply(ContentTypeHeader(o.meta), |o.data|, o.data))
  {
    QuietLater(r.faults, 2);
    QuietLater(Later(r.faults), 1);
    ConcatChunks(r.buckets[bucket][key].data, r.chunkSize);
  }

  /** A missing object is answered 500 with the store's error, and the get is never made. */
  lemma RetrieveMissingObject(r: Remote, access: Json, readRole: string, bucket: string, key: string)
    requires GateFor(access, readRole) == Pass
    requires bucket in r.buckets && key !in r.buckets[bucket]
    requires !NextFails(r.faults)
    ensures Retrieve(r, access, readRole, bucket, key) == (ServerError(StoreFault(NoSuchKey(bucket, key))), Tick(r))
  {
  }

  /** The chunks of the stream are gathered in arrival order. */
  method GatherChunks(chunks: seq<Bytes>) returns (body: Bytes)
    ensures body == Concat(chunks)
  {
    body := [];
    var i := 0;
    while i < |chunks|
      invariant 0 <= i <= |chunks|
      invariant body == Concat(chunks[..i])
    {
      assert chunks[..i + 1][..i] == chunks[..i];
      body := body + chunks[i];
      i := i + 1;
    }
    assert chunks[..i] == chunks;
  }

  method GetFile(store: ObjectStore, access: Json, readRole: string, bucket: string, key: string) returns (reply: Reply<FileReply>)
    modifies store
    ensures (reply, store.Value()) == Retrieve(old(store.Value()), access, readRole, bucket, key)
  {
    var g := GateFor(access, readRole);
    if g != Pass {
      return Refusal(g);
    }
    var st := store.StatObject(bucket, key);
    if st.Err? {
      return ServerError(StoreFault(st.error));
    }
    var contentType := ContentTypeHeader(st.value.meta);
    var got := store.GetObject(bucket, key);
    if got.Err? {
      return ServerError(StoreFault(got.error));
    }
    if got.value.broken {
      return ServerError(StreamFault);
    }
    var body := GatherChunks(got.value.chunks);
    reply := Served(FileReply(contentType, st.value.size, body));
  }

  // ---------------------------------------------------------------------
  // GET /stat/:bucket/:file
  // ---------------------------------------------------------------------

  function StatRoute(r: Remote, access: Json, readRole: string, bucket: string, key: string): (res: (Reply<Stat>, Remote))
    ensures GateFor(access, readRole) == Refuse ==> res == (Unauthorised(VerifyToken.AuthFailedMessage), r)
    ensures GateFor(access, readRole) == Throws ==> res == (ServerError(AccessTypeError), r)
    ensures res.1.buckets == r.buckets
    ensures res.0.Served? ==>
      (bucket in r.buckets && key in r.buckets[bucket]
       && res.0.body == Stat(|r.buckets[bucket][key].data|, r.buckets[bucket][key].meta))
  {
    var g := GateFor(access, readRole);
    if g != Pass then (Refusal(g), r)
    else
      var (st, r1) := StatCall(r, bucket, key);
      if st.Err? then (ServerError(StoreFault(st.error)), r1) else (Served(st.value), r1)
  }

  method GetFileStat(store: ObjectStore, access: Json, readRole: string, bucket: string, key: string) returns (reply: Reply<Stat>)
    modifies store
    ensures (reply, store.Value()) == StatRoute(old(store.Value()), access, readRole, bucket, key)
  {
    var g := GateFor(access, readRole);
    if g != Pass {
      return Refusal(g);
    }
    var st := store.StatObject(bucket, key);
    if st.Err? {
      return ServerError(StoreFault(st.error));
    }
    reply := Served(st.value);
  }

  // ---------------------------------------------------------------------
  // GET /admin/bucket/:bucket — every object of a bucket with its stat
  // ---------------------------------------------------------------------

  datatype Listed = Listed(name: string, stat: Stat)

  /** Stat each name in turn; the first failing stat ends the listing with its error. */
  function StatEach(r: Remote, bucket: string, names: seq<string>): (res: (Result<seq<Listed>, StoreError>, Remote))
    ensures res.1.buckets == r.buckets
    ensures res.0.Ok? ==>
      (|res.0.value| == |names| && forall i :: 0 <= i < |names| ==> res.0.value[i].name == names[i])
    decreases |names|
  {
    if |names| == 0 then (Ok([]), r)
    else
      var (prev, r1) := StatEach(r, bucket, names[..|names| - 1]);
      if prev.Err? then (prev, r1)
      else
        var (st, r2) := StatCall(r1, bucket, names[|names| - 1]);
        if st.Err? then (Err(st.error), r2)
        else (Ok(prev.value + [Listed(names[|names| - 1], st.value)]), r2)
  }

  /** Once a stat has failed, the listing stops: the later names are never stat-ed. */
  lemma {:induction false} StatEachStops(r: Remote, bucket: string, names: seq<string>, i: nat)
    requires i <= |names|
    requires StatEach(r, bucket, names[..i]).0.Err?
    ensures StatEach(r, bucket, names) == StatEach(r, bucket, names[..i])
    decreases |names|
  {
    if i < |names| {
      assert names[..|names| - 1][..i] == names[..i];
      StatEachStops(r, bucket, names[..|names| - 1], i);
    } else {
      assert names[..i] == names;
    }
  }

  /** One more name: one more stat, whose answer ends or extends the listing. */
  lemma StatEachNext(r: Remote, bucket: string, names: seq<string>, i: nat)
    requires i < |names|
    requires StatEach(r, bucket, names[..i]).0.Ok?
    ensures var (prev, r1) := StatEach(r, bucket, names[..i]);
      var (st, r2) := StatCall(r1, bucket, names[i]);
      StatEach(r, bucket, names[..i + 1])
        == (if st.Err? then Err(st.error) else Ok(prev.value + [Listed(names[i], st.value)]), r2)
  {
    assert names[..i + 1][..i] == names[..i];
  }

  function BucketListing(r: Remote, access: Json, adminRole: string, bucket: string): (res: (Reply<seq<Listed>>, Remote))
    ensures GateFor(access, adminRole) == Refuse ==> res == (Unauthorised(VerifyToken.AuthFailedMessage), r)
    ensures GateFor(access, adminRole) == Throws ==> res == (ServerError(AccessTypeError), r)
    ensures res.1.buckets == r.buckets
  {
    var g := GateFor(access, adminRole);
    if g != Pass then (Refusal(g), r)
    else
      var (names, r1) := ListObjectsCall(r, bucket);
      if names.Err? then (ServerError(StoreFault(names.error)), r1)
      else
        var (listed, r2) := StatEach(r1, bucket, names.value);
        if listed.Err? then (ServerError(StoreFault(listed.error)), r2) else (Served(listed.value), r2)
  }

  /** With quiet calls ahead, stat-ing names that are all in the bucket reports each object's size and metadata. */
  lemma {:induction false} StatEachQuiet(r: Remote, bucket: string, names: seq<string>, m: nat)
    requires bucket in r.buckets
    requires forall i :: 0 <= i < |names| ==> names[i] in r.buckets[bucket]
    requires Quiet(r.faults, |names| + m)
    ensures var (res, r') := StatEach(r, bucket, names);
      && res.Ok?
      && (forall i :: 0 <= i < |names| ==>
            res.value[i].stat == Stat(|r.buckets[bucket][names[i]].data|, r.buckets[bucket][names[i]].meta))
      && Quiet(r'.faults, m)
    decreases |names|
  {
    if |names| > 0 {
      var n := |names| - 1;
      StatEachQuiet(r, bucket, names[..n], m + 1);
      var (prev, r1) := StatEach(r, bucket, names[..n]);
      QuietLater(r1.faults, m);
    }
  }

  /**
   * With the admin role and quiet calls, the listing answers every object of the
   * bucket once, in ascending key order, each with its size and metadata.
   */
  lemma ListingReportsEveryObject(r: Remote, access: Json, adminRole: string, bucket: string)
    requires GateFor(access, adminRole) == Pass
    requires bucket in r.buckets
    requires Quiet(r.faults, 1 + |r.buckets[bucket]|)
    ensures var reply := BucketListing(r, access, adminRole, bucket).0;
      var names := Ascending(r.buckets[bucket].Keys);
      && reply.Served?
      && |reply.body| == |r.buckets[bucket]|
      && (forall i :: 0 <= i < |reply.body| ==>
            && reply.body[i].name == names[i]
            && reply.body[i].stat == Stat(|r.buckets[bucket][names[i]].data|, r.buckets[bucket][names[i]].meta))
  {
    var names := Ascending(r.buckets[bucket].Keys);
    assert |r.buckets[bucket].Keys| == |r.buckets[bucket]|;
    QuietLater(r.faults, |names|);
    StatEachQuiet(Tick(r), bucket, names, 0);
  }

  method AdminBucketList(store: ObjectStore, access: Json, adminRole: string, bucket: string) returns (reply: Reply<seq<Listed>>)
    modifies store
    ensures (reply, store.Value()) == BucketListing(old(store.Value()), access, adminRole, bucket)
  {
    var g := GateFor(access, adminRole);
    if g != Pass {
      return Refusal(g);
    }
    var names := store.ListObjects(bucket);
    if names.Err? {
      return ServerError(StoreFault(names.error));
    }
    ghost var r1 := store.Value();
    var objectData: seq<Listed> := [];
    var i := 0;
    while i < |names.value|
      invariant 0 <= i <= |names.value|
      invariant (Ok(objectData), store.Value()) == StatEach(r1, bucket, names.value[..i])
    {
      StatEachNext(r1, bucket, names.value, i);
      var st := store.StatObject(bucket, names.value[i]);
      if st.Err? {
        StatEachStops(r1, bucket, names.value, i + 1);
        return ServerError(StoreFault(st.error));
      }
      objectData := objectData + [Listed(names.value[i], st.value)];
      i := i + 1;
    }
    assert names.value[..i] == names.value;
    reply := Served(objectData);
  }

  // ---------------------------------------------------------------------
  // GET /admin/buckets
  // ---------------------------------------------------------------------

  function BucketNames(r: Remote, access: Json, adminRole: string): (res: (Reply<seq<string>>, Remote))
    ensures GateFor(access, adminRole) == Refuse ==> res == (Unauthorised(VerifyToken.AuthFailedMessage), r)
    ensures GateFor(access, adminRole) == Throws ==> res == (ServerError(AccessTypeError), r)
    ensures res.1.buckets == r.buckets
    ensures res.0.Served? ==> res.0.body == Ascending(r.buckets.Keys)
    ensures GateFor(access, adminRole) == Pass && !NextFails(r.faults) ==> res.0.Served?
  {
    var g := GateFor(access, adminRole);
    if g != Pass then (Refusal(g), r)
    else
      var (names, r1) := ListBucketsCall(r);
      if names.Err? then (ServerError(StoreFault(names.error)), r1) else (Served(names.value), r1)
  }

  method AdminBuckets(store: ObjectStore, access: Json, adminRole: string) returns (reply: Reply<seq<string>>)
    modifies store
    ensures (reply, store.Value()) == BucketNames(old(store.Value()), access, adminRole)
  {
    var g := GateFor(access, adminRole);
    if g != Pass {
      return Refusal(g);
    }
    var names := store.ListBuckets();
    if names.Err? {
      return ServerError(StoreFault(names.error));
    }
    reply := Served(names.value);
  }
}
