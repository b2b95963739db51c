/**
 * The S3-compatible object store the gateway talks to, as far as the handlers
 * in src/handlers/storage.js rely on it. Its durable state is a map from bucket
 * name to a map from object key to object. Network faults are given by a fault
 * schedule: every call that can fail takes the next answer from `faults`
 * (true = that call fails), and succeeds once the schedule is used up.
 */
module Minio {
  import opened Wrappers
  import opened Text

  type Bytes = seq<bv8>

  /** A metadata value: `undefined`, `null`, a string, or a list (the provenance list). */
  datatype MetaValue = Undefined | Null | Str(s: string) | List(items: seq<MetaValue>)

  /** JavaScript truthiness of a metadata value; every list is truthy. */
  predicate Truthy(v: MetaValue)
  {
    match v
    case Undefined => false
    case Null => false
    case Str(s) => s != ""
    case List(_) => true
  }

  type Metadata = map<string, MetaValue>

  /** `metaData[key]`. */
  function Lookup(meta: Metadata, key: string): MetaValue
  {
    if key in meta then meta[key] else Undefined
  }

  datatype Obj = Obj(data: Bytes, meta: Metadata)

  type Buckets = map<string, map<string, Obj>>

  /** What `statObject` reports. */
  datatype Stat = Stat(size: nat, meta: Metadata)

  datatype StoreError = Unavailable | BucketAlreadyExists(bucket: string) | NoSuchBucket(bucket: string) | NoSuchKey(bucket: string, key: string)

  /**
   * The chunks a stream delivers, and whether it ends in an error. A stream
   * that breaks has delivered every chunk of the object but its last.
   */
  datatype Stream = Stream(chunks: seq<Bytes>, broken: bool)

  /** The store's state: its buckets, the fault schedule still to come, and the size of the chunks it streams. */
  datatype Remote = Remote(buckets: Buckets, faults: seq<bool>, chunkSize: nat)

  // ---------------------------------------------------------------------
  // Metadata as the store keeps it
  // ---------------------------------------------------------------------

  /**
   * The metadata a put records: names are lower-cased (the store reports
   * `Content-Type` back as `content-type`, `SubjectId` as `subjectid`), and a
   * later entry wins over an earlier one with the same lower-cased name.
   */
  function StoredMeta(entries: seq<(string, MetaValue)>): (meta: Metadata)
    ensures forall k :: k in meta ==> IsLower(k)
  {
    if |entries| == 0 then map[]
    else
      var last := entries[|entries| - 1];
      LowerIsLower(last.0);
      StoredMeta(entries[..|entries| - 1])[Lower(last.0) := last.1]
  }

  /** The names the handlers write, as the store reports them back. */
  lemma StoredNames()
    ensures Lower("Content-Type") == "content-type"
    ensures Lower("SubjectId") == "subjectid"
    ensures Lower("previousSubjectIDs") == "previoussubjectids"
  {
  }

  /** A name that is not all lower case is never found in stored metadata. */
  lemma NotLowerNeverStored(entries: seq<(string, MetaValue)>, key: string)
    requires !IsLower(key)
    ensures Lookup(StoredMeta(entries), key) == Undefined
  {
  }

  // ---------------------------------------------------------------------
  // The calls, as functions of the store's state
  // ---------------------------------------------------------------------

  /** The next call fails. */
  function NextFails(faults: seq<bool>): bool
  {
    |faults| > 0 && faults[0]
  }

  /** The schedule after one call. */
  function Later(faults: seq<bool>): (rest: seq<bool>)
    ensures |rest| == if |faults| == 0 then 0 else |faults| - 1
  {
    if |faults| == 0 then [] else faults[1..]
  }

  function Tick(r: Remote): Remote
  {
    r.(faults := Later(r.faults))
  }

  function BucketExistsCall(r: Remote, name: string): (Result<bool, StoreError>, Remote)
  {
    if NextFails(r.faults) then (Err(Unavailable), Tick(r)) else (Ok(name in r.buckets), Tick(r))
  }

  function MakeBucketCall(r: Remote, name: string): (Result<(), StoreError>, Remote)
  {
    if NextFails(r.faults) then (Err(Unavailable), Tick(r))
    else if name in r.buckets then (Err(BucketAlreadyExists(name)), Tick(r))
    else (Ok(()), Tick(r).(buckets := r.buckets[name := map[]]))
  }

  function ListObjectsCall(r: Remote, bucket: string): (Result<seq<string>, StoreError>, Remote)
  {
    if NextFails(r.faults) then (Err(Unavailable), Tick(r))
    else if bucket !in r.buckets then (Err(NoSuchBucket(bucket)), Tick(r))
    else (Ok(Ascending(r.buckets[bucket].Keys)), Tick(r))
  }

  function ListBucketsCall(r: Remote): (Result<seq<string>, StoreError>, Remote)
  {
    if NextFails(r.faults) then (Err(Unavailable), Tick(r))
    else (Ok(Ascending(r.buckets.Keys)), Tick(r))
  }

  function StatCall(r: Remote, bucket: string, key: string): (Result<Stat, StoreError>, Remote)
  {
    if NextFails(r.faults) then (Err(Unavailable), Tick(r))
    else if bucket !in r.buckets then (Err(NoSuchBucket(bucket)), Tick(r))
    else if key !in r.buckets[bucket] then (Err(NoSuchKey(bucket, key)), Tick(r))
    else
      var o := r.buckets[bucket][key];
      (Ok(Stat(|o.data|, o.meta)), Tick(r))
  }

  /** `data` cut into pieces of `size` bytes (the whole of it when `size` is 0). */
  function Chunks(data: Bytes, size: nat): (chunks: seq<Bytes>)
    ensures |chunks| >= 1
    decreases |data|
  {
    if size == 0 || |data| <= size then [data]
    else [data[..size]] + Chunks(data[size..], size)
  }

  /** `Buffer.concat(chunks)`. */
  function Concat(chunks: seq<Bytes>): Bytes
  {
    if |chunks| == 0 then [] else Concat(chunks[..|chunks| - 1]) + chunks[|chunks| - 1]
  }

  lemma {:induction false} ConcatPrepend(c: Bytes, chunks: seq<Bytes>)
    ensures Concat([c] + chunks) == c + Concat(chunks)
    decreases |chunks|
  {
    if |chunks| > 0 {
      var all := [c] + chunks;
      assert all[..|all| - 1] == [c] + chunks[..|chunks| - 1];
      ConcatPrepend(c, chunks[..|chunks| - 1]);
    }
  }

  /** Putting the streamed chunks back together gives the stored bytes. */
  lemma {:induction false} ConcatChunks(data: Bytes, size: nat)
    ensures Concat(Chunks(data, size)) == data
    decreases |data|
  {
    if size == 0 || |data| <= size {
      assert Concat([data]) == Concat([]) + data;
    } else {
      ConcatChunks(data[size..], size);
      ConcatPrepend(data[..size], Chunks(data[size..], size));
      assert data == data[..size] + data[size..];
    }
  }

  /** What a stream that breaks before its last chunk has delivered. */
  function BrokenOff(chunks: seq<Bytes>): seq<Bytes>
  {
    if |chunks| == 0 then [] else chunks[..|chunks| - 1]
  }

  /** The last chunk of a non-empty object is not empty. */
  lemma {:induction false} LastChunkNonEmpty(data: Bytes, size: nat)
    requires |data| > 0
    ensures var c := Chunks(data, size); |c[|c| - 1]| > 0
    decreases |data|
  {
    if !(size == 0 || |data| <= size) {
      LastChunkNonEmpty(data[size..], size);
      var c := Chunks(data, size);
      assert c[|c| - 1] == Chunks(data[size..], size)[|Chunks(data[size..], size)| - 1];
    }
  }

  /**
   * A broken stream delivers a prefix of the object's bytes, and for a
   * non-empty object a strictly shorter one.
   */
  lemma BrokenOffPrefix(data: Bytes, size: nat)
    ensures Concat(BrokenOff(Chunks(data, size))) <= data
    ensures |data| > 0 ==> |Concat(BrokenOff(Chunks(data, size)))| < |data|
  {
    var c := Chunks(data, size);
    ConcatChunks(data, size);
    assert Concat(c) == Concat(BrokenOff(c)) + c[|c| - 1];
    if |data| > 0 {
      LastChunkNonEmpty(data, size);
    }
  }

  /** A get: the request can fail, and then the stream can break after it has started. */
  function GetCall(r: Remote, bucket: string, key: string): (Result<Stream, StoreError>, Remote)
  {
    if NextFails(r.faults) then (Err(Unavailable), Tick(r))
    else if bucket !in r.buckets then (Err(NoSuchBucket(bucket)), Tick(r))
    else if key !in r.buckets[bucket] then (Err(NoSuchKey(bucket, key)), Tick(r))
    else
      var r1 := Tick(r);
      var chunks := Chunks(r.buckets[bucket][key].data, r.chunkSize);
      var broken := NextFails(r1.faults);
      (Ok(Stream(if broken then BrokenOff(chunks) else chunks, broken)), Tick(r1))
  }

  function PutCall(r: Remote, bucket: string, key: string, data: Bytes, entries: seq<(string, MetaValue)>): (Result<(), StoreError>, Remote)
  {
    if NextFails(r.faults) then (Err(Unavailable), Tick(r))
    else if bucket !in r.buckets then (Err(NoSuchBucket(bucket)), Tick(r))
    else (Ok(()), Tick(r).(buckets := r.buckets[bucket := r.buckets[bucket][key := Obj(data, StoredMeta(entries))]]))
  }

  /** Removal is not given a fault: its error is thrown from a callback nobody awaits. */
  function RemoveCall(r: Remote, bucket: string, key: string): Remote
  {
    if bucket in r.buckets then r.(buckets := r.buckets[bucket := r.buckets[bucket] - {key}]) else r
  }

  /** A put that succeeds is seen by the next stat, with the bytes' size and the lower-cased metadata. */
  lemma PutThenStat(r: Remote, bucket: string, key: string, data: Bytes, entries: seq<(string, MetaValue)>)
    requires PutCall(r, bucket, key, data, entries).0.Ok?
    requires !NextFails(PutCall(r, bucket, key, data, entries).1.faults)
    ensures StatCall(PutCall(r, bucket, key, data, entries).1, bucket, key).0 == Ok(Stat(|data|, StoredMeta(entries)))
  {
  }

  /** A put that succeeds is read back byte for byte by a get whose stream does not break. */
  lemma PutThenGet(r: Remote, bucket: string, key: string, data: Bytes, entries: seq<(string, MetaValue)>)
    requires PutCall(r, bucket, key, data, entries).0.Ok?
    requires !NextFails(PutCall(r, bucket, key, data, entries).1.faults)
    requires !NextFails(Later(PutCall(r, bucket, key, data, entries).1.faults))
    ensures var g := GetCall(PutCall(r, bucket, key, data, entries).1, bucket, key).0;
      g.Ok? && !g.value.broken && Concat(g.value.chunks) == data
  {
    ConcatChunks(data, r.chunkSize);
  }

  // ---------------------------------------------------------------------
  // The client object
  // ---------------------------------------------------------------------

  /** The MinIO client; its fields are the store's state behind it. */
  class ObjectStore {
    var buckets: Buckets
    var faults: seq<bool>
    const chunkSize: nat

    function Value(): Remote
      reads this
    {
      Remote(buckets, faults, chunkSize)
    }

    constructor (buckets: Buckets, faults: seq<bool>, chunkSize: nat)
      ensures Value() == Remote(buckets, faults, chunkSize)
    {
      this.buckets := buckets;
      this.faults := faults;
      this.chunkSize := chunkSize;
    }

    method BucketExists(name: string) returns (r: Result<bool, StoreError>)
      modifies this
      ensures (r, Value()) == BucketExistsCall(old(Value()), name)
    {
      var failed := NextFails(faults);
      faults := Later(faults);
      if failed { return Err(Unavailable); }
      r := Ok(name in buckets);
    }

    method MakeBucket(name: string) returns (r: Result<(), StoreError>)
      modifies this
      ensures (r, Value()) == MakeBucketCall(old(Value()), name)
    {
      var failed := NextFails(faults);
      faults := Later(faults);
      if failed { return Err(Unavailable); }
      if name in buckets { return Err(BucketAlreadyExists(name)); }
      buckets := buckets[name := map[]];
      r := Ok(());
    }

    method ListObjects(bucket: string) returns (r: Result<seq<string>, StoreError>)
      modifies this
      ensures (r, Value()) == ListObjectsCall(old(Value()), bucket)
    {
      var failed := NextFails(faults);
      faults := Later(faults);
      if failed { return Err(Unavailable); }
      if bucket !in buckets { return Err(NoSuchBucket(bucket)); }
      r := Ok(Ascending(buckets[bucket].Keys));
    }

    method ListBuckets() returns (r: Result<seq<string>, StoreError>)
      modifies this
      ensures (r, Value()) == ListBucketsCall(old(Value()))
    {
      var failed := NextFails(faults);
      faults := Later(faults);
      if failed { return Err(Unavailable); }
      r := Ok(Ascending(buckets.Keys));
    }

    method StatObject(bucket: string, key: string) returns (r: Result<Stat, StoreError>)
      modifies this
      ensures (r, Value()) == StatCall(old(Value()), bucket, key)
    {
      var failed := NextFails(faults);
      faults := Later(faults);
      if failed { return Err(Unavailable); }
      if bucket !in buckets { return Err(NoSuchBucket(bucket)); }
      if key !in buckets[bucket] { return Err(NoSuchKey(bucket, key)); }
      var o := buckets[bucket][key];
      r := Ok(Stat(|o.data|, o.meta));
    }

    method GetObject(bucket: string, key: string) returns (r: Result<Stream, StoreError>)
      modifies this
      ensures (r, Value()) == GetCall(old(Value()), bucket, key)
    {
      var failed := NextFails(faults);
      faults := Later(faults);
      if failed { return Err(Unavailable); }
      if bucket !in buckets { return Err(NoSuchBucket(bucket)); }
      if key !in buckets[bucket] { return Err(NoSuchKey(bucket, key)); }
      var broken := NextFails(faults);
      faults := Later(faults);
      var chunks := Chunks(buckets[bucket][key].data, chunkSize);
      r := Ok(Stream(if broken then BrokenOff(chunks) else chunks, broken));
    }

    method PutObject(bucket: string, key: string, data: Bytes, entries: seq<(string, MetaValue)>) returns (r: Result<(), StoreError>)
      modifies this
      ensures (r, Value()) == PutCall(old(Value()), bucket, key, data, entries)
    {
      var failed := NextFails(faults);
      faults := Later(faults);
      if failed { return Err(Unavailable); }
      if bucket !in buckets { return Err(NoSuchBucket(bucket)); }
      buckets := buckets[bucket := buckets[bucket][key := Obj(data, StoredMeta(entries))]];
      r := Ok(());
    }

    method RemoveObject(bucket: string, key: string)
      modifies this
      ensures Value() == RemoveCall(old(Value()), bucket, key)
    {
      if bucket in buckets {
        buckets := buckets[bucket := buckets[bucket] - {key}];
      }
    }
  }
}
