/**
 * The bucket merge, GET /admin/bucket/merge/:srcbucket/:dstbucket
 * (src/handlers/storage.js:192-276 and 484-501). Every object listed in the
 * source bucket is stat-ed, downloaded to a cache file, written under the same
 * key into the destination with rewritten metadata, stat-ed there, and only
 * then removed from the source. Some failures reject the merge but let the
 * loop go on; others leave the loop at once. The first rejection is the
 * answer.
 */
module StorageMerge {
  import opened Wrappers
  import opened Text
  import opened Minio
  import opened Storage
  import StorageUpload

  // ---------------------------------------------------------------------
  // Metadata rewrite and provenance
  // ---------------------------------------------------------------------

  /** The name the provenance list is read under, as the store reports it back. */
  const ProvenanceKey := "previoussubjectids"

  /** The name the provenance list is read under in the source. */
  const ProvenanceKeyAsWritten := "previousSubjectIDs"

  /**
   * The provenance list: the prior list read under `readKey` (none when that
   * value is falsy) with the object's subject appended. A truthy value that is
   * not a list has no `push`.
   */
  function ProvenanceFrom(meta: Metadata, readKey: string): (r: Result<seq<MetaValue>, Fault>)
    ensures r.Ok? ==> |r.value| >= 1 && r.value[|r.value| - 1] == Lookup(meta, "subjectid")
    ensures r.Err? <==> Truthy(Lookup(meta, readKey)) && !Lookup(meta, readKey).List?
    ensures r.Ok? && Lookup(meta, readKey).List? ==>
      Lookup(meta, readKey).items <= r.value && |r.value| == |Lookup(meta, readKey).items| + 1
    ensures r.Ok? && !Truthy(Lookup(meta, readKey)) ==> |r.value| == 1
  {
    var prior := Lookup(meta, readKey);
    if !Truthy(prior) then Ok([Lookup(meta, "subjectid")])
    else if prior.List? then Ok(prior.items + [Lookup(meta, "subjectid")])
    else Err(ProvenanceNotList)
  }

  /** The metadata written into the destination. */
  function MergeEntries(meta: Metadata, dst: string, provenance: seq<MetaValue>): seq<(string, MetaValue)>
  {
    [("Content-Type", Lookup(meta, "content-type")), ("SubjectId", Str(dst)), ("previousSubjectIDs", List(provenance))]
  }

  /** As the store keeps it: the content type carried over, the destination as subject, the provenance list. */
  lemma MergeMetaStored(meta: Metadata, dst: string, provenance: seq<MetaValue>)
    ensures var m := StoredMeta(MergeEntries(meta, dst, provenance));
      && Lookup(m, "content-type") == Lookup(meta, "content-type")
      && Lookup(m, "subjectid") == Str(dst)
      && Lookup(m, ProvenanceKey) == List(provenance)
      && m.Keys == {"content-type", "subjectid", ProvenanceKey}
  {
    StoredNames();
    var e := MergeEntries(meta, dst, provenance);
    assert e[..1][..0] == [];
    assert e[..2][..1] == e[..1];
    assert StoredMeta(e[..1]) == map["content-type" := Lookup(meta, "content-type")];
    assert StoredMeta(e[..2]) == StoredMeta(e[..1])["subjectid" := Str(dst)];
    assert StoredMeta(e) == StoredMeta(e[..2])[ProvenanceKey := List(provenance)];
  }

  /** Read under the name the source uses, the provenance of any stored object is just its subject. */
  lemma ProvenanceNeverFoundAsWritten(entries: seq<(string, MetaValue)>)
    ensures var m := StoredMeta(entries);
      ProvenanceFrom(m, ProvenanceKeyAsWritten) == Ok([Lookup(m, "subjectid")])
  {
    assert !IsLower(ProvenanceKeyAsWritten) by {
      assert 'S' == ProvenanceKeyAsWritten[8];
    }
    NotLowerNeverStored(entries, ProvenanceKeyAsWritten);
  }

  /** The metadata an object has after one merge into `dst`, reading provenance under `readKey`. */
  function MergedMeta(meta: Metadata, dst: string, readKey: string): Metadata
    requires ProvenanceFrom(meta, readKey).Ok?
  {
    StoredMeta(MergeEntries(meta, dst, ProvenanceFrom(meta, readKey).value))
  }

  /**
   * Uploaded to A, merged into B, then into C: the provenance names A and B,
   * and the content type survives both moves.
   */
  lemma ProvenanceChain(contentType: MetaValue, a: string, b: string, c: string)
    ensures var m0 := StoredMeta(StorageUpload.UploadEntries(contentType, a));
      ProvenanceFrom(m0, ProvenanceKey).Ok? &&
      var m1 := MergedMeta(m0, b, ProvenanceKey);
      ProvenanceFrom(m1, ProvenanceKey).Ok? &&
      var m2 := MergedMeta(m1, c, ProvenanceKey);
      && Lookup(m2, ProvenanceKey) == List([Str(a), Str(b)])
      && Lookup(m2, "subjectid") == Str(c)
      && Lookup(m2, "content-type") == contentType
  {
    StorageUpload.UploadMetaStored(contentType, a);
    var m0 := StoredMeta(StorageUpload.UploadEntries(contentType, a));
    assert Lookup(m0, ProvenanceKey) == Undefined;
    assert ProvenanceFrom(m0, ProvenanceKey) == Ok([Str(a)]);
    MergeMetaStored(m0, b, [Str(a)]);
    var m1 := MergedMeta(m0, b, ProvenanceKey);
    assert Lookup(m1, ProvenanceKey) == List([Str(a)]);
    assert Lookup(m1, "subjectid") == Str(b);
    assert [Str(a)] + [Str(b)] == [Str(a), Str(b)];
    assert ProvenanceFrom(m1, ProvenanceKey) == Ok([Str(a), Str(b)]);
    MergeMetaStored(m1, c, [Str(a), Str(b)]);
  }

  /**
   * The same two moves as the source reads provenance: the list written by the
   * first merge is never found, so after the second it names only B.
   */
  lemma ProvenanceChainAsWritten(contentType: MetaValue, a: string, b: string, c: string)
    ensures var m0 := StoredMeta(StorageUpload.UploadEntries(contentType, a));
      ProvenanceFrom(m0, ProvenanceKeyAsWritten).Ok? &&
      var m1 := MergedMeta(m0, b, ProvenanceKeyAsWritten);
      ProvenanceFrom(m1, ProvenanceKeyAsWritten).Ok? &&
      var m2 := MergedMeta(m1, c, ProvenanceKeyAsWritten);
      Lookup(m2, ProvenanceKey) == List([Str(b)])
  {
    StorageUpload.UploadMetaStored(contentType, a);
    var m0 := StoredMeta(StorageUpload.UploadEntries(contentType, a));
    ProvenanceNeverFoundAsWritten(StorageUpload.UploadEntries(contentType, a));
    MergeMetaStored(m0, b, [Str(a)]);
    var m1 := MergedMeta(m0, b, ProvenanceKeyAsWritten);
    ProvenanceNeverFoundAsWritten(MergeEntries(m0, b, [Str(a)]));
    MergeMetaStored(m1, c, [Str(b)]);
  }

  // ---------------------------------------------------------------------
  // The loop's state
  // ---------------------------------------------------------------------

  /** One line of the answer, `{status: 'success', fileName, href, previoushref, mimeType}`. */
  datatype MergeRecord = MergeRecord(fileName: string, href: string, previoushref: string, mimeType: MetaValue)

  /**
   * Where cache files go (`cacheDirectory`), whether the platform is Windows,
   * the name the prior provenance list is read under, and whether the download
   * into the cache file is awaited to its end, so that a failed or broken
   * download rejects `getobjectToCache`.
   */
  datatype MergeConfig = MergeConfig(directory: Option<string>, win32: bool, readKey: string, awaitDownload: bool)

  /**
   * The store, the cache files on disk, the records so far, the first
   * rejection, and the error that left the loop.
   */
  datatype Progress = Progress(remote: Remote, files: map<string, Bytes>, records: seq<MergeRecord>,
                               rejected: Option<Fault>, exit: Option<Fault>)

  /** A rejection that lets the loop go on; only the first one is the answer. */
  function Reject(p: Progress, e: Fault): Progress
  {
    if p.rejected.None? then p.(rejected := Some(e)) else p
  }

  /**
   * The handler as written: it reads the prior provenance under
   * `previousSubjectIDs`, and `getobjectToCache` resolves with the path before
   * its download ends (storage.js:145), so a broken download is not noticed.
   */
  function HandlerConfig(cacheDirectory: Option<string>, win32: bool): MergeConfig
  {
    MergeConfig(cacheDirectory, win32, ProvenanceKeyAsWritten, false)
  }

  /** The answer once the loop is over. */
  function Settle(p: Progress): (r: Result<seq<MergeRecord>, Fault>)
    ensures r.Ok? <==> p.rejected.None? && p.exit.None?
  {
    if p.rejected.Some? then Err(p.rejected.value)
    else if p.exit.Some? then Err(p.exit.value)
    else Ok(p.records)
  }

  function RecordFor(urlPart: string, src: string, dst: string, key: string, meta: Metadata): MergeRecord
  {
    MergeRecord(key, urlPart + dst + "/" + key, urlPart + src + "/" + key, Lookup(meta, "content-type"))
  }

  /** The bytes the next get of `key` delivers: all of them, what a broken stream delivered, or none. */
  function Fetched(r: Remote, src: string, key: string): Bytes
  {
    var got := GetCall(r, src, key).0;
    if got.Ok? then Concat(got.value.chunks) else []
  }

  /** The next get of `key` starts a stream that breaks. */
  predicate StreamBreaks(r: Remote, src: string, key: string)
  {
    var got := GetCall(r, src, key).0;
    got.Ok? && got.value.broken
  }

  /**
   * From the download on. As written, the cache file holds whatever the get
   * delivered, a broken stream's prefix included, and a failed get leaves no
   * file; the file is written into the destination and stat-ed there, and only
   * then are the cache file and the source object dropped and the move
   * recorded. With the download awaited, a failed or broken download rejects
   * `getobjectToCache`, and the outer `catch` leaves the loop.
   */
  function Transfer(p: Progress, src: string, dst: string, urlPart: string, key: string, path: string,
                    meta: Metadata, provenance: seq<MetaValue>, awaitDownload: bool): (q: Progress)
    ensures q.records == p.records || q.records == p.records + [RecordFor(urlPart, src, dst, key, meta)]
    ensures q.records != p.records ==> q.exit == p.exit && q.rejected == p.rejected && path !in q.files
    ensures !awaitDownload ==> q.exit == p.exit
  {
    var (got, r4) := GetCall(p.remote, src, key);
    if awaitDownload && (got.Err? || got.value.broken) then
      p.(remote := r4, files := p.files[path := Fetched(p.remote, src, key)],
         exit := Some(if got.Err? then StoreFault(got.error) else StreamFault))
    else
      var files := if got.Ok? then p.files[path := Concat(got.value.chunks)] else p.files - {path};
      if path !in files then Reject(p.(remote := r4, files := files), CacheFileMissing)
      else
        var (put, r5) := PutCall(r4, dst, key, files[path], MergeEntries(meta, dst, provenance));
        if put.Err? then Reject(p.(remote := r5, files := files), StoreFault(put.error))
        else
          var (landed, r6) := StatCall(r5, dst, key);
          if landed.Err? then Reject(p.(remote := r6, files := files), StoreFault(landed.error))
          else
            p.(remote := RemoveCall(r6, src, key), files := files - {path},
               records := p.records + [RecordFor(urlPart, src, dst, key, meta)])
  }

  /** One pass of the loop, for one source key. */
  function MoveKey(p: Progress, src: string, dst: string, urlPart: string, config: MergeConfig, key: string): Progress
  {
    if p.exit.Some? then p
    else
      var (st, r1) := StatCall(p.remote, src, key);
      if st.Err? then p.(remote := r1, exit := Some(StoreFault(st.error)))
      else
        var provenance := ProvenanceFrom(st.value.meta, config.readKey);
        if provenance.Err? then p.(remote := r1, exit := Some(provenance.error))
        else
          var (exists1, r2) := CheckCall(r1, dst);
          if !exists1 then p.(remote := r2, exit := Some(RegionUndefined))
          else
            var (exists2, r3) := CheckCall(r2, dst);
            if !exists2 then Reject(p.(remote := r3), BucketNotCreated)
            else
              var path := CachePath(config.directory, key, config.win32);
              if path.Err? then p.(remote := r3, exit := Some(NoCacheDirectory))
              else Transfer(p.(remote := r3), src, dst, urlPart, key, path.value, st.value.meta, provenance.value,
                            config.awaitDownload)
  }

  function MoveKeys(p: Progress, src: string, dst: string, urlPart: string, config: MergeConfig, keys: seq<string>): Progress
  {
    if |keys| == 0 then p
    else MoveKey(MoveKeys(p, src, dst, urlPart, config, keys[..|keys| - 1]), src, dst, urlPart, config, keys[|keys| - 1])
  }

  /** `mergeBucket(src, dst, urlPart)`: list the source, then move its keys in listing order. */
  function Merged(r: Remote, files: map<string, Bytes>, src: string, dst: string, urlPart: string, config: MergeConfig)
    : (Result<seq<MergeRecord>, Fault>, Progress)
  {
    var (listed, r1) := ListObjectsCall(r, src);
    if listed.Err? then (Err(StoreFault(listed.error)), Progress(r1, files, [], None, Some(StoreFault(listed.error))))
    else
      var p := MoveKeys(Progress(r1, files, [], None, None), src, dst, urlPart, config, listed.value);
      (Settle(p), p)
  }

  /** The route: the admin gate, then the merge; a rejected merge reaches the error handler (500). */
  function MergeRoute(r: Remote, files: map<string, Bytes>, access: Json, adminRole: string, src: string, dst: string,
                      req: RequestInfo, cacheDirectory: Option<string>, win32: bool)
    : (res: (Reply<seq<MergeRecord>>, Remote, map<string, Bytes>))
    ensures GateFor(access, adminRole) == Refuse ==> res == (Unauthorised(VerifyToken.AuthFailedMessage), r, files)
    ensures GateFor(access, adminRole) == Throws ==> res == (ServerError(AccessTypeError), r, files)
  {
    var g := GateFor(access, adminRole);
    if g != Pass then (Refusal(g), r, files)
    else
      var (result, p) := Merged(r, files, src, dst, RetrieveBase(req), HandlerConfig(cacheDirectory, win32));
      (if result.Err? then ServerError(result.error) else Served(result.value), p.remote, p.files)
  }

  // ---------------------------------------------------------------------
  // Properties of one pass
  // ---------------------------------------------------------------------

  /** Once the loop has been left, the remaining keys change nothing. */
  lemma {:induction false} MoveKeysAfterExit(p: Progress, src: string, dst: string, urlPart: string, config: MergeConfig,
                                            keys: seq<string>, i: nat)
    requires i <= |keys|
    requires MoveKeys(p, src, dst, urlPart, config, keys[..i]).exit.Some?
    ensures MoveKeys(p, src, dst, urlPart, config, keys) == MoveKeys(p, src, dst, urlPart, config, keys[..i])
    decreases |keys|
  {
    if i < |keys| {
      assert keys[..|keys| - 1][..i] == keys[..i];
      MoveKeysAfterExit(p, src, dst, urlPart, config, keys[..|keys| - 1], i);
    } else {
      assert keys[..i] == keys;
    }
  }

  /** A rejection or an exit, once recorded, stays. */
  lemma MoveKeyKeepsFailure(p: Progress, src: string, dst: string, urlPart: string, config: MergeConfig, key: string)
    ensures var q := MoveKey(p, src, dst, urlPart, config, key);
      && (p.rejected.Some? ==> q.rejected == p.rejected)
      && (p.exit.Some? ==> q.exit == p.exit)
  {
    if p.exit.None? {
      var (st, r1) := StatCall(p.remote, src, key);
      if st.Ok? && ProvenanceFrom(st.value.meta, config.readKey).Ok? {
        var (e1, r2) := CheckCall(r1, dst);
        var (e2, r3) := CheckCall(r2, dst);
        var path := CachePath(config.directory, key, config.win32);
        if e1 && e2 && path.Ok? {
          TransferKeepsFailure(p.(remote := r3), src, dst, urlPart, key, path.value, st.value.meta,
                               ProvenanceFrom(st.value.meta, config.readKey).value, config.awaitDownload);
        }
      }
    }
  }

  /** As written the download-to-remove tail never leaves the loop; awaited, only a failed download does. */
  lemma TransferKeepsFailure(p: Progress, src: string, dst: string, urlPart: string, key: string, path: string,
                             meta: Metadata, provenance: seq<MetaValue>, awaitDownload: bool)
    ensures var q := Transfer(p, src, dst, urlPart, key, path, meta, provenance, awaitDownload);
      && (p.rejected.Some? ==> q.rejected == p.rejected)
      && (!awaitDownload ==> q.exit == p.exit)
      && (q.exit != p.exit ==>
            awaitDownload && q.exit.Some? && (StreamBreaks(p.remote, src, key) || GetCall(p.remote, src, key).0.Err?))
  {
  }

  /** The destination after the write of `key` with `data` under the new metadata. */
  function Landed(b: Buckets, dst: string, key: string, data: Bytes, entries: seq<(string, MetaValue)>): Buckets
    requires dst in b
  {
    b[dst := b[dst][key := Obj(data, StoredMeta(entries))]]
  }

  /**
   * The download-write-stat-remove tail of a pass either leaves the loop on a
   * failed download (only when downloads are awaited), or rejects, having at
   * most written the destination copy, or completes: the copy is written with
   * what the download delivered, the source object removed and the record
   * appended. The copy is a prefix of the source bytes, and all of them unless
   * the stream broke.
   */
  lemma TransferEffect(p: Progress, src: string, dst: string, urlPart: string, key: string, path: string,
                       meta: Metadata, provenance: seq<MetaValue>, awaitDownload: bool)
    ensures var q := Transfer(p, src, dst, urlPart, key, path, meta, provenance, awaitDownload);
      var b := p.remote.buckets;
      var entries := MergeEntries(meta, dst, provenance);
      var d := Fetched(p.remote, src, key);
      || (&& awaitDownload && q.exit.Some? && q.rejected == p.rejected && q.records == p.records
          && q.remote.buckets == b)
      || (&& q.exit == p.exit && q.records == p.records && q.rejected.Some?
          && (q.remote.buckets == b ||
              (src in b && key in b[src] && dst in b && q.remote.buckets == Landed(b, dst, key, d, entries))))
      || (&& q.exit == p.exit && q.records == p.records + [RecordFor(urlPart, src, dst, key, meta)]
          && q.rejected == p.rejected
          && src in b && key in b[src] && dst in b
          && d <= b[src][key].data
          && (awaitDownload || !StreamBreaks(p.remote, src, key) ==> d == b[src][key].data)
          && var l := Landed(b, dst, key, d, entries);
          q.remote.buckets == l[src := l[src] - {key}])
  {
    var b: Buckets := p.remote.buckets;
    var entries := MergeEntries(meta, dst, provenance);
    var (got, r4) := GetCall(p.remote, src, key);
    var q := Transfer(p, src, dst, urlPart, key, path, meta, provenance, awaitDownload);
    Downloaded(p.remote, src, key);
    if awaitDownload && (got.Err? || got.value.broken) {
      assert q.remote.buckets == b;
    } else {
      var files := if got.Ok? then p.files[path := Concat(got.value.chunks)] else p.files - {path};
      if path !in files {
        assert q == Reject(p.(remote := r4, files := files), CacheFileMissing);
      } else {
        var (put, r5) := PutCall(r4, dst, key, files[path], entries);
        if put.Err? {
          assert q == Reject(p.(remote := r5, files := files), StoreFault(put.error));
          assert r5.buckets == b;
        } else {
          assert dst in b && r5.buckets == Landed(b, dst, key, Fetched(p.remote, src, key), entries);
          var (landed, r6) := StatCall(r5, dst, key);
          assert r6.buckets == r5.buckets;
          if landed.Err? {
            assert q == Reject(p.(remote := r6, files := files), StoreFault(landed.error));
          } else {
            var l := Landed(b, dst, key, Fetched(p.remote, src, key), entries);
            assert q.remote == RemoveCall(r6, src, key);
            assert q.remote.buckets == l[src := l[src] - {key}];
          }
        }
      }
    }
  }

  /**
   * A get changes no bucket; what it delivers is a prefix of the object's
   * bytes, all of them when the stream does not break, and for a non-empty
   * object fewer of them when it does.
   */
  lemma Downloaded(r: Remote, src: string, key: string)
    ensures var (got, r4) := GetCall(r, src, key);
      var b := r.buckets;
      var d := Fetched(r, src, key);
      && r4.buckets == b
      && (got.Ok? ==> src in b && key in b[src] && d == Concat(got.value.chunks) && d <= b[src][key].data)
      && (got.Ok? && !got.value.broken ==> d == b[src][key].data)
      && (got.Ok? && got.value.broken && |b[src][key].data| > 0 ==> |d| < |b[src][key].data|)
  {
    var (got, r4) := GetCall(r, src, key);
    if got.Ok? {
      ConcatChunks(r.buckets[src][key].data, r.chunkSize);
      BrokenOffPrefix(r.buckets[src][key].data, r.chunkSize);
    }
  }

  /**
   * The checks before the download change no bucket and add no record; a pass
   * that gets past them is the transfer, from the object's own metadata.
   */
  lemma MoveKeyReachesTransfer(p: Progress, src: string, dst: string, urlPart: string, config: MergeConfig, key: string)
    requires p.exit.None?
    ensures var q := MoveKey(p, src, dst, urlPart, config, key);
      var (st, r1) := StatCall(p.remote, src, key);
      || (&& q.remote.buckets == p.remote.buckets && q.records == p.records
          && (q.exit.Some? || q.rejected.Some?))
      || (&& st.Ok? && ProvenanceFrom(st.value.meta, config.readKey).Ok?
          && var path := CachePath(config.directory, key, config.win32);
          && path.Ok?
          && src in p.remote.buckets && key in p.remote.buckets[src]
          && st.value.meta == p.remote.buckets[src][key].meta
          && q == Transfer(p.(remote := Tick(Tick(r1))), src, dst, urlPart, key, path.value, st.value.meta,
                           ProvenanceFrom(st.value.meta, config.readKey).value, config.awaitDownload))
  {
    var (st, r1) := StatCall(p.remote, src, key);
    if st.Ok? && ProvenanceFrom(st.value.meta, config.readKey).Ok? {
      var (e1, r2) := CheckCall(r1, dst);
      if e1 {
        var (e2, r3) := CheckCall(r2, dst);
        assert r3 == Tick(Tick(r1));
      }
    }
  }

  /** The download in a pass that starts from `p` breaks. */
  predicate PassBreaks(p: Progress, src: string, key: string)
  {
    StreamBreaks(Tick(Tick(Tick(p.remote))), src, key)
  }

  /** The copy a pass from `p` writes is whole: downloads are awaited, or this one does not break. */
  predicate WholeCopy(p: Progress, src: string, key: string, config: MergeConfig)
  {
    config.awaitDownload || !PassBreaks(p, src, key)
  }

  /** What the download in a pass from `p` delivers. */
  function PassFetched(p: Progress, src: string, key: string): Bytes
  {
    Fetched(Tick(Tick(Tick(p.remote))), src, key)
  }

  /**
   * What one pass may do to the buckets: no bucket appears or disappears, only
   * `key` can change in the destination and only `key` can leave the source,
   * and it leaves the source only once the destination holds a prefix of its
   * bytes, all of them when the copy is `whole`.
   */
  ghost predicate PassFrame(b: Buckets, b': Buckets, src: string, dst: string, key: string, whole: bool)
  {
    && b'.Keys == b.Keys
    && (forall x :: x in b && x != src && x != dst ==> b'[x] == b[x])
    && (src in b ==> b'[src] == b[src] || b'[src] == b[src] - {key})
    && (dst in b ==> forall k :: k != key ==> (k in b'[dst] <==> k in b[dst]) && (k in b[dst] ==> b'[dst][k] == b[dst][k]))
    && (src in b && key in b[src] && key !in b'[src] ==>
          && dst in b' && key in b'[dst] && b'[dst][key].data <= b[src][key].data
          && (whole ==> b'[dst][key].data == b[src][key].data))
  }

  /** The three bucket states a pass can leave keep to the frame. */
  lemma LandedFrame(b: Buckets, src: string, dst: string, key: string, d: Bytes, entries: seq<(string, MetaValue)>, whole: bool)
    requires src != dst && src in b && key in b[src] && dst in b
    ensures PassFrame(b, b, src, dst, key, whole)
    ensures PassFrame(b, Landed(b, dst, key, d, entries), src, dst, key, whole)
    ensures d <= b[src][key].data && (whole ==> d == b[src][key].data) ==>
      var l := Landed(b, dst, key, d, entries); PassFrame(b, l[src := l[src] - {key}], src, dst, key, whole)
  {
  }

  lemma MoveKeyFrame(p: Progress, src: string, dst: string, urlPart: string, config: MergeConfig, key: string)
    requires src != dst
    ensures PassFrame(p.remote.buckets, MoveKey(p, src, dst, urlPart, config, key).remote.buckets, src, dst, key,
                      WholeCopy(p, src, key, config))
  {
    var b := p.remote.buckets;
    var whole := WholeCopy(p, src, key, config);
    if p.exit.None? {
      MoveKeyReachesTransfer(p, src, dst, urlPart, config, key);
      var (st, r1) := StatCall(p.remote, src, key);
      var path := CachePath(config.directory, key, config.win32);
      if st.Ok? && ProvenanceFrom(st.value.meta, config.readKey).Ok? && path.Ok? && src in b && key in b[src] {
        var provenance := ProvenanceFrom(st.value.meta, config.readKey).value;
        assert Tick(Tick(r1)) == Tick(Tick(Tick(p.remote)));
        TransferEffect(p.(remote := Tick(Tick(r1))), src, dst, urlPart, key, path.value, st.value.meta, provenance,
                       config.awaitDownload);
        if dst in b {
          LandedFrame(b, src, dst, key, PassFetched(p, src, key), MergeEntries(st.value.meta, dst, provenance), whole);
        }
      }
    }
  }

  /** The object a merge writes for `o`, with the bytes its download delivered. */
  function Moved(o: Obj, data: Bytes, dst: string, readKey: string): Obj
    requires ProvenanceFrom(o.meta, readKey).Ok?
  {
    Obj(data, MergedMeta(o.meta, dst, readKey))
  }

  /**
   * A pass that neither rejects nor leaves the loop has moved the object: the
   * destination holds it under the same key with rewritten metadata and what
   * the download delivered (a prefix of its bytes, all of them when the copy
   * is whole), the source no longer has it, and its record is appended.
   */
  lemma MoveKeyClean(p: Progress, src: string, dst: string, urlPart: string, config: MergeConfig, key: string)
    requires p.exit.None? && p.rejected.None?
    requires src != dst
    requires src in p.remote.buckets && key in p.remote.buckets[src]
    requires var q := MoveKey(p, src, dst, urlPart, config, key); q.exit.None? && q.rejected.None?
    ensures var b := p.remote.buckets;
      var o := b[src][key];
      var q := MoveKey(p, src, dst, urlPart, config, key);
      var d := PassFetched(p, src, key);
      && ProvenanceFrom(o.meta, config.readKey).Ok?
      && dst in b
      && d <= o.data
      && (WholeCopy(p, src, key, config) ==> d == o.data)
      && q.remote.buckets == b[dst := b[dst][key := Moved(o, d, dst, config.readKey)]][src := b[src] - {key}]
      && q.records == p.records + [RecordFor(urlPart, src, dst, key, o.meta)]
  {
    MoveKeyReachesTransfer(p, src, dst, urlPart, config, key);
    var (st, r1) := StatCall(p.remote, src, key);
    assert Tick(Tick(r1)) == Tick(Tick(Tick(p.remote)));
    TransferEffect(p.(remote := Tick(Tick(r1))), src, dst, urlPart, key, CachePath(config.directory, key, config.win32).value,
                   st.value.meta, ProvenanceFrom(st.value.meta, config.readKey).value, config.awaitDownload);
  }

  /**
   * As written, a pass whose download stream breaks still completes: every
   * other call succeeds, the source object is removed, and the destination
   * keeps a copy shorter than the original.
   */
  lemma BrokenStreamTruncates(p: Progress, src: string, dst: string, urlPart: string, config: MergeConfig, key: string)
    requires !config.awaitDownload
    requires p.exit.None? && src != dst
    requires src in p.remote.buckets && key in p.remote.buckets[src] && dst in p.remote.buckets
    requires |p.remote.buckets[src][key].data| > 0
    requires ProvenanceFrom(p.remote.buckets[src][key].meta, config.readKey).Ok?
    requires CachePath(config.directory, key, config.win32).Ok?
    requires p.remote.faults == [false, false, false, false, true]
    ensures var q := MoveKey(p, src, dst, urlPart, config, key);
      && q.exit.None? && q.rejected == p.rejected
      && key !in q.remote.buckets[src]
      && key in q.remote.buckets[dst]
      && |q.remote.buckets[dst][key].data| < |p.remote.buckets[src][key].data|
  {
    var b: Buckets := p.remote.buckets;
    var st, r1 := StatCall(p.remote, src, key).0, StatCall(p.remote, src, key).1;
    assert st.Ok? && st.value.meta == b[src][key].meta && r1.faults == [false, false, false, true];
    var e1, r2 := CheckCall(r1, dst).0, CheckCall(r1, dst).1;
    assert e1 && r2.faults == [false, false, true];
    var e2, r3 := CheckCall(r2, dst).0, CheckCall(r2, dst).1;
    assert e2 && r3.faults == [false, true] && r3.buckets == b;
    var path := CachePath(config.directory, key, config.win32).value;
    var provenance := ProvenanceFrom(st.value.meta, config.readKey).value;
    var q := MoveKey(p, src, dst, urlPart, config, key);
    assert q == Transfer(p.(remote := r3), src, dst, urlPart, key, path, st.value.meta, provenance, false);
    var got, r4 := GetCall(r3, src, key).0, GetCall(r3, src, key).1;
    assert got.Ok? && got.value.broken && r4.faults == [];
    Downloaded(r3, src, key);
    var d := Fetched(r3, src, key);
    var entries := MergeEntries(st.value.meta, dst, provenance);
    var put, r5 := PutCall(r4, dst, key, d, entries).0, PutCall(r4, dst, key, d, entries).1;
    assert put.Ok? && r5.buckets == Landed(b, dst, key, d, entries);
    var l := Landed(b, dst, key, d, entries);
    assert q.remote.buckets == l[src := l[src] - {key}];
  }

  /** Merging a bucket into itself: a pass that succeeds deletes the object it was meant to keep. */
  lemma MergeIntoItselfDeletes(p: Progress, src: string, urlPart: string, config: MergeConfig, key: string)
    requires p.exit.None? && p.rejected.None?
    requires src in p.remote.buckets && key in p.remote.buckets[src]
    requires var q := MoveKey(p, src, src, urlPart, config, key); q.exit.None? && q.rejected.None?
    ensures var q := MoveKey(p, src, src, urlPart, config, key);
      && |q.records| == |p.records| + 1
      && src in q.remote.buckets && key !in q.remote.buckets[src]
  {
    MoveKeyReachesTransfer(p, src, src, urlPart, config, key);
    var (st, r1) := StatCall(p.remote, src, key);
    TransferEffect(p.(remote := Tick(Tick(r1))), src, src, urlPart, key, CachePath(config.directory, key, config.win32).value,
                   st.value.meta, ProvenanceFrom(st.value.meta, config.readKey).value, config.awaitDownload);
  }

  // ---------------------------------------------------------------------
  // Properties of the whole merge
  // ---------------------------------------------------------------------

  /** Every copy a run of passes over `keys` writes is whole. */
  predicate WholeCopies(p: Progress, src: string, dst: string, urlPart: string, config: MergeConfig, keys: seq<string>)
    decreases |keys|
  {
    |keys| == 0 ||
    (&& WholeCopies(p, src, dst, urlPart, config, keys[..|keys| - 1])
     && WholeCopy(MoveKeys(p, src, dst, urlPart, config, keys[..|keys| - 1]), src, keys[|keys| - 1], config))
  }

  /** Every copy the merge writes is whole. */
  predicate MergeWhole(r: Remote, files: map<string, Bytes>, src: string, dst: string, urlPart: string, config: MergeConfig)
  {
    var (listed, r1) := ListObjectsCall(r, src);
    listed.Ok? ==> WholeCopies(Progress(r1, files, [], None, None), src, dst, urlPart, config, listed.value)
  }

  /** With the download awaited, every copy is whole. */
  lemma {:induction false} AwaitedCopiesWhole(p: Progress, src: string, dst: string, urlPart: string, config: MergeConfig,
                                             keys: seq<string>)
    requires config.awaitDownload
    ensures WholeCopies(p, src, dst, urlPart, config, keys)
    decreases |keys|
  {
    if |keys| > 0 {
      AwaitedCopiesWhole(p, src, dst, urlPart, config, keys[..|keys| - 1]);
    }
  }

  /**
   * The source objects are either still in place or a prefix of their bytes
   * is in the destination, all of them when the copies are `whole`.
   */
  predicate NothingLost(b0: Buckets, b: Buckets, src: string, dst: string, done: seq<string>, whole: bool)
    requires src in b0 && src in b && dst in b
  {
    forall k :: k in b0[src] ==>
      && (k !in done ==> k in b[src] && b[src][k] == b0[src][k])
      && ((k in b[src] && b[src][k] == b0[src][k]) ||
          (k in b[dst] && b[dst][k].data <= b0[src][k].data && (whole ==> b[dst][k].data == b0[src][k].data)))
  }

  lemma {:induction false} NothingLostInvariant(p: Progress, src: string, dst: string, urlPart: string, config: MergeConfig,
                                               keys: seq<string>)
    requires src != dst
    requires src in p.remote.buckets && dst in p.remote.buckets
    requires forall i, j :: 0 <= i < j < |keys| ==> keys[i] != keys[j]
    ensures var b := MoveKeys(p, src, dst, urlPart, config, keys).remote.buckets;
      && b.Keys == p.remote.buckets.Keys
      && (forall x :: x in b && x != src && x != dst ==> b[x] == p.remote.buckets[x])
      && NothingLost(p.remote.buckets, b, src, dst, keys, WholeCopies(p, src, dst, urlPart, config, keys))
    decreases |keys|
  {
    if |keys| > 0 {
      var init := keys[..|keys| - 1];
      var key := keys[|keys| - 1];
      NothingLostInvariant(p, src, dst, urlPart, config, init);
      var q := MoveKeys(p, src, dst, urlPart, config, init);
      MoveKeyFrame(q, src, dst, urlPart, config, key);
      assert key !in init;
    }
  }

  /**
   * Whatever fails along the way, a merge of two different buckets loses no
   * source object entirely: each is still in the source unchanged, or a prefix
   * of its bytes is in the destination under the same key, all of them when
   * no copy was cut short. No other bucket is touched.
   */
  lemma MergeLosesNothing(r: Remote, files: map<string, Bytes>, src: string, dst: string, urlPart: string, config: MergeConfig)
    requires src != dst
    requires src in r.buckets && dst in r.buckets
    ensures var b := Merged(r, files, src, dst, urlPart, config).1.remote.buckets;
      && b.Keys == r.buckets.Keys
      && (forall x :: x in b && x != src && x != dst ==> b[x] == r.buckets[x])
      && (forall k :: k in r.buckets[src] ==>
            || (k in b[src] && b[src][k] == r.buckets[src][k])
            || (&& k in b[dst] && b[dst][k].data <= r.buckets[src][k].data
                && (MergeWhole(r, files, src, dst, urlPart, config) ==> b[dst][k].data == r.buckets[src][k].data)))
  {
    var (listed, r1) := ListObjectsCall(r, src);
    if listed.Ok? {
      NothingLostInvariant(Progress(r1, files, [], None, None), src, dst, urlPart, config, listed.value);
    }
  }

  /** With the download awaited, a merge loses no byte of any source object, whatever fails. */
  lemma AwaitedMergeLosesNothing(r: Remote, files: map<string, Bytes>, src: string, dst: string, urlPart: string,
                                 config: MergeConfig)
    requires config.awaitDownload
    requires src != dst
    requires src in r.buckets && dst in r.buckets
    ensures var b := Merged(r, files, src, dst, urlPart, config).1.remote.buckets;
      && src in b && dst in b
      && forall k :: k in r.buckets[src] ==>
        (k in b[src] && b[src][k] == r.buckets[src][k]) || (k in b[dst] && b[dst][k].data == r.buckets[src][k].data)
  {
    MergeLosesNothing(r, files, src, dst, urlPart, config);
    var (listed, r1) := ListObjectsCall(r, src);
    if listed.Ok? {
      AwaitedCopiesWhole(Progress(r1, files, [], None, None), src, dst, urlPart, config, listed.value);
    }
  }

  /** No bucket appears or disappears, and the buckets other than `src` and `dst` are as they were. */
  predicate OthersKept(b0: Buckets, b: Buckets, src: string, dst: string)
  {
    b.Keys == b0.Keys && forall x :: x in b0 && x != src && x != dst ==> b[x] == b0[x]
  }

  /** The source has lost exactly the keys in `done`. */
  predicate SourceMoved(b0: Buckets, b: Buckets, src: string, done: seq<string>)
    requires src in b0 && src in b
  {
    && (forall k :: k in b0[src] && k !in done ==> k in b[src] && b[src][k] == b0[src][k])
    && (forall k :: k in b[src] ==> k in b0[src] && k !in done)
  }

  /**
   * The destination holds the moved copies of the keys in `done`, each with a
   * prefix of the source bytes (all of them when `whole`), and otherwise what
   * it held.
   */
  predicate DestinationMoved(b0: Buckets, b: Buckets, src: string, dst: string, done: seq<string>, readKey: string, whole: bool)
    requires src in b0 && dst in b0 && dst in b
  {
    && (forall k :: k in done ==>
          && k in b0[src] && ProvenanceFrom(b0[src][k].meta, readKey).Ok?
          && k in b[dst] && b[dst][k].meta == MergedMeta(b0[src][k].meta, dst, readKey)
          && b[dst][k].data <= b0[src][k].data
          && (whole ==> b[dst][k].data == b0[src][k].data))
    && (forall k :: k in b0[dst] && k !in done ==> k in b[dst] && b[dst][k] == b0[dst][k])
    && (forall k :: k in b[dst] ==> k in done || k in b0[dst])
  }

  /** The buckets after moving `done` without a failure. */
  predicate MovedAll(b0: Buckets, b: Buckets, src: string, dst: string, done: seq<string>, readKey: string, whole: bool)
  {
    && src in b0
    && OthersKept(b0, b, src, dst)
    && SourceMoved(b0, b, src, done)
    && (|done| > 0 ==> dst in b0)
    && (dst in b0 ==> DestinationMoved(b0, b, src, dst, done, readKey, whole))
  }

  /** Moving one more key, not moved before, keeps the picture of what has been moved. */
  lemma MovedAllStep(b0: Buckets, b: Buckets, src: string, dst: string, done: seq<string>, key: string, readKey: string,
                     d: Bytes, whole: bool, whole': bool)
    requires src != dst
    requires MovedAll(b0, b, src, dst, done, readKey, whole)
    requires key in b0[src] && key !in done
    requires ProvenanceFrom(b0[src][key].meta, readKey).Ok?
    requires dst in b
    requires d <= b0[src][key].data
    requires whole' ==> whole && d == b0[src][key].data
    ensures key in b[src]
    ensures var b' := b[dst := b[dst][key := Moved(b0[src][key], d, dst, readKey)]][src := b[src] - {key}];
      MovedAll(b0, b', src, dst, done + [key], readKey, whole')
  {
    var b' := b[dst := b[dst][key := Moved(b0[src][key], d, dst, readKey)]][src := b[src] - {key}];
    var done' := done + [key];
    assert forall k :: k in done' <==> k in done || k == key;
    assert OthersKept(b0, b', src, dst);
    assert SourceMoved(b0, b', src, done') by {
      forall k | k in b0[src] && k !in done'
        ensures k in b'[src] && b'[src][k] == b0[src][k]
      {
      }
    }
    assert DestinationMoved(b0, b', src, dst, done', readKey, whole') by {
      forall k | k in done'
        ensures k in b0[src] && ProvenanceFrom(b0[src][k].meta, readKey).Ok?
        ensures k in b'[dst] && b'[dst][k].meta == MergedMeta(b0[src][k].meta, dst, readKey)
        ensures b'[dst][k].data <= b0[src][k].data
        ensures whole' ==> b'[dst][k].data == b0[src][k].data
      {
      }
      forall k | k in b0[dst] && k !in done'
        ensures k in b'[dst] && b'[dst][k] == b0[dst][k]
      {
      }
    }
  }

  /** One clean pass over a key not moved before extends the picture of what has been moved. */
  lemma MovedAllPass(b0: Buckets, q: Progress, src: string, dst: string, urlPart: string, config: MergeConfig,
                     done: seq<string>, key: string, whole: bool)
    requires src != dst
    requires q.exit.None? && q.rejected.None?
    requires MovedAll(b0, q.remote.buckets, src, dst, done, config.readKey, whole)
    requires key in b0[src] && key !in done
    requires var q' := MoveKey(q, src, dst, urlPart, config, key); q'.exit.None? && q'.rejected.None?
    ensures MovedAll(b0, MoveKey(q, src, dst, urlPart, config, key).remote.buckets, src, dst, done + [key], config.readKey,
                     whole && WholeCopy(q, src, key, config))
  {
    MoveKeyClean(q, src, dst, urlPart, config, key);
    MovedAllStep(b0, q.remote.buckets, src, dst, done, key, config.readKey, PassFetched(q, src, key),
                 whole, whole && WholeCopy(q, src, key, config));
  }

  /** A run of passes that ends clean was clean before its last pass. */
  lemma CleanBeforeLast(p: Progress, src: string, dst: string, urlPart: string, config: MergeConfig,
                        init: seq<string>, key: string)
    requires var q := MoveKeys(p, src, dst, urlPart, config, init + [key]); q.exit.None? && q.rejected.None?
    ensures var q := MoveKeys(p, src, dst, urlPart, config, init); q.exit.None? && q.rejected.None?
    ensures MoveKeys(p, src, dst, urlPart, config, init + [key])
      == MoveKey(MoveKeys(p, src, dst, urlPart, config, init), src, dst, urlPart, config, key)
  {
    assert (init + [key])[..|init|] == init;
    MoveKeyKeepsFailure(MoveKeys(p, src, dst, urlPart, config, init), src, dst, urlPart, config, key);
  }

  /** Splitting off the last of distinct keys that all lie in `b`. */
  lemma DistinctSnoc(keys: seq<string>, b: map<string, Obj>)
    requires |keys| > 0
    requires forall i :: 0 <= i < |keys| ==> keys[i] in b
    requires forall i, j :: 0 <= i < j < |keys| ==> keys[i] != keys[j]
    ensures var init := keys[..|keys| - 1];
      var key := keys[|keys| - 1];
      && keys == init + [key]
      && key in b && key !in init
      && (forall i :: 0 <= i < |init| ==> init[i] in b)
      && (forall i, j :: 0 <= i < j < |init| ==> init[i] != init[j])
  {
    var init := keys[..|keys| - 1];
    assert forall i :: 0 <= i < |init| ==> init[i] == keys[i];
  }

  /** The moved-objects picture after one more clean pass. */
  lemma MovedAllSnoc(p: Progress, src: string, dst: string, urlPart: string, config: MergeConfig,
                     init: seq<string>, key: string)
    requires src != dst
    requires src in p.remote.buckets && key in p.remote.buckets[src] && key !in init
    requires var q := MoveKeys(p, src, dst, urlPart, config, init + [key]); q.exit.None? && q.rejected.None?
    requires MovedAll(p.remote.buckets, MoveKeys(p, src, dst, urlPart, config, init).remote.buckets, src, dst, init,
                      config.readKey, WholeCopies(p, src, dst, urlPart, config, init))
    ensures MovedAll(p.remote.buckets, MoveKeys(p, src, dst, urlPart, config, init + [key]).remote.buckets, src, dst, init + [key],
                     config.readKey, WholeCopies(p, src, dst, urlPart, config, init + [key]))
  {
    CleanBeforeLast(p, src, dst, urlPart, config, init, key);
    assert (init + [key])[..|init|] == init;
    MovedAllPass(p.remote.buckets, MoveKeys(p, src, dst, urlPart, config, init), src, dst, urlPart, config, init, key,
                 WholeCopies(p, src, dst, urlPart, config, init));
  }

  lemma {:induction false} MovedAllInvariant(p: Progress, src: string, dst: string, urlPart: string, config: MergeConfig,
                                            keys: seq<string>)
    requires src != dst
    requires src in p.remote.buckets
    requires forall i :: 0 <= i < |keys| ==> keys[i] in p.remote.buckets[src]
    requires forall i, j :: 0 <= i < j < |keys| ==> keys[i] != keys[j]
    requires var q := MoveKeys(p, src, dst, urlPart, config, keys); q.exit.None? && q.rejected.None?
    ensures MovedAll(p.remote.buckets, MoveKeys(p, src, dst, urlPart, config, keys).remote.buckets, src, dst, keys,
                     config.readKey, WholeCopies(p, src, dst, urlPart, config, keys))
    decreases |keys|
  {
    if |keys| == 0 {
      assert MovedAll(p.remote.buckets, p.remote.buckets, src, dst, keys, config.readKey, true);
    } else {
      var init := keys[..|keys| - 1];
      var key := keys[|keys| - 1];
      DistinctSnoc(keys, p.remote.buckets[src]);
      CleanBeforeLast(p, src, dst, urlPart, config, init, key);
      MovedAllInvariant(p, src, dst, urlPart, config, init);
      MovedAllSnoc(p, src, dst, urlPart, config, init, key);
    }
  }

  /** One more clean pass appends the record of its key. */
  lemma RecordsSnoc(p: Progress, src: string, dst: string, urlPart: string, config: MergeConfig,
                    init: seq<string>, key: string)
    requires src != dst
    requires src in p.remote.buckets && key in p.remote.buckets[src] && key !in init
    requires var q := MoveKeys(p, src, dst, urlPart, config, init + [key]); q.exit.None? && q.rejected.None?
    requires MovedAll(p.remote.buckets, MoveKeys(p, src, dst, urlPart, config, init).remote.buckets, src, dst, init,
                      config.readKey, WholeCopies(p, src, dst, urlPart, config, init))
    ensures MoveKeys(p, src, dst, urlPart, config, init + [key]).records
      == MoveKeys(p, src, dst, urlPart, config, init).records + [RecordFor(urlPart, src, dst, key, p.remote.buckets[src][key].meta)]
  {
    CleanBeforeLast(p, src, dst, urlPart, config, init, key);
    var q := MoveKeys(p, src, dst, urlPart, config, init);
    assert key in q.remote.buckets[src] && q.remote.buckets[src][key] == p.remote.buckets[src][key];
    MoveKeyClean(q, src, dst, urlPart, config, key);
  }

  /** The records of a run of clean passes: the earlier ones kept, one per key in order. */
  lemma {:induction false} RecordsInvariant(p: Progress, src: string, dst: string, urlPart: string, config: MergeConfig,
                                           keys: seq<string>)
    requires src != dst
    requires src in p.remote.buckets
    requires forall i :: 0 <= i < |keys| ==> keys[i] in p.remote.buckets[src]
    requires forall i, j :: 0 <= i < j < |keys| ==> keys[i] != keys[j]
    requires var q := MoveKeys(p, src, dst, urlPart, config, keys); q.exit.None? && q.rejected.None?
    ensures var q := MoveKeys(p, src, dst, urlPart, config, keys);
      && |q.records| == |p.records| + |keys|
      && q.records[..|p.records|] == p.records
      && (forall i :: 0 <= i < |keys| ==>
            q.records[|p.records| + i] == RecordFor(urlPart, src, dst, keys[i], p.remote.buckets[src][keys[i]].meta))
    decreases |keys|
  {
    if |keys| > 0 {
      var init := keys[..|keys| - 1];
      var key := keys[|keys| - 1];
      DistinctSnoc(keys, p.remote.buckets[src]);
      CleanBeforeLast(p, src, dst, urlPart, config, init, key);
      RecordsInvariant(p, src, dst, urlPart, config, init);
      var before := MoveKeys(p, src, dst, urlPart, config, init).records;
      var after := MoveKeys(p, src, dst, urlPart, config, keys).records;
      assert after == before + [RecordFor(urlPart, src, dst, key, p.remote.buckets[src][key].meta)] by {
        MovedAllInvariant(p, src, dst, urlPart, config, init);
        RecordsSnoc(p, src, dst, urlPart, config, init, key);
      }
      forall i | 0 <= i < |keys|
        ensures after[|p.records| + i] == RecordFor(urlPart, src, dst, keys[i], p.remote.buckets[src][keys[i]].meta)
      {
        if i < |init| {
          assert keys[i] == init[i];
        }
      }
    }
  }

  /** When every source key has been moved, the source is empty and the destination holds them all. */
  lemma MovedAllKeys(b0: Buckets, b: Buckets, src: string, dst: string, keys: seq<string>, readKey: string, whole: bool)
    requires MovedAll(b0, b, src, dst, keys, readKey, whole)
    requires forall k :: k in b0[src] ==> k in keys
    ensures src in b && b[src] == map[]
    ensures |keys| > 0 ==> dst in b && forall k :: k in b0[src] ==>
      var o := b0[src][k];
      && ProvenanceFrom(o.meta, readKey).Ok?
      && k in b[dst] && b[dst][k].meta == MergedMeta(o.meta, dst, readKey)
      && b[dst][k].data <= o.data && (whole ==> b[dst][k].data == o.data)
  {
    assert b[src].Keys == {};
  }

  /** A successful merge is the run of clean passes over the ascending listing of the source. */
  lemma MergedRun(r: Remote, files: map<string, Bytes>, src: string, dst: string, urlPart: string, config: MergeConfig)
    requires Merged(r, files, src, dst, urlPart, config).0.Ok?
    ensures src in r.buckets
    ensures ListObjectsCall(r, src) == (Ok(Ascending(r.buckets[src].Keys)), Tick(r))
    ensures var keys := Ascending(r.buckets[src].Keys);
      var q := MoveKeys(Progress(Tick(r), files, [], None, None), src, dst, urlPart, config, keys);
      && q.exit.None? && q.rejected.None?
      && Merged(r, files, src, dst, urlPart, config) == (Ok(q.records), q)
  {
  }

  /**
   * A merge that answers success has moved every source object: one record per
   * listed key in ascending order with the hrefs built from `urlPart`; in the
   * destination each object sits under its key with its content type, the
   * destination as subject, its provenance extended and a prefix of its bytes,
   * all of them when no copy was cut short; the source keeps none of them; and
   * no other bucket changed.
   */
  lemma MergeMovesEverything(r: Remote, files: map<string, Bytes>, src: string, dst: string, urlPart: string, config: MergeConfig)
    requires src != dst
    requires Merged(r, files, src, dst, urlPart, config).0.Ok?
    ensures var (result, p) := Merged(r, files, src, dst, urlPart, config);
      var b := p.remote.buckets;
      && src in r.buckets
      && var keys := Ascending(r.buckets[src].Keys);
      && |result.value| == |keys|
      && (forall i :: 0 <= i < |keys| ==> result.value[i] == RecordFor(urlPart, src, dst, keys[i], r.buckets[src][keys[i]].meta))
      && b.Keys == r.buckets.Keys
      && (forall x :: x in r.buckets && x != src && x != dst ==> b[x] == r.buckets[x])
      && b[src] == map[]
      && (|keys| > 0 ==> dst in b && forall k :: k in r.buckets[src] ==>
            var o := r.buckets[src][k];
            && ProvenanceFrom(o.meta, config.readKey).Ok?
            && k in b[dst] && b[dst][k].meta == MergedMeta(o.meta, dst, config.readKey)
            && b[dst][k].data <= o.data
            && (MergeWhole(r, files, src, dst, urlPart, config) ==> b[dst][k].data == o.data))
  {
    MergedRun(r, files, src, dst, urlPart, config);
    MovesEverything(r.buckets, Progress(Tick(r), files, [], None, None), src, dst, urlPart, config);
  }

  /** The loop's half of `MergeMovesEverything`, over the listed keys. */
  lemma MovesEverything(b0: Buckets, p0: Progress, src: string, dst: string, urlPart: string, config: MergeConfig)
    requires src != dst && src in b0
    requires p0.remote.buckets == b0 && p0.records == [] && p0.exit.None? && p0.rejected.None?
    requires var q := MoveKeys(p0, src, dst, urlPart, config, Ascending(b0[src].Keys)); q.exit.None? && q.rejected.None?
    ensures var keys := Ascending(b0[src].Keys);
      var q := MoveKeys(p0, src, dst, urlPart, config, keys);
      var b := q.remote.buckets;
      && |q.records| == |keys|
      && (forall i :: 0 <= i < |keys| ==> q.records[i] == RecordFor(urlPart, src, dst, keys[i], b0[src][keys[i]].meta))
      && b.Keys == b0.Keys
      && (forall x :: x in b0 && x != src && x != dst ==> b[x] == b0[x])
      && b[src] == map[]
      && (|keys| > 0 ==> dst in b && forall k :: k in b0[src] ==>
            var o := b0[src][k];
            && ProvenanceFrom(o.meta, config.readKey).Ok?
            && k in b[dst] && b[dst][k].meta == MergedMeta(o.meta, dst, config.readKey)
            && b[dst][k].data <= o.data
            && (WholeCopies(p0, src, dst, urlPart, config, keys) ==> b[dst][k].data == o.data))
  {
    var keys := Ascending(b0[src].Keys);
    var q := MoveKeys(p0, src, dst, urlPart, config, keys);
    RecordsInvariant(p0, src, dst, urlPart, config, keys);
    forall i | 0 <= i < |keys|
      ensures q.records[i] == RecordFor(urlPart, src, dst, keys[i], b0[src][keys[i]].meta)
    {
      assert q.records[|p0.records| + i] == q.records[i];
    }
    MovedAllInvariant(p0, src, dst, urlPart, config, keys);
    MovedAllKeys(b0, q.remote.buckets, src, dst, keys, config.readKey, WholeCopies(p0, src, dst, urlPart, config, keys));
  }

  /**
   * Into a destination that does not exist, the merge of a non-empty source is
   * rejected with the undefined `region` before anything is written.
   */
  lemma MergeIntoMissingBucket(r: Remote, files: map<string, Bytes>, src: string, dst: string, urlPart: string, config: MergeConfig)
    requires src in r.buckets && |r.buckets[src]| > 0 && dst !in r.buckets
    requires Quiet(r.faults, 3)
    requires forall k :: k in r.buckets[src] ==> ProvenanceFrom(r.buckets[src][k].meta, config.readKey).Ok?
    ensures var (result, p) := Merged(r, files, src, dst, urlPart, config);
      result == Err(RegionUndefined) && p.remote.buckets == r.buckets && p.files == files && p.records == []
  {
    QuietLater(r.faults, 2);
    var (listed, r1) := ListObjectsCall(r, src);
    var keys := listed.value;
    assert |r.buckets[src].Keys| == |r.buckets[src]|;
    var p0 := Progress(r1, files, [], None, None);
    var q := MoveKeys(p0, src, dst, urlPart, config, keys);
    assert q.exit == Some(RegionUndefined) && q.rejected.None?
        && q.remote.buckets == r.buckets && q.files == files && q.records == [] by {
      MoveKeyWithoutDestination(p0, src, dst, urlPart, config, keys[0]);
      MoveKeysNext(p0, src, dst, urlPart, config, keys, 0);
      assert keys[..0] == [];
      MoveKeysAfterExit(p0, src, dst, urlPart, config, keys, 1);
    }
  }

  /** A pass over an existing key into a missing destination leaves the loop with nothing changed. */
  lemma MoveKeyWithoutDestination(p: Progress, src: string, dst: string, urlPart: string, config: MergeConfig, key: string)
    requires p.exit.None? && Quiet(p.remote.faults, 2)
    requires src in p.remote.buckets && key in p.remote.buckets[src] && dst !in p.remote.buckets
    requires ProvenanceFrom(p.remote.buckets[src][key].meta, config.readKey).Ok?
    ensures var q := MoveKey(p, src, dst, urlPart, config, key);
      && q.exit == Some(RegionUndefined)
      && q.remote.buckets == p.remote.buckets && q.files == p.files && q.records == p.records && q.rejected == p.rejected
  {
    QuietLater(p.remote.faults, 1);
  }

  // ---------------------------------------------------------------------
  // The handler
  // ---------------------------------------------------------------------

  /** The local file system the cache files live in. */
  class CacheDisk {
    var files: map<string, Bytes>

    constructor (files: map<string, Bytes>)
      ensures this.files == files
    {
      this.files := files;
    }

    /**
     * Fill `path` with the bytes the download delivered (a prefix of the
     * object when its stream broke), or leave no file there.
     */
    method Store(path: string, download: Option<Bytes>)
      modifies this
      ensures files == if download.Some? then old(files)[path := download.value] else old(files) - {path}
    {
      if download.Some? {
        files := files[path := download.value];
      } else {
        files := files - {path};
      }
    }

    method Unlink(path: string)
      modifies this
      ensures files == old(files) - {path}
    {
      files := files - {path};
    }
  }

  method TransferKey(store: ObjectStore, disk: CacheDisk, src: string, dst: string, urlPart: string, key: string, path: string,
                     meta: Metadata, provenance: seq<MetaValue>, awaitDownload: bool,
                     records: seq<MergeRecord>, rejected: Option<Fault>)
    returns (records': seq<MergeRecord>, rejected': Option<Fault>, exit: Option<Fault>)
    modifies store, disk
    ensures Progress(store.Value(), disk.files, records', rejected', exit)
      == Transfer(Progress(old(store.Value()), old(disk.files), records, rejected, None), src, dst, urlPart, key, path, meta,
                  provenance, awaitDownload)
  {
    records', rejected', exit := records, rejected, None;
    var got := store.GetObject(src, key);
    if awaitDownload && (got.Err? || got.value.broken) {
      if got.Ok? {
        var body := GatherChunks(got.value.chunks);
        disk.Store(path, Some(body));
        exit := Some(StreamFault);
      } else {
        disk.Store(path, Some([]));
        exit := Some(StoreFault(got.error));
      }
      return;
    }
    if got.Ok? {
      var body := GatherChunks(got.value.chunks);
      disk.Store(path, Some(body));
    } else {
      disk.Store(path, None);
    }
    if path !in disk.files {
      if rejected'.None? { rejected' := Some(CacheFileMissing); }
      return;
    }
    var put := store.PutObject(dst, key, disk.files[path], MergeEntries(meta, dst, provenance));
    if put.Err? {
      if rejected'.None? { rejected' := Some(StoreFault(put.error)); }
      return;
    }
    var landed := store.StatObject(dst, key);
    if landed.Err? {
      if rejected'.None? { rejected' := Some(StoreFault(landed.error)); }
      return;
    }
    disk.Unlink(path);
    store.RemoveObject(src, key);
    records' := records' + [RecordFor(urlPart, src, dst, key, meta)];
  }

  method MigrateKey(store: ObjectStore, disk: CacheDisk, src: string, dst: string, urlPart: string, config: MergeConfig,
                    key: string, records: seq<MergeRecord>, rejected: Option<Fault>)
    returns (records': seq<MergeRecord>, rejected': Option<Fault>, exit: Option<Fault>)
    modifies store, disk
    ensures Progress(store.Value(), disk.files, records', rejected', exit)
      == MoveKey(Progress(old(store.Value()), old(disk.files), records, rejected, None), src, dst, urlPart, config, key)
  {
    records', rejected', exit := records, rejected, None;
    var st := store.StatObject(src, key);
    if st.Err? {
      exit := Some(StoreFault(st.error));
      return;
    }
    var provenance := ProvenanceFrom(st.value.meta, config.readKey);
    if provenance.Err? {
      exit := Some(provenance.error);
      return;
    }
    var found := CheckBucketExists(store, dst);
    if !found {
      exit := Some(RegionUndefined);
      return;
    }
    found := CheckBucketExists(store, dst);
    if !found {
      if rejected'.None? { rejected' := Some(BucketNotCreated); }
      return;
    }
    var path := CachePath(config.directory, key, config.win32);
    if path.Err? {
      exit := Some(NoCacheDirectory);
      return;
    }
    records', rejected', exit := TransferKey(store, disk, src, dst, urlPart, key, path.value, st.value.meta, provenance.value,
                                             config.awaitDownload, records', rejected');
  }

  method MergeBucket(store: ObjectStore, disk: CacheDisk, src: string, dst: string, urlPart: string, config: MergeConfig)
    returns (result: Result<seq<MergeRecord>, Fault>)
    modifies store, disk
    ensures var (expected, p) := Merged(old(store.Value()), old(disk.files), src, dst, urlPart, config);
      result == expected && store.Value() == p.remote && disk.files == p.files
  {
    var listed := store.ListObjects(src);
    if listed.Err? {
      return Err(StoreFault(listed.error));
    }
    var keys := listed.value;
    ghost var p0 := Progress(store.Value(), disk.files, [], None, None);
    var records: seq<MergeRecord> := [];
    var rejected: Option<Fault> := None;
    var i := 0;
    while i < |keys|
      invariant 0 <= i <= |keys|
      invariant MoveKeys(p0, src, dst, urlPart, config, keys[..i]) == Progress(store.Value(), disk.files, records, rejected, None)
    {
      MoveKeysNext(p0, src, dst, urlPart, config, keys, i);
      var exit;
      records, rejected, exit := MigrateKey(store, disk, src, dst, urlPart, config, keys[i], records, rejected);
      i := i + 1;
      if exit.Some? {
        MoveKeysAfterExit(p0, src, dst, urlPart, config, keys, i);
        return if rejected.Some? then Err(rejected.value) else Err(exit.value);
      }
    }
    assert keys[..i] == keys;
    result := if rejected.Some? then Err(rejected.value) else Ok(records);
  }

  /** The loop's next pass extends the run by one key. */
  lemma MoveKeysNext(p: Progress, src: string, dst: string, urlPart: string, config: MergeConfig, keys: seq<string>, i: nat)
    requires i < |keys|
    ensures MoveKeys(p, src, dst, urlPart, config, keys[..i + 1])
      == MoveKey(MoveKeys(p, src, dst, urlPart, config, keys[..i]), src, dst, urlPart, config, keys[i])
  {
    assert keys[..i + 1][..i] == keys[..i];
  }

  method AdminMergeBuckets(store: ObjectStore, disk: CacheDisk, access: Json, adminRole: string, src: string, dst: string,
                           req: RequestInfo, cacheDirectory: Option<string>, win32: bool)
    returns (reply: Reply<seq<MergeRecord>>)
    modifies store, disk
    ensures (reply, store.Value(), disk.files)
      == MergeRoute(old(store.Value()), old(disk.files), access, adminRole, src, dst, req, cacheDirectory, win32)
  {
    var g := GateFor(access, adminRole);
    if g != Pass {
      return Refusal(g);
    }
    var urlPart := RetrieveBase(req);
    var result := MergeBucket(store, disk, src, dst, urlPart, HandlerConfig(cacheDirectory, win32));
    reply := if result.Err? then ServerError(result.error) else Served(result.value);
  }
}
