/**
 * The upload route, PUT/POST /put (src/handlers/storage.js:350-446). The
 * multipart form is a sequence of events: text fields, which may set the
 * subject, and parts, which are files when they carry a filename. Each file
 * part gets a fresh key, a content type from its extension, and is stored in
 * the subject's bucket after provisioning; the answer lists one record per
 * file part, in arrival order.
 */
module StorageUpload {
  import opened Text
  import opened Minio
  import opened Storage
  import VerifyToken

  datatype FormEvent = Field(name: string, value: string) | Part(name: string, filename: string, data: Bytes)

  /** A part is a file when its filename is set and non-empty. */
  predicate IsFilePart(e: FormEvent)
  {
    e.Part? && e.filename != ""
  }

  /** The file parts among the events, in arrival order. */
  function FileParts(events: seq<FormEvent>): (parts: seq<FormEvent>)
    ensures forall i :: 0 <= i < |parts| ==> IsFilePart(parts[i])
    ensures |parts| <= |events|
  {
    if |events| == 0 then []
    else
      var last := events[|events| - 1];
      FileParts(events[..|events| - 1]) + if IsFilePart(last) then [last] else []
  }

  // ---------------------------------------------------------------------
  // Content type and key
  // ---------------------------------------------------------------------

  /** What `mime.getType(ext)` answers: a type, null, or undefined. */
  datatype MimeAnswer = Known(mimeType: string) | NullType | UndefinedType

  /** Only an undefined answer falls back to application/octet-stream; null is kept. */
  function ContentTypeFor(answer: MimeAnswer): (ct: MetaValue)
  {
    match answer
    case Known(t) => Str(t)
    case NullType => Null
    case UndefinedType => Str(OctetStream)
  }

  /** `filename.split('.').pop()`. */
  function Extension(filename: string): string
  {
    var pieces := Split(filename, '.');
    pieces[|pieces| - 1]
  }

  /** The extension is the text after the last '.', or the whole name when there is no '.'. */
  lemma ExtensionAfterLastDot(filename: string)
    ensures '.' !in Extension(filename)
    ensures '.' !in filename ==> Extension(filename) == filename
    ensures '.' in filename ==> exists pre :: filename == pre + ['.'] + Extension(filename)
  {
    LastPiece(filename, '.');
  }

  /** The uuid generator and the mime table, both outside the model. */
  datatype Oracles = Oracles(uuid: nat -> string, mime: string -> MimeAnswer)

  /** `protocol://host/storage/retrieve/subjectId/key`. */
  function RetrieveHref(req: RequestInfo, subjectId: string, key: string): string
  {
    RetrieveBase(req) + subjectId + "/" + key
  }

  /** The metadata an upload writes. */
  function UploadEntries(contentType: MetaValue, subjectId: string): seq<(string, MetaValue)>
  {
    [("Content-Type", contentType), ("SubjectId", Str(subjectId))]
  }

  /** As the store keeps it, the upload metadata holds the content type and the subject under lower-case names. */
  lemma UploadMetaStored(contentType: MetaValue, subjectId: string)
    ensures var meta := StoredMeta(UploadEntries(contentType, subjectId));
      && Lookup(meta, "content-type") == contentType
      && Lookup(meta, "subjectid") == Str(subjectId)
      && meta.Keys == {"content-type", "subjectid"}
  {
    StoredNames();
    var e := UploadEntries(contentType, subjectId);
    assert e[..1][..0] == [];
    assert e[..1] == [("Content-Type", contentType)];
    assert StoredMeta(e[..1]) == map["content-type" := contentType];
    assert StoredMeta(e) == StoredMeta(e[..1])["subjectid" := Str(subjectId)];
  }

  // ---------------------------------------------------------------------
  // The form's closure state and its events
  // ---------------------------------------------------------------------

  /**
   * One record of the answer. A stored file is reported under `fileName`, a
   * failed one under `filename`; both carry the part's field name.
   */
  datatype UploadRecord =
    | Uploaded(field: string, filename: string, href: string, mimeType: MetaValue)
    | UploadFailed(field: string, filename: string, error: string)

  const BucketUnavailable := "Unable to upload due to bucket not existing and unable to create bucket."

  /** `count`, `fileMetadata`, `subjectId` and `returnData`. */
  datatype Form = Form(count: nat, metadata: string, subjectId: string, records: seq<UploadRecord>)

  const EmptyForm := Form(0, "", "", [])

  /** A field named `metadata` or `subjectId` is remembered; others are ignored. */
  function AfterField(f: Form, name: string, value: string): Form
  {
    var f1 := if name == "metadata" then f.(metadata := value) else f;
    if name == "subjectId" then f1.(subjectId := value) else f1
  }

  /** A file part: count it, provision the subject's bucket, and store the part under a fresh key if that worked. */
  function AfterPart(f: Form, r: Remote, name: string, filename: string, data: Bytes,
                     req: RequestInfo, oracles: Oracles): (Form, Remote)
  {
    if filename == "" then (f, r)
    else
      var count := f.count + 1;
      var contentType := ContentTypeFor(oracles.mime(Extension(filename)));
      var key := oracles.uuid(count);
      var href := RetrieveHref(req, f.subjectId, key);
      var (ok, r1) := ProvisionCall(r, f.subjectId);
      if !ok then
        (f.(count := count, records := f.records + [UploadFailed(name, filename, BucketUnavailable)]), r1)
      else
        var r2 := PutCall(r1, f.subjectId, key, data, UploadEntries(contentType, f.subjectId)).1;
        (f.(count := count, records := f.records + [Uploaded(name, filename, href, contentType)]), r2)
  }

  function AfterEvent(f: Form, r: Remote, e: FormEvent, req: RequestInfo, oracles: Oracles): (Form, Remote)
  {
    match e
    case Field(name, value) => (AfterField(f, name, value), r)
    case Part(name, filename, data) => AfterPart(f, r, name, filename, data, req, oracles)
  }

  function AfterEvents(f: Form, r: Remote, events: seq<FormEvent>, req: RequestInfo, oracles: Oracles): (Form, Remote)
  {
    if |events| == 0 then (f, r)
    else
      var (f1, r1) := AfterEvents(f, r, events[..|events| - 1], req, oracles);
      AfterEvent(f1, r1, events[|events| - 1], req, oracles)
  }

  /** The body answered when the form closes. */
  datatype UploadResponse = UploadResponse(subjectId: string, files: seq<UploadRecord>)

  function FormPut(r: Remote, access: Json, writeRole: string, events: seq<FormEvent>,
                   req: RequestInfo, oracles: Oracles): (res: (Reply<UploadResponse>, Remote))
    ensures GateFor(access, writeRole) == Refuse ==> res == (Unauthorised(VerifyToken.AuthFailedMessage), r)
    ensures GateFor(access, writeRole) == Throws ==> res == (ServerError(AccessTypeError), r)
    ensures GateFor(access, writeRole) == Pass ==> res.0.Served?
  {
    var g := GateFor(access, writeRole);
    if g != Pass then (Refusal(g), r)
    else
      var (f, r1) := AfterEvents(EmptyForm, r, events, req, oracles);
      (Served(UploadResponse(f.subjectId, f.records)), r1)
  }

  // ---------------------------------------------------------------------
  // Properties
  // ---------------------------------------------------------------------

  /**
   * Every file part adds exactly one record, in arrival order, naming the
   * part's field and filename; fields and non-file parts add none.
   */
  lemma {:induction false} RecordsFollowFileParts(f: Form, r: Remote, events: seq<FormEvent>, req: RequestInfo, oracles: Oracles)
    ensures var f' := AfterEvents(f, r, events, req, oracles).0;
      var parts := FileParts(events);
      && f'.count == f.count + |parts|
      && |f'.records| == |f.records| + |parts|
      && f'.records[..|f.records|] == f.records
      && (forall i :: 0 <= i < |parts| ==>
            f'.records[|f.records| + i].field == parts[i].name &&
            f'.records[|f.records| + i].filename == parts[i].filename)
    decreases |events|
  {
    if |events| > 0 {
      var init := events[..|events| - 1];
      var e := events[|events| - 1];
      RecordsFollowFileParts(f, r, init, req, oracles);
      var (f1, r1) := AfterEvents(f, r, init, req, oracles);
      AfterEventRecord(f1, r1, e, req, oracles);
      var f' := AfterEvents(f, r, events, req, oracles).0;
      var parts := FileParts(events);
      assert parts == FileParts(init) + if IsFilePart(e) then [e] else [];
      assert f'.records[..|f.records|] == f1.records[..|f.records|];
      forall i | 0 <= i < |parts|
        ensures f'.records[|f.records| + i].field == parts[i].name
        ensures f'.records[|f.records| + i].filename == parts[i].filename
      {
        if i < |FileParts(init)| {
          assert f'.records[|f.records| + i] == f1.records[|f.records| + i];
          assert parts[i] == FileParts(init)[i];
        }
      }
    }
  }

  /** One event adds one record exactly when it is a file part, naming its field and file. */
  lemma AfterEventRecord(f: Form, r: Remote, e: FormEvent, req: RequestInfo, oracles: Oracles)
    ensures var f' := AfterEvent(f, r, e, req, oracles).0;
      if IsFilePart(e) then
        && f'.count == f.count + 1 && |f'.records| == |f.records| + 1
        && f'.records[..|f.records|] == f.records
        && f'.records[|f.records|].field == e.name && f'.records[|f.records|].filename == e.filename
      else f'.count == f.count && f'.records == f.records
  {
  }

  /** The answer lists the subject and one record per file part, in arrival order. */
  lemma ResponseListsEveryFilePart(r: Remote, access: Json, writeRole: string, events: seq<FormEvent>,
                                   req: RequestInfo, oracles: Oracles)
    requires GateFor(access, writeRole) == Pass
    ensures var reply := FormPut(r, access, writeRole, events, req, oracles).0;
      var parts := FileParts(events);
      && reply.Served?
      && |reply.body.files| == |parts|
      && (forall i :: 0 <= i < |parts| ==>
            reply.body.files[i].field == parts[i].name && reply.body.files[i].filename == parts[i].filename)
  {
    RecordsFollowFileParts(EmptyForm, r, events, req, oracles);
  }

  /**
   * With the bucket provisioned and the write going through, a file part is
   * stored under the next uuid key with its bytes and the upload metadata, and
   * is reported with the retrieve href and the content type of its extension.
   * Nothing else in the store changes.
   */
  lemma FilePartStored(f: Form, r: Remote, name: string, filename: string, data: Bytes,
                       req: RequestInfo, oracles: Oracles)
    requires filename != ""
    requires Quiet(r.faults, 4)
    ensures var (f', r') := AfterPart(f, r, name, filename, data, req, oracles);
      var key := oracles.uuid(f.count + 1);
      var contentType := ContentTypeFor(oracles.mime(Extension(filename)));
      var sid := f.subjectId;
      && f'.records == f.records + [Uploaded(name, filename, RetrieveHref(req, sid, key), contentType)]
      && sid in r'.buckets && key in r'.buckets[sid]
      && r'.buckets[sid][key].data == data
      && Lookup(r'.buckets[sid][key].meta, "content-type") == contentType
      && Lookup(r'.buckets[sid][key].meta, "subjectid") == Str(sid)
      && r'.buckets.Keys == r.buckets.Keys + {sid}
      && (forall b :: b in r.buckets && b != sid ==> b in r'.buckets && r'.buckets[b] == r.buckets[b])
      && (forall k :: sid in r.buckets && k in r.buckets[sid] && k != key ==> k in r'.buckets[sid] && r'.buckets[sid][k] == r.buckets[sid][k])
      && r'.buckets[sid].Keys == (if sid in r.buckets then r.buckets[sid].Keys else {}) + {key}
      && ((sid in r.buckets ==> key !in r.buckets[sid]) ==>
            forall k :: sid in r.buckets && k in r.buckets[sid] ==> k in r'.buckets[sid] && r'.buckets[sid][k] == r.buckets[sid][k])
  {
    var sid := f.subjectId;
    ProvisionEffect(r, sid);
    ProvisionThenQuiet(r, sid);
    var (ok, r1) := ProvisionCall(r, sid);
    var key := oracles.uuid(f.count + 1);
    var contentType := ContentTypeFor(oracles.mime(Extension(filename)));
    var entries := UploadEntries(contentType, sid);
    var r2 := PutCall(r1, sid, key, data, entries).1;
    assert r2.buckets == r1.buckets[sid := r1.buckets[sid][key := Obj(data, StoredMeta(entries))]];
    assert AfterPart(f, r, name, filename, data, req, oracles).1 == r2;
    UploadMetaStored(contentType, sid);
  }

  /**
   * An uploaded part can be retrieved under the key handed out for it: the
   * body is the uploaded bytes, and the Content-Type is the mime type when the
   * table knows a non-empty one, else `application/octet-stream` (a null answer
   * is stored, but the retrieve handler does not serve a falsy type).
   */
  lemma UploadThenRetrieve(f: Form, r: Remote, name: string, filename: string, data: Bytes,
                           req: RequestInfo, oracles: Oracles, access: Json, readRole: string)
    requires filename != ""
    requires Quiet(r.faults, 7)
    requires GateFor(access, readRole) == Pass
    ensures var r' := AfterPart(f, r, name, filename, data, req, oracles).1;
      var answer := oracles.mime(Extension(filename));
      var reply := Retrieve(r', access, readRole, f.subjectId, oracles.uuid(f.count + 1)).0;
      && reply.Served?
      && reply.body.body == data
      && reply.body.contentLength == |data|
      && (answer.Known? && answer.mimeType != "" ==> reply.body.contentType == Str(answer.mimeType))
      && (!(answer.Known? && answer.mimeType != "") ==> reply.body.contentType == Str(OctetStream))
  {
    var sid := f.subjectId;
    var key := oracles.uuid(f.count + 1);
    FilePartStored(f, r, name, filename, data, req, oracles);
    ProvisionEffect(r, sid);
    ProvisionSpends(r, sid, 4);
    var r1 := ProvisionCall(r, sid).1;
    var contentType := ContentTypeFor(oracles.mime(Extension(filename)));
    var r2 := PutCall(r1, sid, key, data, UploadEntries(contentType, sid)).1;
    assert AfterPart(f, r, name, filename, data, req, oracles).1 == r2;
    QuietLater(r1.faults, 3);
    assert r2.faults == Later(r1.faults);
    RetrieveServesStoredObject(r2, access, readRole, sid, key);
  }

  /** When the bucket cannot be provisioned, the part is reported failed and nothing is written. */
  lemma FilePartRefusedWithoutBucket(f: Form, r: Remote, name: string, filename: string, data: Bytes,
                                     req: RequestInfo, oracles: Oracles)
    requires filename != ""
    requires !ProvisionCall(r, f.subjectId).0
    ensures var (f', r') := AfterPart(f, r, name, filename, data, req, oracles);
      && f'.records == f.records + [UploadFailed(name, filename, BucketUnavailable)]
      && r' == ProvisionCall(r, f.subjectId).1
  {
  }

  // ---------------------------------------------------------------------
  // The handler
  // ---------------------------------------------------------------------

  /** The closure variables of one `formPutResult` call. */
  class UploadForm {
    var count: nat
    var fileMetadata: string
    var subjectId: string
    var returnData: seq<UploadRecord>

    function Value(): Form
      reads this
    {
      Form(count, fileMetadata, subjectId, returnData)
    }

    constructor ()
      ensures Value() == EmptyForm
    {
      count := 0;
      fileMetadata := "";
      subjectId := "";
      returnData := [];
    }

    method OnField(name: string, value: string)
      modifies this
      ensures Value() == AfterField(old(Value()), name, value)
    {
      if name == "metadata" {
        fileMetadata := value;
      }
      if name == "subjectId" {
        subjectId := value;
      }
    }

    method OnPart(store: ObjectStore, name: string, filename: string, data: Bytes, req: RequestInfo, oracles: Oracles)
      modifies this, store
      ensures (Value(), store.Value()) == AfterPart(old(Value()), old(store.Value()), name, filename, data, req, oracles)
    {
      if filename == "" {
        return;
      }
      count := count + 1;
      var contentType := ContentTypeFor(oracles.mime(Extension(filename)));
      var key := oracles.uuid(count);
      var href := RetrieveHref(req, subjectId, key);
      var found := ProvisionBucket(store, subjectId);
      if !found {
        returnData := returnData + [UploadFailed(name, filename, BucketUnavailable)];
      } else {
        var _ := store.PutObject(subjectId, key, data, UploadEntries(contentType, subjectId));
        returnData := returnData + [Uploaded(name, filename, href, contentType)];
      }
    }
  }

  method FormPutResult(store: ObjectStore, access: Json, writeRole: string, events: seq<FormEvent>,
                       req: RequestInfo, oracles: Oracles) returns (reply: Reply<UploadResponse>)
    modifies store
    ensures (reply, store.Value()) == FormPut(old(store.Value()), access, writeRole, events, req, oracles)
  {
    var g := GateFor(access, writeRole);
    if g != Pass {
      return Refusal(g);
    }
    var form := new UploadForm();
    var i := 0;
    while i < |events|
      invariant 0 <= i <= |events|
      invariant (form.Value(), store.Value()) == AfterEvents(EmptyForm, old(store.Value()), events[..i], req, oracles)
      modifies form, store
    {
      assert events[..i + 1][..i] == events[..i];
      match events[i] {
        case Field(name, value) =>
          form.OnField(name, value);
        case Part(name, filename, data) =>
          form.OnPart(store, name, filename, data, req, oracles);
      }
      i := i + 1;
    }
    assert events[..i] == events;
    reply := Served(UploadResponse(form.subjectId, form.returnData));
  }
}
