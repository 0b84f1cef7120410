/** The resume collection and its six handlers (create, delete, owned get,
    public get, update, list), with the document store replaced by an
    in-memory map from document id to record.

    A record's fields are the stored top-level properties in the store's own
    terms: the owner is the `userId` field and the public flag is the `public`
    field, because the handlers select documents by querying those fields
    (`{ userId, _id }`, `{ public: true, _id }`). The timestamps live beside
    the fields. */
module ResumeStore {
  import opened Common
  import opened Json

  type DocId = nat
  type UserId = string

  datatype Resume = Resume(fields: map<string, Value>, createdAt: nat, updatedAt: nat)

  /** A document as a handler sends it back. `getResumeById` clears the
      timestamps (None); the other read paths keep them. */
  datatype View = View(id: DocId, fields: map<string, Value>, createdAt: Option<nat>, updatedAt: Option<nat>)

  /** The error responses of the resume and extraction handlers. */
  datatype Failure =
    | MissingTitle
    | MissingFields
    | ResumeNotFound
    | NotFoundOrNotPublic
      /** a TypeError: a property written on, or an update built from, something that is not an object;
          its message is the property's name, standing in for the engine's own wording */
    | NotAnObject(what: string)
      /** an error thrown by an external call, answered with its message */
    | Thrown(message: string)
  {
    function Status(): int {
      if this == ResumeNotFound || this == NotFoundOrNotPublic then 404 else 400
    }

    function Message(): string {
      match this
      case MissingTitle => "Title is required"
      case MissingFields => "Missing required fields"
      case ResumeNotFound => "Resume not found"
      case NotFoundOrNotPublic => "Resume not found or not public"
      case NotAnObject(what) => what
      case Thrown(message) => message
    }
  }

  /** The answers the handlers send for each failure: the two not-found cases
      are 404 and everything else is 400, each with its handler's literal
      message or the thrown error's own message. */
  lemma FailureAnswers(what: string, message: string)
    ensures MissingTitle.Status() == 400 && MissingTitle.Message() == "Title is required"
    ensures MissingFields.Status() == 400 && MissingFields.Message() == "Missing required fields"
    ensures ResumeNotFound.Status() == 404 && ResumeNotFound.Message() == "Resume not found"
    ensures NotFoundOrNotPublic.Status() == 404 && NotFoundOrNotPublic.Message() == "Resume not found or not public"
    ensures NotAnObject(what).Status() == 400 && NotAnObject(what).Message() == what
    ensures Thrown(message).Status() == 400 && Thrown(message).Message() == message
  {
  }

  predicate OwnedBy(doc: Resume, u: UserId) {
    "userId" in doc.fields && doc.fields["userId"] == Str(u)
  }

  predicate IsPublic(doc: Resume) {
    "public" in doc.fields && doc.fields["public"] == Bool(true)
  }

  /** The query `{ userId: u, _id: id }` matches a document. */
  predicate Owns(docs: map<DocId, Resume>, u: UserId, id: DocId) {
    id in docs && OwnedBy(docs[id], u)
  }

  function OwnedIds(docs: map<DocId, Resume>, u: UserId): (s: set<DocId>)
    ensures forall id :: id in s <==> Owns(docs, u, id)
  {
    set id | id in docs && OwnedBy(docs[id], u)
  }

  function FullView(id: DocId, doc: Resume): View {
    View(id, doc.fields, Some(doc.createdAt), Some(doc.updatedAt))
  }

  /** The copy `getResumeById` answers with: `createdAt` and `updatedAt` set to undefined. */
  function ClearedView(id: DocId, doc: Resume): View {
    View(id, doc.fields, None, None)
  }

  /** The record `createResume` inserts: `{ userId, title }`. */
  function NewResumeFields(u: UserId, title: Value): (f: map<string, Value>)
    ensures f.Keys == {"userId", "title"} && f["title"] == title
    ensures OwnedBy(Resume(f, 0, 0), u) && !IsPublic(Resume(f, 0, 0))
  {
    map["userId" := Str(u), "title" := title]
  }

  // ---------------------------------------------------------------------------
  // The store operations as functions of the document map

  /** `Resume.create(fields)` at time `now`, under a fresh id. */
  function Inserted(docs: map<DocId, Resume>, id: DocId, fields: map<string, Value>, now: nat): (r: map<DocId, Resume>)
    requires id !in docs
    ensures r.Keys == docs.Keys + {id}
    ensures r[id] == Resume(fields, now, now)
    ensures forall other :: other in docs ==> r[other] == docs[other]
  {
    docs[id := Resume(fields, now, now)]
  }

  /** `findOneAndDelete({ userId: u, _id: id })`. */
  function Deleted(docs: map<DocId, Resume>, u: UserId, id: DocId): (r: map<DocId, Resume>)
    ensures Owns(docs, u, id) ==> r.Keys == docs.Keys - {id}
    ensures !Owns(docs, u, id) ==> r == docs
    ensures forall other :: other in r ==> other in docs && r[other] == docs[other]
  {
    if Owns(docs, u, id) then docs - {id} else docs
  }

  /** `findOneAndUpdate({ userId: u, _id: id }, patch)`: each top-level field of
      the patch replaces the stored one wholesale, absent fields stay, the update
      time becomes `now`, and no other document changes. */
  function Patched(docs: map<DocId, Resume>, u: UserId, id: DocId, patch: map<string, Value>, now: nat): (r: map<DocId, Resume>)
    ensures r.Keys == docs.Keys
    ensures forall other :: other in docs && other != id ==> r[other] == docs[other]
    ensures !Owns(docs, u, id) ==> r == docs
    ensures Owns(docs, u, id) ==>
      && r[id].createdAt == docs[id].createdAt
      && r[id].updatedAt == now
      && r[id].fields.Keys == docs[id].fields.Keys + patch.Keys
      && (forall k :: k in patch ==> r[id].fields[k] == patch[k])
      && (forall k :: k in docs[id].fields && k !in patch ==> r[id].fields[k] == docs[id].fields[k])
  {
    if Owns(docs, u, id) then
      docs[id := Resume(Overlay(docs[id].fields, patch), docs[id].createdAt, now)]
    else
      docs
  }

  /** Deleting twice is deleting once. */
  lemma DeleteIdempotent(docs: map<DocId, Resume>, u: UserId, id: DocId)
    ensures Deleted(Deleted(docs, u, id), u, id) == Deleted(docs, u, id)
  {
  }

  /** A document that one user created is invisible to every other user, on
      both read paths: it is not theirs, and it is not public. */
  lemma OwnershipIsolation(docs: map<DocId, Resume>, id: DocId, a: UserId, b: UserId, title: Value, now: nat)
    requires id !in docs && a != b
    ensures Owns(Inserted(docs, id, NewResumeFields(a, title), now), a, id)
    ensures !Owns(Inserted(docs, id, NewResumeFields(a, title), now), b, id)
    ensures !IsPublic(Inserted(docs, id, NewResumeFields(a, title), now)[id])
  {
  }

  /** An update whose patch has no `userId` key leaves every document's owner as it was. */
  lemma PatchKeepsOwners(docs: map<DocId, Resume>, u: UserId, id: DocId, patch: map<string, Value>, now: nat)
    requires "userId" !in patch
    ensures forall v, x :: Owns(Patched(docs, u, id, patch, now), v, x) <==> Owns(docs, v, x)
  {
  }

  // ---------------------------------------------------------------------------
  // Listing: `find({ userId }).sort({ updatedAt: -1 })`

  function Stamp(v: View): nat {
    v.updatedAt.GetOr(0)
  }

  /** Ordered by update time, most recent first. */
  ghost predicate NewestFirst(r: seq<View>) {
    forall i, j :: 0 <= i < j < |r| ==> Stamp(r[i]) >= Stamp(r[j])
  }

  function IdsOf(r: seq<View>): (ids: seq<DocId>)
    ensures |ids| == |r|
    ensures forall i :: 0 <= i < |r| ==> ids[i] == r[i].id
  {
    if r == [] then [] else [r[0].id] + IdsOf(r[1..])
  }

  /** `r` is an answer of `getAllResumes` for `u`: every document of `u` exactly
      once, each as stored, most recently updated first. */
  ghost predicate IsListing(docs: map<DocId, Resume>, u: UserId, r: seq<View>) {
    && NewestFirst(r)
    && multiset(IdsOf(r)) == multiset(OwnedIds(docs, u))
    && forall i :: 0 <= i < |r| ==> r[i].id in docs && r[i] == FullView(r[i].id, docs[r[i].id])
  }

  /** Inserts `v` before the first entry that is not more recent than it. */
  function InsertByStamp(s: seq<View>, v: View): (r: seq<View>)
    ensures multiset(r) == multiset(s) + multiset{v}
  {
    if s == [] || Stamp(v) >= Stamp(s[0]) then [v] + s
    else
      assert s == [s[0]] + s[1..];
      [s[0]] + InsertByStamp(s[1..], v)
  }

  /** Inserting into a list ordered most recent first keeps it ordered. */
  lemma {:induction false} InsertKeepsOrder(s: seq<View>, v: View)
    requires NewestFirst(s)
    ensures NewestFirst(InsertByStamp(s, v))
  {
    if s != [] && Stamp(v) < Stamp(s[0]) {
      var rest := InsertByStamp(s[1..], v);
      InsertKeepsOrder(s[1..], v);
      forall j | 0 <= j < |rest| ensures Stamp(s[0]) >= Stamp(rest[j]) {
        assert rest[j] in multiset(rest);
        if rest[j] != v {
          assert rest[j] in multiset(s[1..]);
          var k :| 0 <= k < |s[1..]| && s[1..][k] == rest[j];
          assert s[1..][k] == s[k + 1];
        }
      }
      assert InsertByStamp(s, v) == [s[0]] + rest;
    }
  }

  /** Inserting a view adds exactly its id to the list's ids. */
  lemma {:induction false} InsertAddsId(s: seq<View>, v: View)
    ensures multiset(IdsOf(InsertByStamp(s, v))) == multiset(IdsOf(s)) + multiset{v.id}
  {
    if s == [] || Stamp(v) >= Stamp(s[0]) {
      assert IdsOf([v] + s) == [v.id] + IdsOf(s);
    } else {
      var rest := InsertByStamp(s[1..], v);
      InsertAddsId(s[1..], v);
      assert IdsOf([s[0]] + rest) == [s[0].id] + IdsOf(rest);
      assert IdsOf(s) == [s[0].id] + IdsOf(s[1..]);
    }
  }

  /** Inserting a stored view into a list of stored views gives a list of stored views. */
  lemma InsertKeepsStored(docs: map<DocId, Resume>, s: seq<View>, v: View)
    requires forall i :: 0 <= i < |s| ==> s[i].id in docs && s[i] == FullView(s[i].id, docs[s[i].id])
    requires v.id in docs && v == FullView(v.id, docs[v.id])
    ensures var r := InsertByStamp(s, v);
      forall i :: 0 <= i < |r| ==> r[i].id in docs && r[i] == FullView(r[i].id, docs[r[i].id])
  {
  }

  /** Moving one id from the pending set to the processed part of a set. */
  lemma ProcessOne(all: set<DocId>, pending: set<DocId>, id: DocId)
    requires id in pending
    ensures id in all ==> multiset(all - (pending - {id})) == multiset(all - pending) + multiset{id}
    ensures id !in all ==> all - (pending - {id}) == all - pending
  {
  }

  /** The document updated last is the first the owner's listing shows. */
  lemma {:induction false} NewestListedFirst(docs: map<DocId, Resume>, u: UserId, id: DocId, r: seq<View>)
    requires Owns(docs, u, id)
    requires forall other :: Owns(docs, u, other) && other != id ==> docs[other].updatedAt < docs[id].updatedAt
    requires IsListing(docs, u, r)
    ensures |r| > 0 && r[0].id == id
  {
    assert id in multiset(OwnedIds(docs, u));
    assert id in multiset(IdsOf(r));
    assert id in IdsOf(r);
    var k :| 0 <= k < |r| && IdsOf(r)[k] == id;
    assert r[0].id in multiset(IdsOf(r));
    assert r[0].id in OwnedIds(docs, u);
  }

  // ---------------------------------------------------------------------------
  // The update body and the image step

  /** `req.file`, the uploaded image as stored on disk. */
  datatype ImageFile = ImageFile(path: string)

  /** What `imageKit.files.upload` is given. */
  datatype UploadRequest = UploadRequest(file: ImageFile, fileName: string, folder: string, pre: string)

  const TransformBase := "w-300 , h-300 , fo-face , z-0.75"
  const BackgroundRemoval := ",e-bgremove"

  /** The `pre` transformation: the fixed resize and face crop, followed by
      background removal exactly when `removeBackground` is truthy. */
  function TransformSpec(removeBackground: Option<Value>): (spec: string)
    ensures StartsWith(spec, TransformBase)
    ensures EndsWith(spec, BackgroundRemoval) <==> Truthy(removeBackground)
    ensures |spec| == |TransformBase| + (if Truthy(removeBackground) then |BackgroundRemoval| else 0)
  {
    var spec := TransformBase + (if Truthy(removeBackground) then BackgroundRemoval else "");
    assert spec[..|TransformBase|] == TransformBase;
    assert !Truthy(removeBackground) ==> spec[|spec| - |BackgroundRemoval|..][0] != BackgroundRemoval[0];
    spec
  }

  /** A form field arrives as text, so `removeBackground: "false"` is truthy and
      still asks for background removal. */
  lemma FalseTextRemovesBackground()
    ensures EndsWith(TransformSpec(Some(Str("false"))), BackgroundRemoval)
  {
  }

  /** The upload request: the file as given, under the fixed name and folder,
      with background removal asked for exactly when `removeBackground` is truthy. */
  function ImageUpload(image: ImageFile, removeBackground: Option<Value>): (r: UploadRequest)
    ensures r.file == image && r.fileName == "resume.png" && r.folder == "user-resumes"
    ensures r.pre == TransformSpec(removeBackground)
    ensures StartsWith(r.pre, TransformBase)
    ensures EndsWith(r.pre, BackgroundRemoval) <==> Truthy(removeBackground)
  {
    UploadRequest(image, "resume.png", "user-resumes", TransformSpec(removeBackground))
  }

  /** `resumeDataCopy`, from `req.body.resumeData` (None is `undefined`): any
      string, whether a multipart field or a string in a JSON body, is parsed
      (a parse error is thrown); any other value is cloned. */
  function CopyOf(data: Option<Value>, parse: string -> Result<Value, string>): (c: Result<Option<Value>, Failure>)
    ensures c.Err? <==> data.Some? && data.value.Str? && parse(data.value.s).Err?
    ensures c.Err? ==> c.error == Thrown(parse(data.value.s).error)
    ensures data.Some? && data.value.Str? && parse(data.value.s).Ok? ==>
      c == Ok(Some(parse(data.value.s).value))
    ensures data.Some? && !data.value.Str? ==> c == Ok(Some(data.value))
    ensures data.None? ==> c == Ok(None)
  {
    match data
    case None => Ok(None)
    case Some(v) =>
      if v.Str? then
        match parse(v.s)
        case Ok(parsed) => Ok(Some(parsed))
        case Err(m) => Err(Thrown(m))
      else Ok(Some(v))
  }

  /** `resumeDataCopy.personal_info.image = url`: needs an object holding a `personal_info` object. */
  function WithImage(copy: Option<Value>, url: string): (r: Result<Value, Failure>)
    ensures r.Ok? <==> (copy.Some? && copy.value.Obj? && "personal_info" in copy.value.members
                        && copy.value.members["personal_info"].Obj?)
    ensures r.Ok? ==>
      var m := copy.value.members;
      && r.value.Obj? && r.value.members.Keys == m.Keys
      && r.value.members["personal_info"] == Obj(m["personal_info"].members["image" := Str(url)])
      && (forall k :: k in m && k != "personal_info" ==> r.value.members[k] == m[k])
  {
    if copy.Some? && copy.value.Obj? && "personal_info" in copy.value.members
       && copy.value.members["personal_info"].Obj?
    then
      var m := copy.value.members;
      Ok(Obj(m["personal_info" := Obj(m["personal_info"].members["image" := Str(url)])]))
    else
      Err(NotAnObject("personal_info"))
  }

  /** The update document handed to the store: an object's members. */
  function AsUpdate(copy: Option<Value>): (r: Result<map<string, Value>, Failure>)
    ensures r.Ok? <==> copy.Some? && copy.value.Obj?
    ensures r.Ok? ==> r.value == copy.value.members
  {
    if copy.Some? && copy.value.Obj? then Ok(copy.value.members) else Err(NotAnObject("resumeData"))
  }

  /** The patch `updatedResume` writes, and the uploads it issued on the way. */
  datatype Prepared = Prepared(patch: Result<map<string, Value>, Failure>, uploads: seq<UploadRequest>)

  function PreparePatch(data: Option<Value>, image: Option<ImageFile>, removeBackground: Option<Value>,
                        parse: string -> Result<Value, string>, upload: UploadRequest -> Result<string, string>): (p: Prepared)
    // parsing comes first; the upload happens only for an image and only after a successful parse
    ensures CopyOf(data, parse).Err? ==> p == Prepared(Err(CopyOf(data, parse).error), [])
    ensures p.uploads == if image.Some? && CopyOf(data, parse).Ok? then [ImageUpload(image.value, removeBackground)] else []
    // without an image the patch is the body itself
    ensures image.None? && CopyOf(data, parse).Ok? ==> p.patch == AsUpdate(CopyOf(data, parse).value)
    // a failed upload fails the update with the upload's error
    ensures image.Some? && CopyOf(data, parse).Ok? && upload(ImageUpload(image.value, removeBackground)).Err? ==>
      p.patch == Err(Thrown(upload(ImageUpload(image.value, removeBackground)).error))
    // after a successful upload, the patch is the body with the returned URL written into it,
    // and it fails exactly when that write fails
    ensures image.Some? && CopyOf(data, parse).Ok? && upload(ImageUpload(image.value, removeBackground)).Ok? ==>
      var written := WithImage(CopyOf(data, parse).value, upload(ImageUpload(image.value, removeBackground)).value);
      && (written.Err? ==> p.patch == Err(written.error))
      && (written.Ok? ==> p.patch.Ok? && Obj(p.patch.value) == written.value)
    // a successful update with an image writes the returned URL into personal_info.image
    ensures image.Some? && p.patch.Ok? ==>
      && upload(ImageUpload(image.value, removeBackground)).Ok?
      && "personal_info" in p.patch.value
      && Member(p.patch.value["personal_info"], "image") == Some(Str(upload(ImageUpload(image.value, removeBackground)).value))
  {
    match CopyOf(data, parse)
    case Err(e) => Prepared(Err(e), [])
    case Ok(copy) =>
      if image.None? then Prepared(AsUpdate(copy), [])
      else
        var req := ImageUpload(image.value, removeBackground);
        match upload(req)
        case Err(m) => Prepared(Err(Thrown(m)), [req])
        case Ok(url) =>
          match WithImage(copy, url)
          case Err(e) => Prepared(Err(e), [req])
          case Ok(v) => Prepared(AsUpdate(Some(v)), [req])
  }

  /** With an image and an object body whose `personal_info` is an object, a
      successful upload makes the update succeed: it writes every member of the
      body as given, except that `personal_info` also gets the returned URL as
      its `image`. */
  lemma ImageUpdateWritesBody(members: map<string, Value>, image: ImageFile, removeBackground: Option<Value>,
                              parse: string -> Result<Value, string>, upload: UploadRequest -> Result<string, string>)
    requires upload(ImageUpload(image, removeBackground)).Ok?
    requires "personal_info" in members && members["personal_info"].Obj?
    ensures var p := PreparePatch(Some(Obj(members)), Some(image), removeBackground, parse, upload).patch;
      var url := upload(ImageUpload(image, removeBackground)).value;
      && p.Ok? && p.value.Keys == members.Keys
      && (forall k :: k in members && k != "personal_info" ==> p.value[k] == members[k])
      && p.value["personal_info"] == Obj(members["personal_info"].members["image" := Str(url)])
  {
    var url := upload(ImageUpload(image, removeBackground)).value;
    var written := WithImage(Some(Obj(members)), url);
    assert written.Ok?;
  }

  /** Without an image, a string body (a multipart field or a string inside a
      JSON body alike) is parsed, and an object it parses to is the patch. */
  lemma StringBodyIsParsed(text: string, removeBackground: Option<Value>,
                           parse: string -> Result<Value, string>, upload: UploadRequest -> Result<string, string>)
    requires parse(text).Ok? && parse(text).value.Obj?
    ensures var p := PreparePatch(Some(Str(text)), None, removeBackground, parse, upload);
      p.patch == Ok(parse(text).value.members) && p.uploads == []
  {
  }

  // ---------------------------------------------------------------------------
  // The collection and its handlers

  class Store {
    var docs: map<DocId, Resume>
    /** The time the next write is stamped with. */
    var clock: nat
    /** The id the next created document receives. */
    var nextId: DocId

    ghost predicate Valid()
      reads this
    {
      forall id :: id in docs ==> id < nextId && docs[id].updatedAt < clock
    }

    constructor ()
      ensures Valid() && docs == map[]
    {
      docs, clock, nextId := map[], 0, 0;
    }

    /** `Resume.create(fields)`: one new document under a fresh id. */
    method Insert(fields: map<string, Value>) returns (id: DocId)
      requires Valid()
      modifies this
      ensures Valid()
      ensures id !in old(docs) && docs == Inserted(old(docs), id, fields, old(clock))
    {
      id := nextId;
      docs := docs[id := Resume(fields, clock, clock)];
      nextId, clock := nextId + 1, clock + 1;
    }

    /** `createResume`: a falsy title is refused and nothing is inserted;
        otherwise exactly one document, owned by the caller, with that title. */
    method CreateResume(caller: UserId, title: Option<Value>) returns (r: Result<View, Failure>)
      requires Valid()
      modifies this
      ensures Valid()
      ensures !Truthy(title) ==> r == Err(MissingTitle) && docs == old(docs)
      ensures Truthy(title) ==>
        && r.Ok? && r.value.id !in old(docs)
        && docs == Inserted(old(docs), r.value.id, NewResumeFields(caller, title.value), old(clock))
        && r.value == FullView(r.value.id, docs[r.value.id])
    {
      if !Truthy(title) {
        return Err(MissingTitle);
      }
      var id := Insert(NewResumeFields(caller, title.value));
      r := Ok(FullView(id, docs[id]));
    }

    /** `deleteResume`: removes the document only when the caller owns it, and reports success either way. */
    method DeleteResume(caller: UserId, id: DocId) returns (r: Result<(), Failure>)
      requires Valid()
      modifies this
      ensures Valid()
      ensures r == Ok(()) && docs == Deleted(old(docs), caller, id)
    {
      if id in docs && OwnedBy(docs[id], caller) {
        docs := docs - {id};
      }
      r := Ok(());
    }

    /** `getResumeById`: the caller's own document with its timestamps cleared;
        someone else's document is as missing as an absent one. */
    method GetResumeById(caller: UserId, id: DocId) returns (r: Result<View, Failure>)
      ensures r.Ok? <==> Owns(docs, caller, id)
      ensures r.Ok? ==> r.value == ClearedView(id, docs[id]) && r.value.createdAt.None? && r.value.updatedAt.None?
      ensures r.Err? ==> r.error == ResumeNotFound && r.error.Status() == 404
    {
      if id in docs && OwnedBy(docs[id], caller) {
        r := Ok(ClearedView(id, docs[id]));
      } else {
        r := Err(ResumeNotFound);
      }
    }

    /** `getPublicResumeyId`: any owner's document, when public; a private
        document is as missing as an absent one. */
    method GetPublicResumeById(id: DocId) returns (r: Result<View, Failure>)
      ensures r.Ok? <==> id in docs && IsPublic(docs[id])
      ensures r.Ok? ==> r.value == FullView(id, docs[id])
      ensures r.Err? ==> r.error == NotFoundOrNotPublic && r.error.Status() == 404
    {
      if id in docs && IsPublic(docs[id]) {
        r := Ok(FullView(id, docs[id]));
      } else {
        r := Err(NotFoundOrNotPublic);
      }
    }

    /** `getAllResumes`: every document of the caller, once each, most recently updated first. */
    method GetAllResumes(caller: UserId) returns (r: seq<View>)
      ensures IsListing(docs, caller, r)
    {
      var pending := docs.Keys;
      r := [];
      while pending != {}
        invariant pending <= docs.Keys
        invariant NewestFirst(r)
        invariant multiset(IdsOf(r)) == multiset(OwnedIds(docs, caller) - pending)
        invariant forall i :: 0 <= i < |r| ==> r[i].id in docs && r[i] == FullView(r[i].id, docs[r[i].id])
        decreases pending
      {
        var id :| id in pending;
        ProcessOne(OwnedIds(docs, caller), pending, id);
        if OwnedBy(docs[id], caller) {
          var v := FullView(id, docs[id]);
          InsertKeepsOrder(r, v);
          InsertAddsId(r, v);
          InsertKeepsStored(docs, r, v);
          r := InsertByStamp(r, v);
        }
        pending := pending - {id};
      }
    }

    /** `updatedResume`: prepares the patch (parse, optional upload and image
        write), then updates the caller's document if there is one. A failed
        step leaves the store unchanged; a missing or foreign document is
        answered with success and no document. */
    method UpdatedResume(caller: UserId, id: DocId, resumeData: Option<Value>, image: Option<ImageFile>,
                         removeBackground: Option<Value>, parse: string -> Result<Value, string>,
                         upload: UploadRequest -> Result<string, string>)
      returns (r: Result<Option<View>, Failure>, uploads: seq<UploadRequest>)
      requires Valid()
      modifies this
      ensures Valid()
      ensures uploads == PreparePatch(resumeData, image, removeBackground, parse, upload).uploads
      ensures PreparePatch(resumeData, image, removeBackground, parse, upload).patch.Err? ==>
        && r == Err(PreparePatch(resumeData, image, removeBackground, parse, upload).patch.error)
        && docs == old(docs)
      ensures PreparePatch(resumeData, image, removeBackground, parse, upload).patch.Ok? ==>
        && docs == Patched(old(docs), caller, id, PreparePatch(resumeData, image, removeBackground, parse, upload).patch.value, old(clock))
        && r == Ok(if Owns(old(docs), caller, id) then Some(FullView(id, docs[id])) else None)
    {
      var prepared := PreparePatch(resumeData, image, removeBackground, parse, upload);
      uploads := prepared.uploads;
      if prepared.patch.Err? {
        return Err(prepared.patch.error), uploads;
      }
      if id in docs && OwnedBy(docs[id], caller) {
        var doc := docs[id];
        docs := docs[id := Resume(Overlay(doc.fields, prepared.patch.value), doc.createdAt, clock)];
        r := Ok(Some(FullView(id, docs[id])));
      } else {
        r := Ok(None);
      }
      clock := clock + 1;
    }
  }

  /** Every write is stamped later than anything stored, so the document just
      updated heads its owner's listing. */
  lemma UpdatedListedFirst(docs: map<DocId, Resume>, u: UserId, id: DocId, patch: map<string, Value>, now: nat, r: seq<View>)
    requires Owns(docs, u, id)
    requires forall x :: x in docs ==> docs[x].updatedAt < now
    requires "userId" !in patch
    requires IsListing(Patched(docs, u, id, patch, now), u, r)
    ensures |r| > 0 && r[0].id == id
  {
    var after := Patched(docs, u, id, patch, now);
    PatchKeepsOwners(docs, u, id, patch, now);
    NewestListedFirst(after, u, id, r);
  }
}
