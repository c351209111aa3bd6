/**
 * The image routes: listing, lookup, ingestion (POST), deletion and partial
 * update. Every outcome of an external step (schema validation, content
 * sniffing, the file service's answer, the id the store assigns, the clock
 * and the user folder) is an input. Each state-changing handler is a method
 * on the stores, proved equal to a pure function that states what the
 * handler promises.
 */
module Images {
  import opened Wrappers
  import opened Documents
  import opened Stores
  import opened ImageLink

  /** The validator's verdict on a request body. */
  datatype Validation = Passed | Failed(issues: seq<string>)

  /** What content sniffing reports for a file. */
  datatype FileType = FileType(mime: string, ext: string)

  /** A create request: the validator's verdict, the body, and whether an `image` file came with it. */
  datatype CreateRequest = CreateRequest(validation: Validation, body: Doc, hasFile: bool)

  /**
   * What the environment answers during one create: the server clock, the
   * user folder, the sniffed type (`None` when unknown), the file service's
   * answer and the id the metadata store offers for the new document.
   */
  datatype Env = Env(now: int, userId: string, sniffed: Option<FileType>, upload: UploadResult, insertedId: Option<Id>)

  /** Errors a handler throws (passed on to the error middleware, which answers 500). */
  datatype Failure = UploadFailed(message: string) | InsertFailed

  /** What a handler answers. */
  datatype Response =
    | Listed(items: seq<(Id, Doc)>)   // 200, JSON array
    | Found(id: Id, doc: Doc)         // 200, JSON document
    | Created(id: Id, record: Doc)    // 201, JSON document
    | NoContent                       // 204
    | Rejected(issues: seq<string>)   // 400, the validator's issues
    | MissingFile                     // 400, "Image file missing"
    | UnsupportedFormat               // 400, "Only images (png/bmp/webp/jpg) allowed"
    | NotFound                        // 404
    | ServerError(failure: Failure)   // thrown

  /** A state-changing handler's result: the stores afterwards and the response. */
  datatype Step = Step(world: World, response: Response)

  // ---------------------------------------------------------------------------
  // The format allow-list

  const ALLOWED_MIMES: set<string> := {"image/jpeg", "image/bmp", "image/webp", "image/png"}

  /**
   * The upload format for a sniffed type: `"." + ext` for an allowed MIME
   * type, nothing for any other type or an unknown one.
   */
  function FileFormat(sniffed: Option<FileType>): (format: Option<string>)
    ensures format.Some? <==> sniffed.Some? && sniffed.value.mime in ALLOWED_MIMES
    ensures format.Some? ==> format.value == "." + sniffed.value.ext
  {
    match sniffed
    case None => None
    case Some(t) =>
      match t.mime
      case "image/jpeg" => Some("." + t.ext)
      case "image/bmp" => Some("." + t.ext)
      case "image/webp" => Some("." + t.ext)
      case "image/png" => Some("." + t.ext)
      case _ => None
  }

  // ---------------------------------------------------------------------------
  // Ingestion

  /** The fields the ingestion handler sets itself, overriding the client. */
  const OWNED: set<string> := {DATE_ADDED, OBJECT_LINK, FILE_PATH}

  /** The `objectLink` the client asked for, read before it is cleared. */
  function RequestedLink(body: Doc): Option<Value>
  {
    if OBJECT_LINK in body then Some(body[OBJECT_LINK]) else None
  }

  /**
   * Linking is attempted unless the client sent exactly `""`: an absent
   * field is `undefined`, and `undefined !== ""`.
   */
  predicate LinkRequested(body: Doc)
  {
    RequestedLink(body) != Some(Str(""))
  }

  /** Validation passed, a file came and its sniffed type is allowed: the handler uploads. */
  predicate Admitted(req: CreateRequest, env: Env)
  {
    req.validation.Passed? && req.hasFile && FileFormat(env.sniffed).Some?
  }

  /** The store can take the offered id. */
  predicate Insertable(w: World, env: Env)
  {
    env.insertedId.Some? && env.insertedId.value !in w.images
  }

  /** The document the handler inserts: the body with its three owned fields stamped. */
  function Stamp(body: Doc, now: int, path: Path): (rec: Doc)
    ensures rec.Keys == body.Keys + OWNED
    ensures rec[DATE_ADDED] == Num(now) && rec[OBJECT_LINK] == Str("") && rec[FILE_PATH] == Str(path)
    ensures forall k :: k in body && k !in OWNED ==> rec[k] == body[k]
  {
    body[DATE_ADDED := Num(now)][OBJECT_LINK := Str("")][FILE_PATH := Str(path)]
  }

  /**
   * The reconciler's answer for the requested target. Only a string names an
   * object; an absent or numeric target makes the driver mint a fresh
   * ObjectId, which no object has.
   */
  function Reconcile(objects: map<Id, ObjectRecord>, target: Option<Value>, imageId: Id): (out: (map<Id, ObjectRecord>, Id))
    ensures target.Some? && target.value.Str? ==> out == AppendLink(objects, target.value.s, imageId)
    ensures out.0 != objects ==> target.Some? && target.value.Str? && target.value.s in objects
    ensures out.1 == "" || (target == Some(Str(out.1)) && out.1 in objects)
  {
    if target.Some? && target.value.Str? then AppendLink(objects, target.value.s, imageId) else (objects, "")
  }

  /** Stores only grow: no blob, upload request, object or object image entry is ever lost. */
  predicate Grows(a: World, b: World)
  {
    && a.blobs <= b.blobs
    && a.uploads <= b.uploads
    && forall k :: k in a.objects ==>
         && k in b.objects
         && a.objects[k].images <= b.objects[k].images
         && b.objects[k].fields == a.objects[k].fields
  }

  /** What the POST handler does, as a function of the stores before it and the environment. */
  function Create(w: World, req: CreateRequest, env: Env): (out: Step)
    // Nothing is written, and nothing is uploaded, unless validation, the file check and the allow-list pass.
    ensures !Admitted(req, env) ==> out.world == w
    ensures req.validation.Failed? ==> out.response == Rejected(req.validation.issues)
    ensures req.validation.Passed? && !req.hasFile ==> out.response == MissingFile
    ensures req.validation.Passed? && req.hasFile && FileFormat(env.sniffed).None? ==> out.response == UnsupportedFormat
    // Once admitted, exactly one upload is requested, in the sniffed format and the user's folder.
    ensures Admitted(req, env) ==>
      out.world.uploads == w.uploads + [UploadCall("." + env.sniffed.value.ext, env.userId)]
    // A failed upload throws before any metadata is written.
    ensures Admitted(req, env) && env.upload.UploadError? ==>
      && out.response == ServerError(UploadFailed(env.upload.message))
      && out.world.images == w.images && out.world.blobs == w.blobs && out.world.objects == w.objects
    // A failed insert throws; the uploaded file stays behind.
    ensures Admitted(req, env) && env.upload.Uploaded? && !Insertable(w, env) ==>
      && out.response == ServerError(InsertFailed)
      && out.world.images == w.images && out.world.objects == w.objects
      && out.world.blobs == w.blobs + {env.upload.filePath}
    // Otherwise the image is created, whatever becomes of the link.
    ensures Admitted(req, env) && env.upload.Uploaded? && Insertable(w, env) ==>
      out.response.Created? && out.response.id == env.insertedId.value
    // The created record is what is stored, under a new id, with the owned fields stamped.
    ensures out.response.Created? ==>
      var id, rec := out.response.id, out.response.record;
      && Admitted(req, env) && env.upload.Uploaded?
      && id !in w.images
      && out.world.images == w.images[id := rec]
      && out.world.blobs == w.blobs + {env.upload.filePath}
      && rec.Keys == req.body.Keys + OWNED
      && rec[DATE_ADDED] == Num(env.now)
      && rec[FILE_PATH] == Str(env.upload.filePath)
      && (forall k :: k in req.body && k !in OWNED ==> rec[k] == req.body[k])
    // The link is set only when it was requested and the reconciler found the object.
    ensures out.response.Created? ==>
      var id, rec := out.response.id, out.response.record;
      || (rec[OBJECT_LINK] == Str("") && out.world.objects == w.objects)
      || (exists o :: o in w.objects && rec[OBJECT_LINK] == Str(o) && RequestedLink(req.body) == Some(Str(o))
            && out.world.objects == w.objects[o := w.objects[o].(images := w.objects[o].images + [id])])
    ensures out.response.Created? && RequestedLink(req.body).Some? && RequestedLink(req.body).value.Str? ==>
      var o := RequestedLink(req.body).value.s;
      o in w.objects ==> out.response.record[OBJECT_LINK] == Str(o)
    ensures !LinkRequested(req.body) ==> out.world.objects == w.objects
    ensures Grows(w, out.world)
  {
    if req.validation.Failed? then Step(w, Rejected(req.validation.issues))
    else if !req.hasFile then Step(w, MissingFile)
    else match FileFormat(env.sniffed)
      case None => Step(w, UnsupportedFormat)
      case Some(format) =>
        var w1 := w.(uploads := w.uploads + [UploadCall(format, env.userId)]);
        match env.upload
        case UploadError(msg) => Step(w1, ServerError(UploadFailed(msg)))
        case Uploaded(path) =>
          var w2 := w1.(blobs := w1.blobs + {path});
          var rec := Stamp(req.body, env.now, path);
          if !Insertable(w2, env) then Step(w2, ServerError(InsertFailed))
          else
            var id := env.insertedId.value;
            if !LinkRequested(req.body) then Step(w2.(images := w2.images[id := rec]), Created(id, rec))
            else
              var (objects', added) := Reconcile(w2.objects, RequestedLink(req.body), id);
              var linked := Merge(rec, map[OBJECT_LINK := Str(added)]);
              Step(w2.(images := w2.images[id := linked], objects := objects'), Created(id, linked))
  }

  /** POST `/`: validate, stamp, check the file and its type, upload, insert, then optionally link. */
  method Post(st: Stores, req: CreateRequest, env: Env) returns (r: Response)
    modifies st
    ensures Step(st.Snapshot(), r) == Create(old(st.Snapshot()), req, env)
  {
    var body := req.body;
    if req.validation.Failed? {
      return Rejected(req.validation.issues);
    }
    body := body[DATE_ADDED := Num(env.now)];
    var objectLink := RequestedLink(body);
    body := body[OBJECT_LINK := Str("")];
    if !req.hasFile {
      return MissingFile;
    }
    var fileFormat := FileFormat(env.sniffed);
    if fileFormat.None? {
      return UnsupportedFormat;
    }
    var upload := st.PostImage(fileFormat.value, env.userId, env.upload);
    if upload.UploadError? {
      return ServerError(UploadFailed(upload.message));
    }
    body := body[FILE_PATH := Str(upload.filePath)];
    var insertedId := st.InsertOne(body, env.insertedId);
    if insertedId.None? {
      return ServerError(InsertFailed);
    }
    var id := insertedId.value;
    if objectLink != Some(Str("")) {
      var added := "";
      if objectLink.Some? && objectLink.value.Str? {
        added := AddImageLink(st, objectLink.value.s, id);
      }
      var matched := st.UpdateImage(id, map[OBJECT_LINK := Str(added)]);
      if matched == 1 {
        body := Merge(body, map[OBJECT_LINK := Str(added)]);
        return Created(id, body);
      }
    }
    return Created(id, body);
  }

  // ---------------------------------------------------------------------------
  // Deletion and partial update

  /** What DELETE `/:id` does: remove that one record if it exists. The file it names stays in the file service. */
  function Remove(w: World, id: Id): (out: Step)
    ensures out.response == NoContent <==> id in w.images
    ensures id !in w.images ==> out == Step(w, NotFound)
    ensures out.response == NoContent || out.response == NotFound
    ensures out.world.images.Keys == w.images.Keys - {id}
    ensures forall k :: k in w.images && k != id ==> out.world.images[k] == w.images[k]
    ensures out.world.blobs == w.blobs && out.world.objects == w.objects && out.world.uploads == w.uploads
  {
    if id in w.images then Step(w.(images := w.images - {id}), NoContent)
    else Step(w, NotFound)
  }

  /** DELETE `/:id`. */
  method Delete(st: Stores, id: Id) returns (r: Response)
    modifies st
    ensures Step(st.Snapshot(), r) == Remove(old(st.Snapshot()), id)
  {
    var deleted := st.DeleteImage(id);
    if deleted == 1 {
      return NoContent;
    }
    return NotFound;
  }

  /**
   * What PATCH `/:id` does: after validation, the fields of `patch` overwrite
   * those of the record with that id and every other field is kept.
   */
  function Update(w: World, id: Id, validation: Validation, patch: Doc): (out: Step)
    ensures validation.Failed? ==> out == Step(w, Rejected(validation.issues))
    ensures validation.Passed? ==> (out.response == NoContent <==> id in w.images)
    ensures validation.Passed? && id !in w.images ==> out == Step(w, NotFound)
    ensures out.response != NoContent ==> out.world == w
    ensures out.response == NoContent ==>
      && id in w.images
      && out.world.images.Keys == w.images.Keys
      && out.world.images[id].Keys == w.images[id].Keys + patch.Keys
      && (forall f :: f in patch ==> out.world.images[id][f] == patch[f])
      && (forall f :: f in w.images[id] && f !in patch ==> out.world.images[id][f] == w.images[id][f])
    ensures forall k :: k in w.images && k != id ==> out.world.images[k] == w.images[k]
    ensures validation.Passed? && patch == map[] ==> out.world == w
    ensures out.world.blobs == w.blobs && out.world.objects == w.objects && out.world.uploads == w.uploads
  {
    if validation.Failed? then Step(w, Rejected(validation.issues))
    else if id in w.images then Step(w.(images := w.images[id := Merge(w.images[id], patch)]), NoContent)
    else Step(w, NotFound)
  }

  /** PATCH `/:id`. */
  method Patch(st: Stores, id: Id, validation: Validation, patch: Doc) returns (r: Response)
    modifies st
    ensures Step(st.Snapshot(), r) == Update(old(st.Snapshot()), id, validation, patch)
  {
    if validation.Failed? {
      return Rejected(validation.issues);
    }
    var matched := st.UpdateImage(id, patch);
    if matched == 1 {
      return NoContent;
    }
    return NotFound;
  }

  // ---------------------------------------------------------------------------
  // Reads

  /** `cursor` visits every stored record exactly once: the order a `find()` cursor yields them in. */
  predicate Enumerates(cursor: seq<Id>, images: map<Id, Doc>)
  {
    && (forall i :: 0 <= i < |cursor| ==> cursor[i] in images)
    && (forall id :: id in images ==> id in cursor)
    && (forall i, j :: 0 <= i < j < |cursor| ==> cursor[i] != cursor[j])
  }

  /**
   * GET `/`: collect every record the cursor yields. The result is always a
   * list, an empty one included: an array is always truthy, so the handler's
   * 404 branch cannot be reached.
   */
  method GetAll(st: Stores, cursor: seq<Id>) returns (r: Response)
    requires Enumerates(cursor, st.images)
    ensures r.Listed?
    ensures |r.items| == |cursor|
    ensures forall j :: 0 <= j < |cursor| ==> r.items[j] == (cursor[j], st.images[cursor[j]])
    ensures forall i :: 0 <= i < |r.items| ==> r.items[i].0 in st.images && r.items[i].1 == st.images[r.items[i].0]
    ensures forall id :: id in st.images ==> exists i :: 0 <= i < |r.items| && r.items[i] == (id, st.images[id])
    ensures forall i, j :: 0 <= i < j < |r.items| ==> r.items[i].0 != r.items[j].0
  {
    var data: seq<(Id, Doc)> := [];
    var i := 0;
    while i < |cursor|
      invariant 0 <= i <= |cursor|
      invariant |data| == i
      invariant forall j :: 0 <= j < i ==> data[j] == (cursor[j], st.images[cursor[j]])
    {
      var item := (cursor[i], st.images[cursor[i]]);
      data := data + [item];
      i := i + 1;
    }
    forall id | id in st.images
      ensures exists j :: 0 <= j < |data| && data[j] == (id, st.images[id])
    {
      var j :| 0 <= j < |cursor| && cursor[j] == id;
      assert data[j] == (id, st.images[id]);
    }
    r := Listed(data);
  }

  /** GET `/:id`. */
  method GetOne(st: Stores, id: Id) returns (r: Response)
    ensures r.Found? <==> id in st.images
    ensures r.Found? ==> r.id == id && r.doc == st.images[id]
    ensures !r.Found? ==> r == NotFound
  {
    var data := st.FindImage(id);
    if data.Some? {
      return Found(id, data.value);
    }
    return NotFound;
  }

  // ---------------------------------------------------------------------------
  // Sequences of requests

  /** A state-changing request. */
  datatype Op =
    | CreateOp(req: CreateRequest, env: Env)
    | DeleteOp(id: Id)
    | PatchOp(id: Id, validation: Validation, patch: Doc)

  function Apply(w: World, op: Op): World
  {
    match op
    case CreateOp(req, env) => Create(w, req, env).world
    case DeleteOp(id) => Remove(w, id).world
    case PatchOp(id, validation, patch) => Update(w, id, validation, patch).world
  }

  /** The stores after serving `ops` one after another. */
  function Run(w: World, ops: seq<Op>): World
    decreases |ops|
  {
    if ops == [] then w else Run(Apply(w, ops[0]), ops[1..])
  }

  lemma GrowsTransitive(a: World, b: World, c: World)
    requires Grows(a, b) && Grows(b, c)
    ensures Grows(a, c)
  {
  }

  /**
   * Over any sequence of create, delete (`/:id`) and patch requests no
   * file leaves the file service, no upload request is forgotten, no object
   * disappears, and every object's image list only grows: none of these
   * requests ever removes any of them.
   */
  lemma {:induction false} RunGrows(w: World, ops: seq<Op>)
    ensures Grows(w, Run(w, ops))
    decreases |ops|
  {
    if ops != [] {
      var w1 := Apply(w, ops[0]);
      assert Grows(w, w1);
      RunGrows(w1, ops[1..]);
      GrowsTransitive(w, w1, Run(w1, ops[1..]));
    }
  }
}
