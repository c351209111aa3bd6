# Image ingestion and linking, modelled in Dafny

This project models the core of an image server. An upload is checked, its
content type is classified, the file goes to a remote file service, a metadata
document goes to a document store, and the new image can optionally be linked
into an "object" document's `images` list. The model also covers the
metadata read, delete and partial-update routes, and the link reconciler
(`addImageLink`).

The stores are abstract and live in one object, `Stores.Stores`:

- `images: map<Id, Doc>` is the image metadata collection. The `_id` is the key.
- `blobs: set<Path>` is the files the remote file service holds.
- `objects: map<Id, ObjectRecord>` is the object collection.
- `uploads: seq<UploadCall>` lists every upload the handler requested through `postImage`. This is how the model says "no upload was attempted".

Each external step is an input: the validator's verdict, whether a file came
with the request, the sniffed MIME type and extension, the file service's
answer, the id the store offers, the server clock and the user folder.

Each state-changing handler (`Images.Post`, `Images.Delete`, `Images.Patch`,
`ImageLink.AddImageLink`) is an imperative method on the stores. Its
postcondition equates the new stores and its response with a pure function:
`Images.Create`, `Images.Remove`, `Images.Update` or `ImageLink.AppendLink`.
Those functions' contracts state what the handler promises on every exit
path. `Images.RunGrows` is about any sequence of create, delete (`/:id`) and
patch requests: none of them ever removes a file from the file service, and
an object's image list only ever grows.

Files:

- `wrappers.dfy`: `Option`.
- `documents.dfy`: documents, values, the owned field names, and `$set` merging.
- `stores.dfy`: the stores, with one method per driver or client call.
- `add_image_link.dfy`: the link reconciler.
- `images.dfy`: the routes, their specifications and the multi-request lemma.

Behaviour of the code worth knowing:

- The stored record's `fileFormat` is not the classified format. `"." + ext` goes only to the upload request (src/routes/images.ts:106, 115-119). The record keeps whatever `fileFormat` the client sent, as one of its pass-through fields.
- The reconciler answers `""` after the write-back only when `matchedCount === 0` (src/utils/addImageLink.ts:25). In this sequential model the write-back always matches, because the read just found the object.
- Linking is attempted whenever `objectLink !== ""` (src/routes/images.ts:136), and that includes an absent field, since `undefined !== ""`. For an absent or numeric target, `new ObjectId` mints a fresh id that no object has, so the reconciler answers `""` (`Images.Reconcile`). Absent and numeric are the only non-string values a field can hold in this model.
- GET `/` never answers 404. The result is an array, and an array is always truthy, so `if (data)` always holds (src/routes/images.ts:40).
- After linking, the stored `objectLink` is set to the reconciler's answer, `""` included (src/routes/images.ts:142-148). The returned record takes that value only when this update matched one document. In a sequential run it always does.

## Model

| member | source | states |
|---|---|---|
| Images.FileFormat | src/routes/images.ts:99-111 | A format is produced exactly when the sniffed MIME type is one of image/jpeg, image/bmp, image/webp, image/png, and it is then `"." + ext`. An unknown type or any other MIME type gives none. |
| Images.Stamp | src/routes/images.ts:89-92 | The inserted document has the client's fields plus `dateAdded`, `objectLink` and `filePath`. Those three are the server time, `""` and the upload's path, whatever the client sent. Every other client field passes through unchanged. |
| Images.Create | src/routes/images.ts:80-160 | A failed validation, a missing file or a disallowed type leaves all stores unchanged, requests no upload, and gives the matching 400. Once admitted, exactly one upload is requested, with the sniffed format and the user folder. A failed upload throws and writes no metadata, file or object (an error answer is taken to mean nothing was stored). A failed insert throws and leaves the uploaded file orphaned. Otherwise the result is 201 with the stamped record, stored under a new id, and no other record changes. The link is `""` with objects unchanged, or it is the requested object, which then has the image id appended. It is set whenever that object exists. Linking is skipped when the client sent `""`. The stores only grow. |
| Images.Reconcile | src/routes/images.ts:136-140 | A string target is handed to the reconciler. An absent or numeric target links nothing and answers `""`. The answer is `""`, or else the requested object's id, and that object exists. |
| Images.Post | src/routes/images.ts:80-160 | The handler's ordered steps, with their early exits, give exactly the stores and response of `Images.Create`. |
| Images.Remove | src/routes/images.ts:162-177 | 204 when the id exists, and then exactly that key is removed. Otherwise 404 with no change. Other records, files and objects are untouched. |
| Images.Delete | src/routes/images.ts:162-177 | The handler's stores and response are those of `Images.Remove`. |
| Images.Update | src/routes/images.ts:192-214 | A failed validation gives 400 with the issues and no change. Otherwise the result is 204 exactly when the id exists, and otherwise 404 with no change. On 204, the body's fields overwrite the record's, absent fields keep their values, and an empty body changes nothing. Other records are untouched. |
| Images.Patch | src/routes/images.ts:192-214 | The handler's stores and response are those of `Images.Update`. |
| Images.GetAll | src/routes/images.ts:30-48 | The result is always a 200 list. It holds the records in cursor order, one per cursor entry, so every stored record appears exactly once, each with its own id. |
| Images.GetOne | src/routes/images.ts:50-65 | The record with that id when it exists, otherwise 404. |
| Images.RunGrows | src/routes/images.ts:115-156 | Over any sequence of create, delete and patch requests, no file leaves the file service and no upload request is forgotten. No object disappears or changes its other fields, and each object's image list only grows. |
| ImageLink.AppendLink | src/utils/addImageLink.ts:9-29 | When no object has the id, the result is `""` and objects are unchanged. Otherwise the result is the object id, and that object's `images` is the old list followed by the image id. That list is one longer, keeps the old list as a prefix, and holds one more copy of the id, because duplicates are not filtered. Other objects and fields are unchanged. The result is always `""` or the object id. |
| ImageLink.AddImageLink | src/utils/addImageLink.ts:4-30 | The read, in-place append and write-back give exactly the objects and result of `ImageLink.AppendLink`. |
| Documents.Merge | src/routes/images.ts:200-204 | A `$set` update overwrites the fields present in the patch and keeps every other field. An empty patch changes nothing. |
| Stores.Stores.FindImage | src/routes/images.ts:53-55 | Finds the record exactly when the id is stored. |
| Stores.Stores.InsertOne | src/routes/images.ts:128-132 | Stores the document under the offered id and reports it. When there is no id, or the id is taken, it stores nothing. |
| Stores.Stores.UpdateImage | src/routes/images.ts:143-150 | matched is 1 exactly when the id is stored, and the record is then merged with the patch. Otherwise nothing changes. |
| Stores.Stores.DeleteImage | src/routes/images.ts:165-169 | deleted is 1 exactly when the id was stored. Afterwards the key is absent. |
| Stores.Stores.FindObject | src/utils/addImageLink.ts:10-16 | Finds the object exactly when the id is stored. |
| Stores.Stores.SetObjectImages | src/utils/addImageLink.ts:20-27 | matched is 1 exactly when the object exists. Only that object's `images` is replaced. |
| Stores.Stores.PostImage | src/routes/images.ts:115-123 | Records the requested upload. The path is added to the files only when the service reports success. |

## Left out

- The `GET /file/:id` and `DELETE /file/:id` routes only forward to the file-service client, and they pass it arguments of the wrong shape. They hold no logic to model.
- The file-service HTTP client (`src/fileServer/api.ts`) is reduced to its outcome: an error, or the stored file's path (`Stores.Stores.PostImage`).
- Stores.Stores.PostImage: an error answer is taken to mean that no file was stored. In the code, `postImage` also reports an error when the service answered 2xx but its reply could not be parsed (src/fileServer/api.ts:66-75). The file is then already stored, so `Images.Create`'s "a failed upload leaves the files unchanged" holds only under this abstraction. It also reports an error when the temporary file cannot be read, in which case no request is sent.
- A link target that is a boolean, an array or a nested object makes `new ObjectId` throw inside the reconciler. The result is a 500 after the image was inserted. `Documents.Value` holds only strings and numbers, so these targets are not modelled.
- Express routing, the upload middleware's limits and HTTP plumbing are replaced by the `Response` datatype. Its comments give each case's status code.
- Content sniffing is a foreign library. The sniffed MIME type and extension are inputs.
- The validation schemas are not part of this model, and neither is the user-id lookup. The validator's verdict and the user folder are inputs.
- A client-sent `_id` in a POST body is treated as an ordinary field, and the record is stored under the id the store offers. In the code the body is passed to `insertOne` as it is (src/routes/images.ts:128), so the driver uses the client's `_id` as the key. If linking was requested, `new ObjectId(insertedId)` (src/routes/images.ts:146) then either throws, giving a 500 after the insert and after the object's list was extended, or matches nothing, giving 201 with `objectLink` `""`.
- A string link target that is not a valid ObjectId, such as `"abc"`, makes `new ObjectId` throw inside the reconciler (src/utils/addImageLink.ts:12). The result is a 500 after the image was inserted. The model treats every string as an id and answers 201, unlinked when no object has it.
- MongoDB driver behaviour is not modelled: ObjectId parsing of malformed id strings (which throws), cursor mechanics, and `$set` rejecting `_id` or an empty operand on old servers. Ids are opaque strings, and a `find()` cursor is a given enumeration of the stored ids.
- The reconciler is not given the user-folder collection argument, because the handler does not pass one. There is one object collection.
- `ImageLink.AppendLink` assumes every object document has an `images` list. In the code, a missing list makes `push` throw after the image was inserted.
- Concurrency is left out. In particular, the lost update between two concurrent reconciliations of one object cannot occur in this sequential model.
- The server clock, the user folder and the id the store offers are inputs (`Images.Env`).
