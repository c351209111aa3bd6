/**
 * The three stores the handlers act on, held in one object: the image
 * metadata collection, the remote file service and the object collection.
 * Each method is one driver or client call and returns the count the source
 * inspects (`insertedId`, `matchedCount`, `deletedCount`).
 */
module Stores {
  import opened Wrappers
  import opened Documents

  /** What `postImage` reports: an error, or the stored file's path. */
  datatype UploadResult = UploadError(message: string) | Uploaded(filePath: Path)

  /** A value snapshot of all stores. */
  datatype World = World(
    images: map<Id, Doc>,
    blobs: set<Path>,
    objects: map<Id, ObjectRecord>,
    uploads: seq<UploadCall>)

  class Stores {
    /** The image metadata collection, by `_id`. */
    var images: map<Id, Doc>
    /** The files the remote file service holds. */
    var blobs: set<Path>
    /** The object collection, by `_id`. */
    var objects: map<Id, ObjectRecord>
    /** Every upload the handlers requested through `postImage`, in order. */
    var uploads: seq<UploadCall>

    constructor (images: map<Id, Doc>, blobs: set<Path>, objects: map<Id, ObjectRecord>)
      ensures this.images == images && this.blobs == blobs && this.objects == objects
      ensures uploads == []
    {
      this.images := images;
      this.blobs := blobs;
      this.objects := objects;
      uploads := [];
    }

    function Snapshot(): World
      reads this
    {
      World(images, blobs, objects, uploads)
    }

    /** `findOne({_id})` on the image collection. */
    method FindImage(id: Id) returns (r: Option<Doc>)
      ensures r.Some? <==> id in images
      ensures r.Some? ==> r.value == images[id]
    {
      r := if id in images then Some(images[id]) else None;
    }

    /**
     * `insertOne(doc)`. The store offers `candidate` as the new `_id`; no id
     * at all, or one already taken (a duplicate-key error), stores nothing.
     */
    method InsertOne(doc: Doc, candidate: Option<Id>) returns (insertedId: Option<Id>)
      modifies this`images
      ensures insertedId.Some? <==> candidate.Some? && candidate.value !in old(images)
      ensures insertedId.Some? ==> insertedId == candidate && images == old(images)[insertedId.value := doc]
      ensures insertedId.None? ==> images == old(images)
    {
      if candidate.Some? && candidate.value !in images {
        images := images[candidate.value := doc];
        insertedId := candidate;
      } else {
        insertedId := None;
      }
    }

    /** `updateOne({_id}, {$set: patch})` on the image collection. */
    method UpdateImage(id: Id, patch: Doc) returns (matched: nat)
      modifies this`images
      ensures matched == 1 <==> id in old(images)
      ensures matched == 0 <==> id !in old(images)
      ensures images == if id in old(images) then old(images)[id := Merge(old(images)[id], patch)] else old(images)
    {
      if id in images {
        images := images[id := Merge(images[id], patch)];
        matched := 1;
      } else {
        matched := 0;
      }
    }

    /** `deleteOne({_id})` on the image collection. */
    method DeleteImage(id: Id) returns (deleted: nat)
      modifies this`images
      ensures deleted == 1 <==> id in old(images)
      ensures deleted == 0 <==> id !in old(images)
      ensures images == old(images) - {id}
    {
      deleted := if id in images then 1 else 0;
      images := images - {id};
    }

    /** `findOne({_id})` on the object collection. */
    method FindObject(id: Id) returns (r: Option<ObjectRecord>)
      ensures r.Some? <==> id in objects
      ensures r.Some? ==> r.value == objects[id]
    {
      r := if id in objects then Some(objects[id]) else None;
    }

    /** `updateOne({_id}, {$set: {images}})` on the object collection. */
    method SetObjectImages(id: Id, imageIds: seq<Id>) returns (matched: nat)
      modifies this`objects
      ensures matched == 1 <==> id in old(objects)
      ensures matched == 0 <==> id !in old(objects)
      ensures objects == if id in old(objects) then old(objects)[id := old(objects)[id].(images := imageIds)] else old(objects)
    {
      if id in objects {
        objects := objects[id := objects[id].(images := imageIds)];
        matched := 1;
      } else {
        matched := 0;
      }
    }

    /**
     * `postImage(tempFile, format, folder)` against the remote file service.
     * What `postImage` reports is `outcome`; the request is recorded either
     * way, and an error report is taken to mean that no file was stored.
     */
    method PostImage(format: string, folder: string, outcome: UploadResult) returns (r: UploadResult)
      modifies this`uploads, this`blobs
      ensures r == outcome
      ensures uploads == old(uploads) + [UploadCall(format, folder)]
      ensures blobs == if outcome.Uploaded? then old(blobs) + {outcome.filePath} else old(blobs)
    {
      uploads := uploads + [UploadCall(format, folder)];
      if outcome.Uploaded? {
        blobs := blobs + {outcome.filePath};
      }
      r := outcome;
    }
  }
}
