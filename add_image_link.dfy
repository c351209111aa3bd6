/**
 * The link reconciler: append an image id to one object's `images` list by
 * reading the object, extending the list and writing the whole list back.
 */
module ImageLink {
  import opened Wrappers
  import opened Documents
  import opened Stores

  /**
   * What a reconciliation does to the object collection and what it answers:
   * the object id on success, `""` when no object has that id.
   */
  function AppendLink(objects: map<Id, ObjectRecord>, objectId: Id, imageId: Id): (out: (map<Id, ObjectRecord>, Id))
    ensures out.1 == "" || out.1 == objectId
    ensures objectId !in objects ==> out.0 == objects && out.1 == ""
    ensures objectId in objects ==> out.1 == objectId
    ensures out.0.Keys == objects.Keys
    ensures forall k :: k in objects && k != objectId ==> out.0[k] == objects[k]
    ensures objectId in objects ==>
      && out.0[objectId].images == objects[objectId].images + [imageId]
      && out.0[objectId].fields == objects[objectId].fields
    ensures objectId in objects ==>
      && |out.0[objectId].images| == |objects[objectId].images| + 1
      && objects[objectId].images <= out.0[objectId].images
      && multiset(out.0[objectId].images)[imageId] == multiset(objects[objectId].images)[imageId] + 1
  {
    if objectId in objects then
      var data := objects[objectId];
      (objects[objectId := data.(images := data.images + [imageId])], objectId)
    else
      (objects, "")
  }

  /** `addImageLink(objectId, imageId)`: read, append in place, write back. */
  method AddImageLink(st: Stores, objectId: Id, imageId: Id) returns (r: Id)
    modifies st`objects
    ensures (st.objects, r) == AppendLink(old(st.objects), objectId, imageId)
  {
    var data := st.FindObject(objectId);
    if data.None? {
      return "";
    }
    var images := data.value.images + [imageId];
    var matched := st.SetObjectImages(objectId, images);
    if matched == 0 {
      return "";
    }
    return objectId;
  }
}
