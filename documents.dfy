/**
 * The documents the two stores hold. A metadata document is a map from field
 * names to values; its `_id` is not a field but the key under which the store
 * keeps it.
 */
module Documents {

  /** Identifiers of image and object documents (the hex form of an ObjectId). */
  type Id = string

  /** A locator returned by the remote file service. */
  type Path = string

  /** A field value of a stored document. */
  datatype Value = Str(s: string) | Num(n: int)

  /** An image metadata document. */
  type Doc = map<string, Value>

  /** Field names the ingestion handler owns. */
  const DATE_ADDED: string := "dateAdded"
  const OBJECT_LINK: string := "objectLink"
  const FILE_PATH: string := "filePath"

  /** An object document: its list of image ids and its other fields. */
  datatype ObjectRecord = ObjectRecord(images: seq<Id>, fields: Doc)

  /** One upload the handler requested: the target format and folder. */
  datatype UploadCall = UploadCall(format: string, folder: string)

  /**
   * The effect of a `$set` update on one document: every field of `patch`
   * is overwritten, every other field keeps its value.
   */
  function Merge(doc: Doc, patch: Doc): (r: Doc)
    ensures r.Keys == doc.Keys + patch.Keys
    ensures forall k :: k in patch ==> r[k] == patch[k]
    ensures forall k :: k in doc && k !in patch ==> r[k] == doc[k]
    ensures patch == map[] ==> r == doc
  {
    doc + patch
  }
}
