/**
 * The object store behind image uploads: objects kept under their keys,
 * with the content type they were uploaded with.
 */
module FileStorage {
  import opened Wrappers

  type byte = bv8

  const OctetStream: string := "application/octet-stream"

  /** An object as the store keeps it. */
  datatype StoredObject = StoredObject(content: seq<byte>, contentType: string)

  /** What a read hands back: the bytes and a content type, never empty. */
  datatype Download = Download(content: seq<byte>, mediaType: string)

  /** The read of `key` from a set of objects: its bytes and its content type, or a generic binary type when none was recorded. */
  function Fetch(objects: map<string, StoredObject>, key: string): (r: Option<Download>)
    ensures r.Some? <==> key in objects
    ensures r.Some? ==> r.value.content == objects[key].content && r.value.mediaType != []
    ensures r.Some? && objects[key].contentType != [] ==> r.value.mediaType == objects[key].contentType
  {
    if key !in objects then None
    else
      var obj := objects[key];
      Some(Download(obj.content, if obj.contentType != [] then obj.contentType else OctetStream))
  }

  /** After an object is written under a key, a read of that key returns it, and reads of other keys are unaffected. */
  lemma FetchAfterPut(objects: map<string, StoredObject>, key: string, obj: StoredObject, other: string)
    ensures Fetch(objects[key := obj], key).Some? && Fetch(objects[key := obj], key).value.content == obj.content
    ensures obj.contentType != [] ==> Fetch(objects[key := obj], key) == Some(Download(obj.content, obj.contentType))
    ensures other != key ==> Fetch(objects[key := obj], other) == Fetch(objects, other)
  {
  }

  /** After a key is removed, it reads as absent, and reads of other keys are unaffected. */
  lemma FetchAfterRemove(objects: map<string, StoredObject>, key: string, other: string)
    ensures Fetch(objects - {key}, key).None?
    ensures other != key ==> Fetch(objects - {key}, other) == Fetch(objects, other)
  {
  }

  /** The file storage port, kept in memory: the bucket as a map from keys to objects. */
  class ObjectStore {
    var objects: map<string, StoredObject>

    constructor ()
      ensures objects == map[]
    {
      objects := map[];
    }

    /** `upload(content, key, content_type)`: the object is written under `key`, replacing any there, and `key` is returned. */
    method Upload(content: seq<byte>, key: string, contentType: string) returns (storedKey: string)
      modifies this
      ensures objects == old(objects)[key := StoredObject(content, contentType)]
      ensures storedKey == key
    {
      objects := objects[key := StoredObject(content, contentType)];
      storedKey := key;
    }

    /** `get(key)`: the bytes and content type of the object, `None` when there is none. */
    function Get(key: string): (r: Option<Download>)
      reads this
    {
      Fetch(objects, key)
    }

    /** `delete(key)`: `true` and the object removed when it existed, `false` and nothing changed otherwise. */
    method Delete(key: string) returns (deleted: bool)
      modifies this
      ensures deleted <==> key in old(objects)
      ensures objects == old(objects) - {key}
      ensures !deleted ==> objects == old(objects)
    {
      deleted := key in objects;
      if deleted {
        objects := objects - {key};
      }
    }
  }
}
