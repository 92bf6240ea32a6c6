/** The blob log store: one bucket of named objects, each holding an array of
    records. A log is read whole and appended to by rewriting it whole. */
module BlobLog {

  /** What `bucket.get_blob` hands back: no object, or a handle on a named one. */
  datatype Handle = Absent | Blob(name: string)

  /** The records stored under `key`; a key never written reads as the empty log. */
  function Stored<T>(objects: map<string, seq<T>>, key: string): (content: seq<T>)
    ensures key !in objects ==> content == []
  {
    if key in objects then objects[key] else []
  }

  /** The bucket after one read-modify-write append of `record` under `key`. */
  function Appended<T>(objects: map<string, seq<T>>, key: string, record: T): (r: map<string, seq<T>>)
    ensures r.Keys == objects.Keys + {key}
    ensures Stored(r, key) == Stored(objects, key) + [record]
    ensures |Stored(r, key)| == |Stored(objects, key)| + 1
    ensures forall i :: 0 <= i < |Stored(objects, key)| ==> Stored(r, key)[i] == Stored(objects, key)[i]
    ensures forall k :: k != key ==> Stored(r, k) == Stored(objects, k)
  {
    objects[key := Stored(objects, key) + [record]]
  }

  /** Two appends to a key that held nothing leave exactly those two records, in order. */
  lemma AppendTwiceFromAbsent<T>(objects: map<string, seq<T>>, key: string, r1: T, r2: T)
    requires key !in objects
    ensures Stored(Appended(Appended(objects, key, r1), key, r2), key) == [r1, r2]
  {
  }

  /** Appending a series of records one at a time, in order. */
  function AppendedAll<T>(objects: map<string, seq<T>>, key: string, records: seq<T>): map<string, seq<T>>
    decreases |records|
  {
    if records == [] then objects
    else AppendedAll(Appended(objects, key, records[0]), key, records[1..])
  }

  /** A run of appends leaves the old log followed by the new records, in the order they
      were appended, and leaves every other key alone. */
  lemma {:induction false} AppendedAllLog<T>(objects: map<string, seq<T>>, key: string, records: seq<T>)
    ensures Stored(AppendedAll(objects, key, records), key) == Stored(objects, key) + records
    ensures forall k :: k != key ==> Stored(AppendedAll(objects, key, records), k) == Stored(objects, k)
    decreases |records|
  {
    if records != [] {
      var next := Appended(objects, key, records[0]);
      AppendedAllLog(next, key, records[1..]);
      assert Stored(objects, key) + [records[0]] + records[1..] == Stored(objects, key) + records;
    }
  }

  /** The bucket: the service's only durable state. `objects` maps each object name to
      the records its JSON array holds. */
  class Bucket<T> {
    var objects: map<string, seq<T>>

    constructor ()
      ensures objects == map[]
    {
      objects := map[];
    }

    /** `read_blob`: the whole log under `key` (empty when the object does not exist)
        and the handle `bucket.get_blob` returned. */
    method ReadBlob(key: string) returns (content: seq<T>, blob: Handle)
      ensures content == Stored(objects, key)
      ensures blob == (if key in objects then Blob(key) else Absent)
    {
      content := [];
      blob := Absent;
      if key in objects {
        blob := Blob(key);
        content := objects[key];
      }
    }

    /** `blob.upload_from_string`: replaces the object named by the handle, whole. */
    method UploadFromString(blob: Handle, content: seq<T>)
      requires blob.Blob?
      modifies this
      ensures objects == old(objects)[blob.name := content]
    {
      objects := objects[blob.name := content];
    }

    /** `read_append_blob`: read the whole log, append one record in memory, write the
        whole log back in one upload. */
    method ReadAppendBlob(data: T, key: string)
      modifies this
      ensures objects == Appended(old(objects), key, data)
    {
      var content, blob := ReadBlob(key);
      if content == [] {
        // Also taken when the object exists but holds an empty array; the fresh
        // handle names the same key, so the upload below is the same.
        blob := Blob(key);
      }
      content := content + [data];
      UploadFromString(blob, content);
    }
  }
}
