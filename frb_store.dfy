/** The key-value contract the dashboard keeps its records in: `getData(key)` and `setData(key, value)`. */
module FrbStore {
  import opened FrbRecords
  import opened FrbLoad

  /** The key of the record object with the given id: the prefix "frb_", then the id. */
  function RecordKey(id: string): (key: string)
    ensures |key| == |id| + 4 && key[..4] == "frb_" && key[4..] == id
  {
    "frb_" + id
  }

  /** The key of the id index, which is the record key an id "keys" would have. */
  function IndexKey(): (key: string)
    ensures key == RecordKey("keys")
  {
    "frb_keys"
  }

  /** Distinct ids have distinct record keys, and the only id whose record key is the index key
      is "keys". */
  lemma RecordKeys(a: string, b: string)
    ensures RecordKey(a) == RecordKey(b) <==> a == b
    ensures RecordKey(a) == IndexKey() <==> a == "keys"
  {
  }

  class Store {
    /** The record objects, by id; an id that is not a key here reads as no bytes. */
    var blobs: map<string, Blob>
    /** What "frb_keys" holds. */
    var index: IndexBlob
    /** The keys written so far, in order. */
    ghost var writes: seq<string>

    constructor (blobs: map<string, Blob>, index: IndexBlob)
      ensures this.blobs == blobs && this.index == index && writes == []
    {
      this.blobs := blobs;
      this.index := index;
      writes := [];
    }

    /** `getData("frb_" + id)`. */
    function RecordAt(id: string): (b: Blob)
      reads this
    {
      Lookup(blobs, id)
    }

    /** `setData("frb_" + id, s)`. */
    method SetRecord(id: string, s: Stored)
      modifies this
      ensures blobs == old(blobs)[id := Rec(s)] && index == old(index)
      ensures writes == old(writes) + [RecordKey(id)]
    {
      blobs := blobs[id := Rec(s)];
      writes := writes + [RecordKey(id)];
    }

    /** `setData("frb_keys", ids)`. */
    method SetIndex(ids: seq<string>)
      modifies this
      ensures index == Ids(ids) && blobs == old(blobs)
      ensures writes == old(writes) + [IndexKey()]
    {
      index := Ids(ids);
      writes := writes + [IndexKey()];
    }

    /** Every indexed id has a record object behind it. */
    ghost predicate IndexBacked()
      reads this
    {
      Backed(blobs, ParsedKeys(index))
    }
  }
}
