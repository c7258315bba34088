/** What loading the dashboard computes from the two kinds of stored entries: the id index under
    "frb_keys" and one record object under "frb_<id>" per id. */
module FrbLoad {
  import opened FrbRecords

  /** The row an id contributes, if its stored entry is a record object. */
  predicate RowFor(blobs: map<string, Blob>, id: string, r: FrbData)
  {
    Lookup(blobs, id).Rec? && r == ToFrbData(id, Lookup(blobs, id).stored)
  }

  /** The rows the loading loop pushes, in index order: ids whose entry is empty or does not
      parse are skipped, every other id gives one row. */
  function Collect(ids: seq<string>, blobs: map<string, Blob>): (rows: seq<FrbData>)
    ensures |rows| <= |ids|
  {
    if ids == [] then []
    else
      var id := ids[|ids| - 1];
      Collect(ids[..|ids| - 1], blobs) + (if Lookup(blobs, id).Rec? then [ToFrbData(id, Lookup(blobs, id).stored)] else [])
  }

  /** The ids of a list of rows. */
  function IdsOf(rows: seq<FrbData>): (ids: seq<string>)
    ensures |ids| == |rows|
  {
    if rows == [] then [] else IdsOf(rows[..|rows| - 1]) + [rows[|rows| - 1].id]
  }

  lemma {:induction false} IdsOfAppend(a: seq<FrbData>, b: seq<FrbData>)
    ensures IdsOf(a + b) == IdsOf(a) + IdsOf(b)
    decreases |b|
  {
    if b == [] {
      assert a + b == a;
    } else {
      assert (a + b)[..|a + b| - 1] == a + b[..|b| - 1];
      IdsOfAppend(a, b[..|b| - 1]);
    }
  }

  /** A row is collected exactly when it is the row of some id of the index whose entry is a
      record object. */
  lemma {:induction false} CollectMembers(ids: seq<string>, blobs: map<string, Blob>, r: FrbData)
    ensures r in Collect(ids, blobs) <==> exists id :: id in ids && RowFor(blobs, id, r)
  {
    if ids != [] {
      var init, id := ids[..|ids| - 1], ids[|ids| - 1];
      assert ids == init + [id];
      CollectMembers(init, blobs, r);
      var tail := if Lookup(blobs, id).Rec? then [ToFrbData(id, Lookup(blobs, id).stored)] else [];
      assert Collect(ids, blobs) == Collect(init, blobs) + tail;
      assert r in tail <==> RowFor(blobs, id, r);
      if r in Collect(init, blobs) {
        var i :| i in init && RowFor(blobs, i, r);
        assert i in ids;
      }
      if exists i :: i in ids && RowFor(blobs, i, r) {
        var i :| i in ids && RowFor(blobs, i, r);
        if i != id {
          assert i in init;
        }
      }
    }
  }

  /** Each occurrence of an id in the index gives one row with that id when its entry is a record
      object, and none otherwise. */
  lemma {:induction false} CollectOccurrences(ids: seq<string>, blobs: map<string, Blob>, id: string)
    ensures multiset(IdsOf(Collect(ids, blobs)))[id] == if Lookup(blobs, id).Rec? then multiset(ids)[id] else 0
  {
    if ids != [] {
      var init, last := ids[..|ids| - 1], ids[|ids| - 1];
      assert ids == init + [last];
      CollectOccurrences(init, blobs, id);
      var tail := if Lookup(blobs, last).Rec? then [ToFrbData(last, Lookup(blobs, last).stored)] else [];
      IdsOfAppend(Collect(init, blobs), tail);
    }
  }

  /** Every id of the list has a record object behind it. */
  predicate Backed(blobs: map<string, Blob>, ids: seq<string>)
  {
    forall i :: 0 <= i < |ids| ==> Lookup(blobs, ids[i]).Rec?
  }

  /** When every id is backed, nothing is skipped: the i-th row is the row of the i-th id. */
  lemma {:induction false} CollectBacked(ids: seq<string>, blobs: map<string, Blob>)
    requires Backed(blobs, ids)
    ensures |Collect(ids, blobs)| == |ids|
    ensures forall i :: 0 <= i < |ids| ==> Collect(ids, blobs)[i] == ToFrbData(ids[i], Lookup(blobs, ids[i]).stored)
  {
    if ids != [] {
      CollectBacked(ids[..|ids| - 1], blobs);
    }
  }

  /** Entries under ids the index does not hold do not affect what is collected. */
  lemma {:induction false} CollectIgnoresOtherIds(ids: seq<string>, blobs: map<string, Blob>, id: string, b: Blob)
    requires id !in ids
    ensures Collect(ids, blobs[id := b]) == Collect(ids, blobs)
  {
    if ids != [] {
      assert ids[|ids| - 1] != id;
      CollectIgnoresOtherIds(ids[..|ids| - 1], blobs, id, b);
    }
  }

  // ---------------------------------------------------------------------------------------------
  // Newest first

  /** Non-increasing timestamps. */
  predicate NewestFirst(rows: seq<FrbData>)
  {
    forall i, j :: 0 <= i < j < |rows| ==> rows[i].timestamp >= rows[j].timestamp
  }

  /** Puts x into a newest-first list after every row at least as new as x. */
  function Insert(rows: seq<FrbData>, x: FrbData): (r: seq<FrbData>)
  {
    if rows == [] || rows[|rows| - 1].timestamp >= x.timestamp then rows + [x]
    else Insert(rows[..|rows| - 1], x) + [rows[|rows| - 1]]
  }

  /** The order `list.sort((a, b) => b.timestamp - a.timestamp)` gives: newest first and, as the
      sort is stable, rows with equal timestamps in collection order. */
  function SortByTimestamp(rows: seq<FrbData>): (r: seq<FrbData>)
  {
    if rows == [] then [] else Insert(SortByTimestamp(rows[..|rows| - 1]), rows[|rows| - 1])
  }

  lemma {:induction false} InsertPermutes(rows: seq<FrbData>, x: FrbData)
    ensures multiset(Insert(rows, x)) == multiset(rows) + multiset{x}
  {
    if !(rows == [] || rows[|rows| - 1].timestamp >= x.timestamp) {
      var init := rows[..|rows| - 1];
      assert rows == init + [rows[|rows| - 1]];
      InsertPermutes(init, x);
    }
  }

  lemma {:induction false} InsertKeepsNewestFirst(rows: seq<FrbData>, x: FrbData)
    requires NewestFirst(rows)
    ensures NewestFirst(Insert(rows, x))
  {
    if !(rows == [] || rows[|rows| - 1].timestamp >= x.timestamp) {
      var init, last := rows[..|rows| - 1], rows[|rows| - 1];
      InsertKeepsNewestFirst(init, x);
      InsertPermutes(init, x);
      var front := Insert(init, x);
      forall k | 0 <= k < |front|
        ensures front[k].timestamp >= last.timestamp
      {
        assert front[k] in multiset(init) + multiset{x};
        if front[k] != x {
          var m :| 0 <= m < |init| && init[m] == front[k];
          assert rows[m] == init[m];
        }
      }
    }
  }

  /** The sort gives a list holding exactly the rows it was given. */
  lemma {:induction false} SortPermutes(rows: seq<FrbData>)
    ensures multiset(SortByTimestamp(rows)) == multiset(rows)
  {
    if rows != [] {
      var init, last := rows[..|rows| - 1], rows[|rows| - 1];
      assert rows == init + [last];
      SortPermutes(init);
      InsertPermutes(SortByTimestamp(init), last);
    }
  }

  /** The sort gives a newest-first list holding exactly the rows it was given. */
  lemma {:induction false} SortByTimestampCorrect(rows: seq<FrbData>)
    ensures NewestFirst(SortByTimestamp(rows))
    ensures multiset(SortByTimestamp(rows)) == multiset(rows)
  {
    SortPermutes(rows);
    if rows != [] {
      var init, last := rows[..|rows| - 1], rows[|rows| - 1];
      SortByTimestampCorrect(init);
      InsertKeepsNewestFirst(SortByTimestamp(init), last);
    }
  }

  // ---------------------------------------------------------------------------------------------
  // The whole load

  /** The dashboard list a load produces from the stored entries. */
  function LoadedRows(blobs: map<string, Blob>, ix: IndexBlob): (rows: seq<FrbData>)
  {
    SortByTimestamp(Collect(ParsedKeys(ix), blobs))
  }

  /** Loading an index that is empty or does not parse gives an empty list. */
  lemma LoadWithoutIndex(blobs: map<string, Blob>, ix: IndexBlob)
    requires !ix.Ids?
    ensures LoadedRows(blobs, ix) == []
  {
  }

  /** The loaded list is newest first, and a row is in it exactly when it is the row of an
      indexed id whose entry is a record object, as often as that id is indexed. */
  lemma LoadedRowsCorrect(blobs: map<string, Blob>, ix: IndexBlob)
    ensures NewestFirst(LoadedRows(blobs, ix))
    ensures multiset(LoadedRows(blobs, ix)) == multiset(Collect(ParsedKeys(ix), blobs))
    ensures forall r :: r in LoadedRows(blobs, ix) <==> exists id :: id in ParsedKeys(ix) && RowFor(blobs, id, r)
  {
    var c := Collect(ParsedKeys(ix), blobs);
    SortByTimestampCorrect(c);
    forall r
      ensures r in LoadedRows(blobs, ix) <==> exists id :: id in ParsedKeys(ix) && RowFor(blobs, id, r)
    {
      CollectMembers(ParsedKeys(ix), blobs, r);
      assert r in LoadedRows(blobs, ix) <==> r in multiset(c);
    }
  }

  /** When every indexed id is backed by a record object, the load shows one row per index entry. */
  lemma BackedLoadsEveryEntry(blobs: map<string, Blob>, ix: IndexBlob)
    requires Backed(blobs, ParsedKeys(ix))
    ensures |LoadedRows(blobs, ix)| == |ParsedKeys(ix)|
  {
    CollectBacked(ParsedKeys(ix), blobs);
    SortPermutes(Collect(ParsedKeys(ix), blobs));
    assert |multiset(LoadedRows(blobs, ix))| == |multiset(Collect(ParsedKeys(ix), blobs))|;
  }

  lemma {:induction false} InsertCounts(rows: seq<FrbData>, x: FrbData, s: Status)
    ensures CountStatus(Insert(rows, x), s) == CountStatus(rows, s) + (if x.status == s then 1 else 0)
  {
    if !(rows == [] || rows[|rows| - 1].timestamp >= x.timestamp) {
      var init, last := rows[..|rows| - 1], rows[|rows| - 1];
      assert rows == init + [last];
      InsertCounts(init, x, s);
      assert (Insert(init, x) + [last])[..|Insert(init, x)|] == Insert(init, x);
    } else {
      assert (rows + [x])[..|rows|] == rows;
    }
  }

  /** The stage counters read the same before and after sorting. */
  lemma {:induction false} SortKeepsCounts(rows: seq<FrbData>, s: Status)
    ensures CountStatus(SortByTimestamp(rows), s) == CountStatus(rows, s)
  {
    if rows != [] {
      SortKeepsCounts(rows[..|rows| - 1], s);
      InsertCounts(SortByTimestamp(rows[..|rows| - 1]), rows[|rows| - 1], s);
    }
  }

  /** The dashboard counters of the loaded list are those of the collected rows. */
  lemma LoadedCounts(blobs: map<string, Blob>, ix: IndexBlob, s: Status)
    ensures CountStatus(LoadedRows(blobs, ix), s) == CountStatus(Collect(ParsedKeys(ix), blobs), s)
  {
    SortKeepsCounts(Collect(ParsedKeys(ix), blobs), s);
  }

  /** Submitting and then loading: the new record shows up as a raw row. */
  lemma SubmitThenLoad(blobs: map<string, Blob>, ix: IndexBlob, dataId: string, s: Stored)
    requires s.status == Some(Raw)
    ensures ToFrbData(dataId, s).status == Raw
    ensures ToFrbData(dataId, s) in LoadedRows(blobs[dataId := Rec(s)], Ids(ParsedKeys(ix) + [dataId]))
  {
    var ids := ParsedKeys(ix);
    CollectAppended(ids, blobs, dataId, s);
    var c' := Collect(ids + [dataId], blobs[dataId := Rec(s)]);
    SortPermutes(c');
    assert ToFrbData(dataId, s) in multiset(c');
  }

  /** When the submitted id was not indexed before, loading afterwards shows the rows shown
      before plus the new one. */
  lemma SubmitFreshThenLoad(blobs: map<string, Blob>, ix: IndexBlob, dataId: string, s: Stored)
    requires dataId !in ParsedKeys(ix)
    ensures multiset(LoadedRows(blobs[dataId := Rec(s)], Ids(ParsedKeys(ix) + [dataId])))
      == multiset(LoadedRows(blobs, ix)) + multiset{ToFrbData(dataId, s)}
  {
    var ids := ParsedKeys(ix);
    var c := Collect(ids, blobs);
    CollectAppended(ids, blobs, dataId, s);
    var c' := Collect(ids + [dataId], blobs[dataId := Rec(s)]);
    assert c' == c + [ToFrbData(dataId, s)];
    SortPermutes(c');
    SortPermutes(c);
  }

  /** When the submitted id was not indexed before, loading afterwards shows it exactly once. */
  lemma SubmitFreshShowsOnce(blobs: map<string, Blob>, ix: IndexBlob, dataId: string, s: Stored)
    requires dataId !in ParsedKeys(ix)
    ensures multiset(IdsOf(LoadedRows(blobs[dataId := Rec(s)], Ids(ParsedKeys(ix) + [dataId]))))[dataId] == 1
  {
    var ids := ParsedKeys(ix);
    var c, row := Collect(ids, blobs), ToFrbData(dataId, s);
    CollectAppended(ids, blobs, dataId, s);
    var c' := Collect(ids + [dataId], blobs[dataId := Rec(s)]);
    assert c' == c + [row];
    assert multiset(IdsOf(c))[dataId] == 0 by {
      CollectOccurrences(ids, blobs, dataId);
      assert multiset(ids)[dataId] == 0;
    }
    assert IdsOf([row]) == [dataId] by {
      assert [row][..0] == [];
    }
    assert IdsOf(c') == IdsOf(c) + [dataId] by {
      IdsOfAppend(c, [row]);
    }
    SortKeepsIds(c');
  }

  /** The rows collected after a submission: those of the earlier ids, then the new one. */
  lemma CollectAppended(ids: seq<string>, blobs: map<string, Blob>, dataId: string, s: Stored)
    ensures Collect(ids + [dataId], blobs[dataId := Rec(s)])
      == Collect(ids, blobs[dataId := Rec(s)]) + [ToFrbData(dataId, s)]
    ensures dataId !in ids ==>
      Collect(ids + [dataId], blobs[dataId := Rec(s)]) == Collect(ids, blobs) + [ToFrbData(dataId, s)]
  {
    assert (ids + [dataId])[..|ids|] == ids;
    if dataId !in ids {
      CollectIgnoresOtherIds(ids, blobs, dataId, Rec(s));
    }
  }

  lemma {:induction false} InsertKeepsIds(rows: seq<FrbData>, x: FrbData)
    ensures multiset(IdsOf(Insert(rows, x))) == multiset(IdsOf(rows)) + multiset{x.id}
  {
    if rows == [] || rows[|rows| - 1].timestamp >= x.timestamp {
      IdsOfAppend(rows, [x]);
    } else {
      var init, last := rows[..|rows| - 1], rows[|rows| - 1];
      assert rows == init + [last];
      InsertKeepsIds(init, x);
      IdsOfAppend(Insert(init, x), [last]);
      IdsOfAppend(init, [last]);
    }
  }

  /** Sorting keeps the ids of the rows, with their multiplicities. */
  lemma {:induction false} SortKeepsIds(rows: seq<FrbData>)
    ensures multiset(IdsOf(SortByTimestamp(rows))) == multiset(IdsOf(rows))
  {
    if rows != [] {
      var init, last := rows[..|rows| - 1], rows[|rows| - 1];
      assert rows == init + [last];
      SortKeepsIds(init);
      InsertKeepsIds(SortByTimestamp(init), last);
      IdsOfAppend(init, [last]);
    }
  }

  /** Rewriting one record object with a new status changes the rows of that id: each of them
      carries the new status and otherwise the stored fields, and the row is collected whenever
      its id is indexed. */
  lemma {:induction false} CollectAdvanced(ids: seq<string>, blobs: map<string, Blob>, id: string, s: Stored, target: Status)
    requires Lookup(blobs, id) == Rec(s)
    ensures forall r :: r in Collect(ids, blobs[id := Rec(s.(status := Some(target)))]) && r.id == id ==>
      r == ToFrbData(id, s).(status := target)
    ensures id in ids ==> ToFrbData(id, s).(status := target) in Collect(ids, blobs[id := Rec(s.(status := Some(target)))])
  {
    if ids != [] {
      var init, last := ids[..|ids| - 1], ids[|ids| - 1];
      CollectAdvanced(init, blobs, id, s, target);
      assert id in ids && last != id ==> id in init;
    }
  }

  /** Rewriting one record object with a new status leaves every row of another id collected as
      often as before. */
  lemma {:induction false} CollectAdvancedOthers(ids: seq<string>, blobs: map<string, Blob>, id: string, s: Stored, target: Status, r: FrbData)
    requires Lookup(blobs, id) == Rec(s) && r.id != id
    ensures multiset(Collect(ids, blobs[id := Rec(s.(status := Some(target)))]))[r] == multiset(Collect(ids, blobs))[r]
  {
    var blobs' := blobs[id := Rec(s.(status := Some(target)))];
    if ids != [] {
      var init, last := ids[..|ids| - 1], ids[|ids| - 1];
      CollectAdvancedOthers(init, blobs, id, s, target, r);
      var tail := if Lookup(blobs, last).Rec? then [ToFrbData(last, Lookup(blobs, last).stored)] else [];
      var tail' := if Lookup(blobs', last).Rec? then [ToFrbData(last, Lookup(blobs', last).stored)] else [];
      assert Collect(ids, blobs) == Collect(init, blobs) + tail;
      assert Collect(ids, blobs') == Collect(init, blobs') + tail';
      assert multiset(tail')[r] == multiset(tail)[r] by {
        if last == id {
          assert tail == [ToFrbData(id, s)] && tail' == [ToFrbData(id, s).(status := target)];
        } else {
          assert tail' == tail;
        }
      }
    }
  }

  /** Advancing a record and then loading: the record is shown with the new stage and otherwise
      the stored fields whenever its id is indexed, no other row carries its id, and every row of
      another id is shown as often as before. */
  lemma AdvanceThenLoad(blobs: map<string, Blob>, ix: IndexBlob, id: string, s: Stored, target: Status)
    requires Lookup(blobs, id) == Rec(s)
    ensures forall r :: r in LoadedRows(blobs[id := Rec(s.(status := Some(target)))], ix) && r.id == id ==>
      r == ToFrbData(id, s).(status := target)
    ensures id in ParsedKeys(ix) ==>
      ToFrbData(id, s).(status := target) in LoadedRows(blobs[id := Rec(s.(status := Some(target)))], ix)
    ensures forall r: FrbData :: r.id != id ==>
      multiset(LoadedRows(blobs[id := Rec(s.(status := Some(target)))], ix))[r] == multiset(LoadedRows(blobs, ix))[r]
  {
    var blobs', ids := blobs[id := Rec(s.(status := Some(target)))], ParsedKeys(ix);
    var c, c' := Collect(ids, blobs), Collect(ids, blobs');
    SortPermutes(c);
    SortPermutes(c');
    CollectAdvanced(ids, blobs, id, s, target);
    forall r: FrbData | r.id != id
      ensures multiset(c')[r] == multiset(c)[r]
    {
      CollectAdvancedOthers(ids, blobs, id, s, target, r);
    }
    assert forall r :: r in LoadedRows(blobs', ix) <==> r in multiset(c');
  }

  /** Advancing a record does not change how many rows a load shows. */
  lemma AdvanceKeepsRowCount(blobs: map<string, Blob>, ix: IndexBlob, id: string, s: Stored, target: Status)
    requires Lookup(blobs, id) == Rec(s)
    ensures |LoadedRows(blobs[id := Rec(s.(status := Some(target)))], ix)| == |LoadedRows(blobs, ix)|
  {
    var blobs' := blobs[id := Rec(s.(status := Some(target)))];
    var c, c' := Collect(ParsedKeys(ix), blobs), Collect(ParsedKeys(ix), blobs');
    SameSkipsSameLength(ParsedKeys(ix), blobs, blobs');
    SortPermutes(c);
    SortPermutes(c');
    assert |multiset(SortByTimestamp(c))| == |multiset(c)|;
    assert |multiset(SortByTimestamp(c'))| == |multiset(c')|;
  }

  /** Two stores that hold record objects under the same ids collect lists of the same length. */
  lemma {:induction false} SameSkipsSameLength(ids: seq<string>, a: map<string, Blob>, b: map<string, Blob>)
    requires forall i :: i in ids ==> (Lookup(a, i).Rec? <==> Lookup(b, i).Rec?)
    ensures |Collect(ids, a)| == |Collect(ids, b)|
  {
    if ids != [] {
      SameSkipsSameLength(ids[..|ids| - 1], a, b);
    }
  }
}
