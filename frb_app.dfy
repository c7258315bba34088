/** The dashboard's own operations: loading the list, submitting a record and moving a record
    to its next stage, each a sequence of reads and writes against the contract. */
module FrbApp {
  import opened FrbRecords
  import opened FrbLoad
  import opened FrbStore
  import opened FrbOwner

  /** Why an operation that reached the contract stopped. */
  datatype Failure =
    | NoSigner      // no contract handle with a signer
    | NotFound      // the record's key holds no bytes ("Data not found")
    | Unparsable    // the record's bytes do not parse
    | Rejected      // a transaction was rejected or reverted

  /** How an operation ended, as the banner or alert reports it. */
  datatype Outcome = MissingFields | NoWallet | Failed(why: Failure) | Done

  /** How a submission ends, given whether a wallet is connected, a signer is available and the
      record and index transactions go through. */
  function SubmitOutcome(connected: bool, signerReady: bool, recordTxOk: bool, indexTxOk: bool): (o: Outcome)
    ensures o == Done <==> connected && signerReady && recordTxOk && indexTxOk
    ensures o == NoWallet <==> !connected
    ensures o != MissingFields
  {
    if !connected then NoWallet
    else if !signerReady then Failed(NoSigner)
    else if !recordTxOk || !indexTxOk then Failed(Rejected)
    else Done
  }

  /** How moving a record to the next stage ends, given what its key holds. */
  function AdvanceOutcome(connected: bool, signerReady: bool, b: Blob, txOk: bool): (o: Outcome)
    ensures o == Done <==> connected && signerReady && b.Rec? && txOk
    ensures connected && signerReady && b.Empty? ==> o == Failed(NotFound)
    ensures o == NoWallet <==> !connected
    ensures o != MissingFields
  {
    if !connected then NoWallet
    else if !signerReady then Failed(NoSigner)
    else match b
      case Empty => Failed(NotFound)
      case Corrupt => Failed(Unparsable)
      case Rec(_) => if txOk then Done else Failed(Rejected)
  }

  /** The stored object with only its status replaced (`{...data, status}`). */
  function WithStatus(s: Stored, target: Status): (t: Stored)
    ensures t.status == Some(target)
    ensures t.(status := s.status) == s
  {
    s.(status := Some(target))
  }

  /** Used through the buttons, a transition moves a row exactly one stage forward, and the row
      processed through its Process button then offers its owner the Analyze button. */
  lemma ButtonsAdvanceOneStage(account: string, id: string, s: Stored)
    ensures OffersProcess(account, ToFrbData(id, s)) ==>
      Successor(ToFrbData(id, s).status) == Some(ToFrbData(id, WithStatus(s, Processed)).status)
      && OffersAnalyze(account, ToFrbData(id, WithStatus(s, Processed)))
    ensures OffersAnalyze(account, ToFrbData(id, s)) ==>
      Successor(ToFrbData(id, s).status) == Some(ToFrbData(id, WithStatus(s, Analyzed)).status)
      && !OffersProcess(account, ToFrbData(id, WithStatus(s, Analyzed)))
      && !OffersAnalyze(account, ToFrbData(id, WithStatus(s, Analyzed)))
  {
  }

  class Dashboard {
    /** Whether a wallet provider is connected. */
    var connected: bool
    /** The list the dashboard shows. */
    var rows: seq<FrbData>
    /** The contract. */
    const store: Store

    constructor (store: Store, connected: bool)
      ensures this.store == store && this.connected == connected && rows == []
    {
      this.store := store;
      this.connected := connected;
      rows := [];
    }

    /** The loop of `loadFrbData`: read the index, then each id's record in index order. */
    method CollectRows() returns (list: seq<FrbData>)
      ensures list == Collect(ParsedKeys(store.index), store.blobs)
    {
      var keys := ParsedKeys(store.index);
      list := [];
      var i := 0;
      while i < |keys|
        invariant 0 <= i <= |keys|
        invariant list == Collect(keys[..i], store.blobs)
      {
        var key := keys[i];
        match store.RecordAt(key) {
          case Rec(s) => list := list + [ToFrbData(key, s)];
          case _ =>
        }
        assert keys[..i + 1][..i] == keys[..i];
        i := i + 1;
      }
      assert keys[..i] == keys;
    }

    /** `loadFrbData`: when the read-only contract is there and available, the list becomes the
        collected rows newest first; otherwise it stays as it was. */
    method LoadFrbData(readerReady: bool)
      modifies this`rows
      ensures rows == if readerReady then LoadedRows(store.blobs, store.index) else old(rows)
    {
      if readerReady {
        var list := CollectRows();
        rows := SortByTimestamp(list);
      }
    }

    /** `submitData`: write the new record under "frb_" + dataId, then read the index again,
        append dataId and write it back; on success reload the list. */
    method SubmitData(d: Draft, dataId: string, nowMs: nat, encoded: string, strength: int,
                      signerReady: bool, recordTxOk: bool, indexTxOk: bool, readerReady: bool)
      returns (o: Outcome)
      modifies this`rows, store
      ensures o == SubmitOutcome(old(connected), signerReady, recordTxOk, indexTxOk)
      ensures store.blobs == if old(connected) && signerReady && recordTxOk
                             then old(store.blobs)[dataId := Rec(NewStored(d, encoded, nowMs, strength))]
                             else old(store.blobs)
      ensures store.index == if o == Done then Ids(ParsedKeys(old(store.index)) + [dataId]) else old(store.index)
      ensures store.writes == old(store.writes)
                              + (if old(connected) && signerReady && recordTxOk then [RecordKey(dataId)] else [])
                              + (if o == Done then [IndexKey()] else [])
      ensures rows == if o == Done && readerReady then LoadedRows(store.blobs, store.index) else old(rows)
      ensures old(store.IndexBacked()) ==> store.IndexBacked()
    {
      if !connected {
        return NoWallet;
      }
      if !signerReady {
        return Failed(NoSigner);
      }
      var record := NewStored(d, encoded, nowMs, strength);
      if !recordTxOk {
        return Failed(Rejected);
      }
      store.SetRecord(dataId, record);
      var keys := ParsedKeys(store.index);
      keys := keys + [dataId];
      if !indexTxOk {
        return Failed(Rejected);
      }
      store.SetIndex(keys);
      o := Done;
      LoadFrbData(readerReady);
    }

    /** `ModalCreate.handleSubmit`: refuse a form with an empty observatory, frequency or signal
        strength before anything is written; otherwise submit. */
    method HandleSubmit(d: Draft, dataId: string, nowMs: nat, encoded: string, strength: int,
                        signerReady: bool, recordTxOk: bool, indexTxOk: bool, readerReady: bool)
      returns (o: Outcome)
      modifies this`rows, store
      ensures !RequiredFieldsPresent(d) ==>
        o == MissingFields && store.blobs == old(store.blobs) && store.index == old(store.index)
        && store.writes == old(store.writes) && rows == old(rows)
      ensures RequiredFieldsPresent(d) ==> o == SubmitOutcome(old(connected), signerReady, recordTxOk, indexTxOk)
      ensures RequiredFieldsPresent(d) ==>
        store.blobs == if old(connected) && signerReady && recordTxOk
                       then old(store.blobs)[dataId := Rec(NewStored(d, encoded, nowMs, strength))]
                       else old(store.blobs)
      ensures RequiredFieldsPresent(d) ==>
        store.index == if o == Done then Ids(ParsedKeys(old(store.index)) + [dataId]) else old(store.index)
      ensures RequiredFieldsPresent(d) ==>
        store.writes == old(store.writes)
                        + (if old(connected) && signerReady && recordTxOk then [RecordKey(dataId)] else [])
                        + (if o == Done then [IndexKey()] else [])
      ensures RequiredFieldsPresent(d) ==>
        rows == if o == Done && readerReady then LoadedRows(store.blobs, store.index) else old(rows)
      ensures old(store.IndexBacked()) ==> store.IndexBacked()
    {
      if !RequiredFieldsPresent(d) {
        return MissingFields;
      }
      o := SubmitData(d, dataId, nowMs, encoded, strength, signerReady, recordTxOk, indexTxOk, readerReady);
    }

    /** The common body of `processData` and `analyzeData`: read the record, fail when its key
        holds nothing or does not parse, and write it back with only the status replaced. The
        current status is not looked at. On success reload the list. */
    method AdvanceStatus(id: string, target: Status, signerReady: bool, txOk: bool, readerReady: bool)
      returns (o: Outcome)
      modifies this`rows, store
      ensures o == AdvanceOutcome(old(connected), signerReady, old(store.RecordAt(id)), txOk)
      ensures store.blobs == if o == Done
                             then old(store.blobs)[id := Rec(WithStatus(old(store.RecordAt(id)).stored, target))]
                             else old(store.blobs)
      ensures store.index == old(store.index)
      ensures store.writes == old(store.writes) + (if o == Done then [RecordKey(id)] else [])
      ensures rows == if o == Done && readerReady then LoadedRows(store.blobs, store.index) else old(rows)
      ensures old(store.IndexBacked()) ==> store.IndexBacked()
    {
      if !connected {
        return NoWallet;
      }
      if !signerReady {
        return Failed(NoSigner);
      }
      var b := store.RecordAt(id);
      if b.Empty? {
        return Failed(NotFound);
      }
      if b.Corrupt? {
        return Failed(Unparsable);
      }
      if !txOk {
        return Failed(Rejected);
      }
      store.SetRecord(id, WithStatus(b.stored, target));
      o := Done;
      LoadFrbData(readerReady);
    }

    /** `processData`: move the record to processed. */
    method ProcessData(id: string, signerReady: bool, txOk: bool, readerReady: bool) returns (o: Outcome)
      modifies this`rows, store
      ensures o == AdvanceOutcome(old(connected), signerReady, old(store.RecordAt(id)), txOk)
      ensures store.blobs == if o == Done
                             then old(store.blobs)[id := Rec(WithStatus(old(store.RecordAt(id)).stored, Processed))]
                             else old(store.blobs)
      ensures store.index == old(store.index)
      ensures store.writes == old(store.writes) + (if o == Done then [RecordKey(id)] else [])
      ensures rows == if o == Done && readerReady then LoadedRows(store.blobs, store.index) else old(rows)
      ensures old(store.IndexBacked()) ==> store.IndexBacked()
    {
      o := AdvanceStatus(id, Processed, signerReady, txOk, readerReady);
    }

    /** `analyzeData`: move the record to analyzed. */
    method AnalyzeData(id: string, signerReady: bool, txOk: bool, readerReady: bool) returns (o: Outcome)
      modifies this`rows, store
      ensures o == AdvanceOutcome(old(connected), signerReady, old(store.RecordAt(id)), txOk)
      ensures store.blobs == if o == Done
                             then old(store.blobs)[id := Rec(WithStatus(old(store.RecordAt(id)).stored, Analyzed))]
                             else old(store.blobs)
      ensures store.index == old(store.index)
      ensures store.writes == old(store.writes) + (if o == Done then [RecordKey(id)] else [])
      ensures rows == if o == Done && readerReady then LoadedRows(store.blobs, store.index) else old(rows)
      ensures old(store.IndexBacked()) ==> store.IndexBacked()
    {
      o := AdvanceStatus(id, Analyzed, signerReady, txOk, readerReady);
    }
  }

  /** Submitting a valid form to an empty contract with a connected wallet, then processing and
      analyzing the new record: the final list holds that one record, analyzed, with the
      submitted fields. */
  method SubmitProcessAnalyzeScenario(d: Draft, id: string, nowMs: nat, encoded: string, strength: int)
    returns (rows: seq<FrbData>)
    requires RequiredFieldsPresent(d)
    ensures |rows| == 1 && rows[0].id == id && rows[0].status == Analyzed
    ensures rows[0].observatory == d.observatory && rows[0].frequency == d.frequency
    ensures rows[0].signalStrength == strength && rows[0].location == d.location
    ensures rows[0].encryptedData == "FHE-" + encoded && rows[0].timestamp == nowMs / 1000
  {
    var store := new Store(map[], Missing);
    var app := new Dashboard(store, true);
    var submitted := NewStored(d, encoded, nowMs, strength);
    var o := app.HandleSubmit(d, id, nowMs, encoded, strength, true, true, true, false);
    assert o == Done;
    assert store.blobs == map[id := Rec(submitted)] && store.index == Ids([id]);
    o := app.ProcessData(id, true, true, false);
    assert o == Done;
    assert store.blobs == map[id := Rec(WithStatus(submitted, Processed))] && store.index == Ids([id]);
    o := app.AnalyzeData(id, true, true, true);
    assert o == Done;
    var final := WithStatus(WithStatus(submitted, Processed), Analyzed);
    assert store.blobs == map[id := Rec(final)] && store.index == Ids([id]);
    assert Collect([id], store.blobs) == [ToFrbData(id, final)];
    assert SortByTimestamp([ToFrbData(id, final)]) == [ToFrbData(id, final)];
    rows := app.rows;
  }
}
