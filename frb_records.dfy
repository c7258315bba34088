/** Records of fast-radio-burst observations as the dashboard stores and shows them. */
module FrbRecords {

  datatype Option<T> = None | Some(value: T)

  /** The three stages of the workflow, in order. */
  datatype Status = Raw | Processed | Analyzed

  /** The stage an action button moves a record to, if any (raw -> processed -> analyzed). */
  function Successor(s: Status): (next: Option<Status>)
  {
    match s
    case Raw => Some(Processed)
    case Processed => Some(Analyzed)
    case Analyzed => None
  }

  /** The JSON object stored under "frb_<id>". A missing (or empty) status is `None`. */
  datatype Stored = Stored(
    data: string,
    timestamp: int,
    observatory: string,
    frequency: string,
    status: Option<Status>,
    signalStrength: int,
    location: string)

  /** What a read of "frb_<id>" yields: no bytes, bytes that do not parse, or a record object. */
  datatype Blob = Empty | Corrupt | Rec(stored: Stored)

  /** What a read of "frb_keys" yields: no bytes, bytes that do not parse, or a list of ids. */
  datatype IndexBlob = Missing | CorruptIndex | Ids(ids: seq<string>)

  /** Reading "frb_<id>": an absent key reads as no bytes. */
  function Lookup(blobs: map<string, Blob>, id: string): (b: Blob)
  {
    if id in blobs then blobs[id] else Empty
  }

  /** The ids the index holds; no bytes and bytes that do not parse both read as no ids. */
  function ParsedKeys(ix: IndexBlob): (ids: seq<string>)
  {
    if ix.Ids? then ix.ids else []
  }

  /** One row of the dashboard (the `FRBData` record). */
  datatype FrbData = FrbData(
    id: string,
    encryptedData: string,
    timestamp: int,
    observatory: string,
    frequency: string,
    status: Status,
    signalStrength: int,
    location: string)

  /** The form's fields, all text as the inputs hold them. */
  datatype Draft = Draft(observatory: string, frequency: string, signalStrength: string, location: string)

  /** The row built from the stored object under id: a missing status reads as raw. */
  function ToFrbData(id: string, s: Stored): (r: FrbData)
    ensures r.id == id && r.encryptedData == s.data && r.timestamp == s.timestamp
    ensures r.observatory == s.observatory && r.frequency == s.frequency
    ensures r.signalStrength == s.signalStrength && r.location == s.location
    ensures s.status.Some? ==> r.status == s.status.value
    ensures s.status.None? ==> r.status == Raw
  {
    FrbData(id, s.data, s.timestamp, s.observatory, s.frequency,
            if s.status.Some? then s.status.value else Raw,
            s.signalStrength, s.location)
  }

  /** The required-field check of the creation form: observatory, frequency and signal strength
      must be non-empty text; location is optional. */
  predicate RequiredFieldsPresent(d: Draft)
  {
    d.observatory != "" && d.frequency != "" && d.signalStrength != ""
  }

  /** The record object a submission writes. `encoded` stands for the base64 text of the draft,
      `nowMs` for the clock in milliseconds and `strength` for the integer the signal-strength
      text parses to. */
  function NewStored(d: Draft, encoded: string, nowMs: nat, strength: int): (s: Stored)
    ensures s.status == Some(Raw)
    ensures s.data == "FHE-" + encoded && s.timestamp == nowMs / 1000
    ensures s.observatory == d.observatory && s.frequency == d.frequency
    ensures s.signalStrength == strength && s.location == d.location
  {
    Stored("FHE-" + encoded, nowMs / 1000, d.observatory, d.frequency, Some(Raw), strength, d.location)
  }

  // ---------------------------------------------------------------------------------------------
  // Dashboard counters

  /** The number of rows in the given stage (`filter(d => d.status === ...).length`). */
  function CountStatus(rows: seq<FrbData>, s: Status): (n: nat)
    ensures n <= |rows|
  {
    if rows == [] then 0
    else CountStatus(rows[..|rows| - 1], s) + (if rows[|rows| - 1].status == s then 1 else 0)
  }

  /** Every row is in exactly one stage, so the three counters add up to the number of rows. */
  lemma {:induction false} CountsPartitionRows(rows: seq<FrbData>)
    ensures CountStatus(rows, Raw) + CountStatus(rows, Processed) + CountStatus(rows, Analyzed) == |rows|
  {
    if rows != [] {
      CountsPartitionRows(rows[..|rows| - 1]);
    }
  }

  /** Counting is additive over concatenation. */
  lemma {:induction false} CountStatusAppend(a: seq<FrbData>, b: seq<FrbData>, s: Status)
    ensures CountStatus(a + b, s) == CountStatus(a, s) + CountStatus(b, s)
    decreases |b|
  {
    if b == [] {
      assert a + b == a;
    } else {
      assert (a + b)[..|a + b| - 1] == a + b[..|b| - 1];
      CountStatusAppend(a, b[..|b| - 1], s);
    }
  }
}
