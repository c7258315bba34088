# FRB record store — a verified Dafny model

The dashboard (`frontend/web/src/App.tsx`) lets observatories submit fast-radio-burst
observations and move each through the stages raw → processed → analyzed. It keeps them in an
external key-value contract that offers `getData(key)` and `setData(key, value)`. The entry
`"frb_keys"` holds the ordered list of record ids and `"frb_<id>"` holds one record object. This
project models that record store and the small pure helpers around it:

- `FrbRecords` (`frb_records.dfy`): the stored object, the dashboard row (`FRBData`), the stages,
  the form draft, what reading a record entry or the index yields, the row built from a stored
  object (a missing status reads as raw), the record a submission writes, the required-field check
  and the three stage counters.
- `FrbOwner` (`frb_owner.dfy`): `isOwner` as ASCII case-insensitive equality, and which row
  offers the Process and Analyze buttons.
- `FrbLoad` (`frb_load.dfy`): what a load computes. It takes the ids of the index (no bytes or
  unparsable bytes read as no ids), collects the row of every id whose entry is a record object (skipping
  empty and corrupt entries), and sorts newest first. The sort is a stable insertion sort used as
  the reference for `Array.prototype.sort` with the comparator `b.timestamp - a.timestamp`.
- `FrbStore` (`frb_store.dfy`): the contract as a class `Store`. It has a map from id to what
  `"frb_<id>"` holds (`Empty`, `Corrupt` or `Rec`), the index value (`Missing`, `CorruptIndex` or
  `Ids`), and a ghost log of the keys written, in order.
- `FrbApp` (`frb_app.dfy`): the App state as a class `Dashboard`, with whether a wallet is
  connected, the shown list, and the contract. Its methods are `LoadFrbData` (with the read loop
  `CollectRows`), `SubmitData`, `HandleSubmit`, `ProcessData` and `AnalyzeData`; the last two
  share `AdvanceStatus`.

What the environment answers is passed in as parameters:

- whether the read-only contract exists and is available;
- whether a signer is available;
- whether each `setData` transaction goes through;
- the fresh id, the clock in milliseconds, the base64 text of the draft, and the integer that
  `parseInt` makes of the signal-strength text.

Behaviour of the code worth knowing:

- Status changes are written unconditionally. `processData` and `analyzeData` never look at the
  current status (`AdvanceStatus` has no status precondition), so forward-only movement holds only
  through the button gating (`GatingFollowsWorkflow`, `ButtonsAdvanceOneStage`).
- The form checks only that observatory, frequency and signal strength are non-empty. It does not
  check that the signal strength parses as a number, nor that the observatory is one of the
  offered names.
- `isOwner` compares the connected account with the row's `observatory` field. The form fills
  that field with an observatory name (CHIME, FAST, ASKAP, Arecibo, GBT, VLA), not with the
  submitter's address. As `NoActionsForWalletAccounts` proves, a wallet address (which starts
  with `0`) is never the owner of a row created through the form, so such a row never offers
  its Process or Analyze button.
- An index that does not parse is replaced, on the next submission, by a list holding only the
  new id. The earlier ids are dropped, so the index is not append-only in that case.

In the model, a write takes effect when `setData` returns, and the operations run one after
another. Under that assumption the write order keeps the index backed. A submission writes the
record object first and the index second. If the second transaction is rejected, the result is a
record that no index entry points to. In the model an index entry without a record object never
results, so "every indexed id has a record object" (`Store.IndexBacked`) is preserved by every
operation of the model. When that holds, a load shows one row per index entry
(`BackedLoadsEveryEntry`). The code does not wait for transaction receipts, so the program itself
keeps this property only when each transaction is mined before the next read (see "## Left out").

## Model

| member | source | states |
|---|---|---|
| `FrbRecords.Successor` | frontend/web/src/App.tsx:592-607 | the stage each button leads to: raw to processed, processed to analyzed, none after analyzed |
| `FrbRecords.RequiredFieldsPresent` | frontend/web/src/App.tsx:711 | the form's check: observatory, frequency and signal strength are all non-empty |
| `FrbRecords.Lookup` | frontend/web/src/App.tsx:104 | `getData` on "frb_<id>": an id with no entry reads as no bytes, otherwise its entry |
| `FrbRecords.ParsedKeys` | frontend/web/src/App.tsx:89-98 | an index holding ids yields them; an empty or unparsable index yields no ids |
| `FrbRecords.ToFrbData` | frontend/web/src/App.tsx:108-117 | the row of a stored object has the given id and the stored fields; a missing status becomes raw, a present one is kept |
| `FrbRecords.NewStored` | frontend/web/src/App.tsx:152-169 | a submitted record has status raw, data "FHE-" followed by the encoded draft, the timestamp in whole seconds of the clock, and the draft's observatory, frequency and location with the parsed signal strength |
| `FrbRecords.CountStatus` | frontend/web/src/App.tsx:44-46 | a stage counter never exceeds the number of rows |
| `FrbRecords.CountsPartitionRows` | frontend/web/src/App.tsx:44-46 | the raw, processed and analyzed counters add up to the number of rows |
| `FrbRecords.CountStatusAppend` | frontend/web/src/App.tsx:44-46 | the counter of a concatenation is the sum of the counters of its parts |
| `FrbOwner.LowerChar` | frontend/web/src/App.tsx:357 | ASCII lower-casing of one character: the result is never an upper-case letter, and only upper-case letters change |
| `FrbOwner.Lower` | frontend/web/src/App.tsx:357 | `toLowerCase` on ASCII letters keeps the length |
| `FrbOwner.IsOwner` | frontend/web/src/App.tsx:356-358 | `isOwner`: the account and the row's observatory are equal after lower-casing both |
| `FrbOwner.OffersProcess` | frontend/web/src/App.tsx:592-599 | the Process button is shown exactly for raw rows the account owns |
| `FrbOwner.OffersAnalyze` | frontend/web/src/App.tsx:600-607 | the Analyze button is shown exactly for processed rows the account owns |
| `FrbOwner.LowerAt` | frontend/web/src/App.tsx:357 | lower-casing keeps the length and lower-cases each character on its own |
| `FrbOwner.LowerIdempotent` | frontend/web/src/App.tsx:357 | lower-casing an already lower-cased string changes nothing |
| `FrbOwner.IsOwnerEquivalence` | frontend/web/src/App.tsx:356-358 | ownership is reflexive, symmetric and transitive |
| `FrbOwner.IsOwnerIgnoresCase` | frontend/web/src/App.tsx:356-358 | ownership does not change when either side is lower-cased first |
| `FrbOwner.GatingFollowsWorkflow` | frontend/web/src/App.tsx:592-607 | a row offers at most one action; Process only on raw rows and Analyze only on processed rows, each leading to the next stage; nothing on analyzed rows or to a non-owner |
| `FrbOwner.ObservatoryOptions` | frontend/web/src/App.tsx:742-747 | the observatory values the form offers, each starting with an upper-case letter |
| `FrbOwner.NoActionsForWalletAccounts` | frontend/web/src/App.tsx:592-607 | an account starting with 0 is offered no action on a row whose observatory is one of the form's options |
| `FrbLoad.Collect` | frontend/web/src/App.tsx:100-125 | the collected list is never longer than the index |
| `FrbLoad.CollectMembers` | frontend/web/src/App.tsx:102-125 | a row is collected if and only if it is the row of an indexed id whose entry is a record object |
| `FrbLoad.CollectOccurrences` | frontend/web/src/App.tsx:102-125 | an id appears among the collected rows as often as in the index when its entry is a record object, and not at all when its entry is empty or corrupt |
| `FrbLoad.CollectBacked` | frontend/web/src/App.tsx:102-125 | when every indexed id has a record object, the i-th collected row is the row of the i-th id |
| `FrbLoad.CollectIgnoresOtherIds` | frontend/web/src/App.tsx:102-125 | entries under ids not in the index do not change what is collected |
| `FrbLoad.Insert` | frontend/web/src/App.tsx:127 | one step of the stable sort: the row goes after every row at least as new |
| `FrbLoad.SortByTimestamp` | frontend/web/src/App.tsx:127 | the reference for `list.sort((a, b) => b.timestamp - a.timestamp)`: insertion sort, newest first, stable |
| `FrbLoad.InsertPermutes` | frontend/web/src/App.tsx:127 | inserting a row adds exactly that row |
| `FrbLoad.InsertKeepsNewestFirst` | frontend/web/src/App.tsx:127 | inserting into a newest-first list keeps it newest first |
| `FrbLoad.InsertCounts` | frontend/web/src/App.tsx:127 | inserting a row raises only its own stage's counter, by one |
| `FrbLoad.InsertKeepsIds` | frontend/web/src/App.tsx:127 | inserting a row adds exactly its id to the ids |
| `FrbLoad.SortPermutes` | frontend/web/src/App.tsx:127 | the sorted list is a permutation of its input |
| `FrbLoad.SortKeepsCounts` | frontend/web/src/App.tsx:44-46 | sorting does not change any stage counter |
| `FrbLoad.SortKeepsIds` | frontend/web/src/App.tsx:127 | sorting keeps every id with its multiplicity |
| `FrbLoad.SortByTimestampCorrect` | frontend/web/src/App.tsx:127 | the sorted list has non-increasing timestamps and is a permutation of its input |
| `FrbLoad.LoadedRows` | frontend/web/src/App.tsx:89-128 | the list a load gives: the collected rows of the parsed index, sorted newest first |
| `FrbLoad.LoadWithoutIndex` | frontend/web/src/App.tsx:89-98 | an empty or unparsable index loads an empty list |
| `FrbLoad.LoadedRowsCorrect` | frontend/web/src/App.tsx:89-128 | the loaded list is newest first, a permutation of the collected rows, and holds exactly the rows of indexed ids with record objects |
| `FrbLoad.BackedLoadsEveryEntry` | frontend/web/src/App.tsx:100-127 | when every indexed id has a record object, the load shows one row per index entry |
| `FrbLoad.LoadedCounts` | frontend/web/src/App.tsx:44-46 | the counters of the sorted list equal those of the collected rows |
| `FrbLoad.CollectAppended` | frontend/web/src/App.tsx:172-193 | after a submission the collected rows are the earlier ones followed by the new record's row, and when the id was new the earlier rows are those collected before |
| `FrbLoad.SubmitThenLoad` | frontend/web/src/App.tsx:159-193 | after a submission a load shows the new record as a raw row |
| `FrbLoad.SubmitFreshThenLoad` | frontend/web/src/App.tsx:159-193 | when the submitted id was not indexed, the load afterwards shows exactly the rows shown before plus the new one |
| `FrbLoad.SubmitFreshShowsOnce` | frontend/web/src/App.tsx:159-193 | when the submitted id was not indexed, the load afterwards shows that id exactly once |
| `FrbLoad.CollectAdvanced` | frontend/web/src/App.tsx:258-268 | after one record's status is rewritten, every collected row of that id carries the new status and the stored fields, and that row is collected whenever the id is indexed |
| `FrbLoad.CollectAdvancedOthers` | frontend/web/src/App.tsx:258-268 | rewriting one record's status leaves every row of another id collected as often as before |
| `FrbLoad.AdvanceThenLoad` | frontend/web/src/App.tsx:253-268 | after a status change a load shows the record with the new status and the stored fields whenever its id is indexed; no row of that id carries anything else; every row of another id is shown as often as before |
| `FrbLoad.AdvanceKeepsRowCount` | frontend/web/src/App.tsx:253-268 | a status change does not change how many rows a load shows |
| `FrbStore.RecordKey` | frontend/web/src/App.tsx:104 | the key `frb_${id}` of a record object: the prefix "frb_" followed by the id itself |
| `FrbStore.IndexKey` | frontend/web/src/App.tsx:89 | the key "frb_keys" of the id index, which is the record key of the id "keys" |
| `FrbStore.RecordKeys` | frontend/web/src/App.tsx:172-175 | distinct ids have distinct record keys, and only the id "keys" would share the index's key |
| `FrbStore.Store.RecordAt` | frontend/web/src/App.tsx:104 | `getData("frb_" + id)` on the current state of the contract |
| `FrbStore.Store.SetRecord` | frontend/web/src/App.tsx:172-175 | writes one record object and logs its key; the index is untouched |
| `FrbStore.Store.SetIndex` | frontend/web/src/App.tsx:190-193 | writes the index and logs its key; the record objects are untouched |
| `FrbApp.SubmitOutcome` | frontend/web/src/App.tsx:137-230 | a submission succeeds if and only if a wallet is connected, a signer is available and both transactions go through; without a wallet the outcome is the connect alert |
| `FrbApp.AdvanceOutcome` | frontend/web/src/App.tsx:232-292 | a status change succeeds if and only if a wallet is connected, a signer is available, the entry is a record object and the transaction goes through; an empty entry gives "Data not found" |
| `FrbApp.WithStatus` | frontend/web/src/App.tsx:260-263 | only the status is replaced; every other field of the stored object is kept |
| `FrbApp.ButtonsAdvanceOneStage` | frontend/web/src/App.tsx:592-607 | acting through an offered button moves a row exactly one stage forward; after Process the owner is offered Analyze, and after Analyze nothing |
| `FrbApp.Dashboard.CollectRows` | frontend/web/src/App.tsx:100-125 | the read loop returns exactly the collected rows of the current index, in index order |
| `FrbApp.Dashboard.LoadFrbData` | frontend/web/src/App.tsx:76-135 | with the contract available, the shown list becomes the loaded rows; otherwise it is unchanged |
| `FrbApp.Dashboard.SubmitData` | frontend/web/src/App.tsx:137-230 | without a wallet or signer nothing is written; otherwise the record is written first with status raw, then the previously stored ids (none if unparsable) plus the new id; a rejected index write leaves the record unindexed; success reloads the list; the backed-index invariant is kept |
| `FrbApp.Dashboard.HandleSubmit` | frontend/web/src/App.tsx:710-717 | an empty observatory, frequency or signal strength is refused before any write; otherwise the outcome, the written records and index, the writes log and the shown list are those of `SubmitData`; the backed-index invariant is kept |
| `FrbApp.Dashboard.AdvanceStatus` | frontend/web/src/App.tsx:232-292 | without a wallet or signer, or with an empty or corrupt entry, or a rejected transaction, nothing is written; otherwise exactly that record is rewritten with only its status replaced, whatever its status was; the index is untouched; the backed-index invariant is kept |
| `FrbApp.Dashboard.ProcessData` | frontend/web/src/App.tsx:232-292 | the status change to processed, with the outcomes and writes of `AdvanceStatus`; the backed-index invariant is kept |
| `FrbApp.Dashboard.AnalyzeData` | frontend/web/src/App.tsx:294-354 | the status change to analyzed, with the outcomes and writes of `AdvanceStatus`; the backed-index invariant is kept |
| `FrbApp.SubmitProcessAnalyzeScenario` | frontend/web/src/App.tsx:137-354 | for any form with the required fields, submitting it to an empty contract, then processing and analyzing the record, shows one row: the new id, analyzed, with the submitted observatory, frequency, signal strength and location, the encrypted payload and the timestamp in seconds |

## Left out

- Rendering is not modelled: modals, tutorial, header, footer, cards and the pie chart. The pie chart's percentages and angles are floating point.
- Wallet connection, the account-change subscription and disconnecting are not modelled; they belong to an external provider. The connection state is a field set at construction.
- ethers byte conversion, `JSON.parse`/`JSON.stringify` and `btoa` are foreign library calls. Stored values are already structured, and the encrypted payload is an opaque string passed in.
- Stored values of other shapes are not modelled: an index that parses to something other than a list of strings, a record that parses to something other than an object, and status strings outside the three stages.
- Exceptions from individual reads are not modelled, and neither is the outer error handling of the load. Both come from the network.
- `Date.now()`, `Math.random()` and `parseInt` are not modelled. The id, the clock and the parsed signal strength are parameters, and nothing checks that the id is unused.
- The `setTimeout` delays and the auto-dismissal of the banner are not modelled; they are timing.
- The banner text, the loading, refreshing and creating flags, and the closing of the form are not modelled. They are presentation only. The banner's success or error is the returned `Outcome`.
- Error messages are not classified. "Transaction rejected by user" and other transaction errors are both `Failed(Rejected)`.
- Concurrent submissions racing on the index's read-modify-write are not modelled. The model is sequential.
- The emptiness tests of the code (`.length > 0` at lines 92, 105 and 180, `.length === 0` at lines 254 and 316) are modelled as written: the model assumes `getData` yields zero-length bytes for an absent key, which the model reads as `Empty` or `Missing`. The `./contract` module is not part of this model, so what `getData` returns for an absent key is not captured. If it returns a non-empty value such as the hex string "0x", a status change of an absent record fails on the parse ("Unparsable") rather than with "Data not found"; loading and submitting would behave the same, since the parse error is caught at the same place.
- Transaction receipts are not modelled. The code awaits `setData` but never waits for the transaction to be mined (App.tsx lines 172, 190, 265 and 327), while the model applies each write when the call returns. So the model does not capture three things. A reload right after a write (lines 201, 276 and 338) may still read the old state. A record transaction that reverts after being sent still lets the index write go ahead, which leaves an index entry without a record object. Two submissions one after the other can lose an id when the second re-reads the index (line 177) before the first index write is mined. The `./contract` module that makes the calls is not part of this model.
- A failing `btoa` is not modelled. `btoa` (line 152) throws on characters outside Latin-1, for example "−" in the location, and the submission then fails before any write. The model takes the encoded text as a parameter, so it has no error path for this.
- Index and record entries are separate fields, not one flat key map. In the contract, an id equal to "keys" would write over the index (`RecordKeys`). Generated ids always contain a "-", so they never equal "keys".
- `toLowerCase` is modelled on ASCII letters only. Unicode case mapping is not modelled.
- `list.sort` is a library call and sorts in place. The model gives the sorted list as a new value of a reference function.
- FrbLoad.SortByTimestampCorrect: is weaker than the JavaScript sort's promise. It states newest-first order and permutation, but not that rows with equal timestamps keep their collection order, although the reference function does keep it.
