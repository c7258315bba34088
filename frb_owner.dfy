/** Ownership test and the row actions the dashboard offers. */
module FrbOwner {
  import opened FrbRecords

  /** ASCII lower-casing of one character. */
  function LowerChar(c: char): (d: char)
    ensures !('A' <= d <= 'Z')
    ensures d == c || 'A' <= c <= 'Z'
  {
    if 'A' <= c <= 'Z' then (c as int + 32) as char else c
  }

  /** ASCII lower-casing of a string (`toLowerCase`, for the characters of addresses and names). */
  function Lower(s: string): (r: string)
    ensures |r| == |s|
  {
    if s == [] then [] else [LowerChar(s[0])] + Lower(s[1..])
  }

  /** Lower-casing keeps the length and maps every character on its own. */
  lemma {:induction false} LowerAt(s: string)
    ensures |Lower(s)| == |s|
    ensures forall i :: 0 <= i < |s| ==> Lower(s)[i] == LowerChar(s[i])
  {
    if s != [] {
      LowerAt(s[1..]);
    }
  }

  /** Lower-casing twice is lower-casing once. */
  lemma {:induction false} LowerIdempotent(s: string)
    ensures Lower(Lower(s)) == Lower(s)
  {
    if s != [] {
      LowerIdempotent(s[1..]);
      assert Lower(s)[0] == LowerChar(s[0]) && Lower(s)[1..] == Lower(s[1..]);
    }
  }

  /** `isOwner`: the connected account and the row's observatory are equal up to letter case. */
  predicate IsOwner(account: string, address: string)
  {
    Lower(account) == Lower(address)
  }

  /** Ownership is an equivalence: reflexive, symmetric and transitive. */
  lemma IsOwnerEquivalence(a: string, b: string, c: string)
    ensures IsOwner(a, a)
    ensures IsOwner(a, b) ==> IsOwner(b, a)
    ensures IsOwner(a, b) && IsOwner(b, c) ==> IsOwner(a, c)
  {
  }

  /** Ownership ignores letter case on both sides. */
  lemma IsOwnerIgnoresCase(account: string, address: string)
    ensures IsOwner(account, address) == IsOwner(Lower(account), address)
    ensures IsOwner(account, address) == IsOwner(account, Lower(address))
  {
    LowerIdempotent(account);
    LowerIdempotent(address);
  }

  /** The Process button is shown for rows the account owns that are still raw. */
  predicate OffersProcess(account: string, row: FrbData)
  {
    IsOwner(account, row.observatory) && row.status == Raw
  }

  /** The Analyze button is shown for rows the account owns that are processed. */
  predicate OffersAnalyze(account: string, row: FrbData)
  {
    IsOwner(account, row.observatory) && row.status == Processed
  }

  /** The buttons follow the workflow: a row offers at most one action, that action leads to the
      row's next stage, an analyzed row offers none, and an account that does not own the row is
      offered nothing. */
  lemma GatingFollowsWorkflow(account: string, row: FrbData)
    ensures !(OffersProcess(account, row) && OffersAnalyze(account, row))
    ensures OffersProcess(account, row) ==> Successor(row.status) == Some(Processed)
    ensures OffersAnalyze(account, row) ==> Successor(row.status) == Some(Analyzed)
    ensures row.status == Analyzed ==> !OffersProcess(account, row) && !OffersAnalyze(account, row)
    ensures !IsOwner(account, row.observatory) ==> !OffersProcess(account, row) && !OffersAnalyze(account, row)
  {
  }

  /** The observatories the creation form lets one choose. */
  function ObservatoryOptions(): (options: seq<string>)
    ensures forall o :: o in options ==> |o| > 0 && 'A' <= o[0] <= 'Z'
  {
    ["CHIME", "FAST", "ASKAP", "Arecibo", "GBT", "VLA"]
  }

  /** A wallet address starts with the digit 0, while every observatory the form offers starts
      with a letter; so a row created through the form never offers an action to a wallet
      account. */
  lemma NoActionsForWalletAccounts(account: string, row: FrbData)
    requires |account| > 0 && account[0] == '0'
    requires row.observatory in ObservatoryOptions()
    ensures !OffersProcess(account, row) && !OffersAnalyze(account, row)
  {
    LowerAt(account);
    LowerAt(row.observatory);
    assert 'A' <= row.observatory[0] <= 'Z';
    assert Lower(account)[0] == '0';
    assert Lower(row.observatory)[0] != '0';
  }
}
