/**
 * The blacklist of IBANs: a store of entries with unique IBANs, the reconciliation of a list of
 * IBANs against it (BlacklistedIbanCheckService and BlacklistedIbanService), and adding an IBAN
 * to it.
 */
module Blacklist {
  import opened Outcomes
  import opened Failures
  import opened Lists

  /** A row of the blacklist: the generated id, the IBAN, and the reason, kept as given. */
  datatype BlacklistedIban = BlacklistedIban(id: nat, iban: string, reason: string)

  /** The IBAN strings of the entries, in order: stream().map(BlacklistedIban::getIban). */
  function IbansOf(entries: seq<BlacklistedIban>): (r: seq<string>)
    ensures |r| == |entries|
    ensures forall k :: 0 <= k < |entries| ==> r[k] == entries[k].iban
  {
    if entries == [] then [] else [entries[0].iban] + IbansOf(entries[1..])
  }

  /** No two entries share an IBAN: the unique constraint of the iban column. */
  predicate UniqueIbans(entries: seq<BlacklistedIban>) {
    forall i, j :: 0 <= i < j < |entries| ==> entries[i].iban != entries[j].iban
  }

  /** The entries whose IBAN is in ibans, in the order of the store: findByIbanIn. */
  function EntriesIn(entries: seq<BlacklistedIban>, ibans: seq<string>): (r: seq<BlacklistedIban>)
    ensures forall e :: e in r <==> e in entries && e.iban in ibans
  {
    if entries == [] then []
    else (if entries[0].iban in ibans then [entries[0]] else []) + EntriesIn(entries[1..], ibans)
  }

  /**
   * The blacklisted_ibans table behind BlacklistedIbanRepository. lookups counts the calls of
   * findByIbanIn, the number the services' tests verify.
   */
  class Repository {
    var entries: seq<BlacklistedIban>
    var nextId: nat
    ghost var lookups: nat

    ghost predicate Valid()
      reads this
    {
      UniqueIbans(entries) && forall e :: e in entries ==> e.id < nextId
    }

    constructor ()
      ensures Valid() && entries == [] && nextId == 1 && lookups == 0
    {
      entries := [];
      nextId := 1;
      lookups := 0;
    }

    /** existsByIban. */
    predicate ExistsByIban(iban: string)
      reads this
      ensures ExistsByIban(iban) <==> iban in IbansOf(entries)
    {
      IbansOfSpec(entries);
      exists e :: e in entries && e.iban == iban
    }

    /** findByIbanIn: one batched query for all of ibans. */
    method FindByIbanIn(ibans: seq<string>) returns (found: seq<BlacklistedIban>)
      modifies this`lookups
      ensures found == EntriesIn(entries, ibans)
      ensures lookups == old(lookups) + 1
    {
      found := EntriesIn(entries, ibans);
      lookups := lookups + 1;
    }

    /** save of a new entity: the row gets the next generated id. */
    method Save(iban: string, reason: string) returns (saved: BlacklistedIban)
      modifies this`entries, this`nextId
      ensures saved == BlacklistedIban(old(nextId), iban, reason)
      ensures entries == old(entries) + [saved] && nextId == old(nextId) + 1
    {
      saved := BlacklistedIban(nextId, iban, reason);
      entries := entries + [saved];
      nextId := nextId + 1;
    }
  }

  /**
   * What checkForBlacklistedIbans does with the lookup's result: nothing when it is empty,
   * otherwise BlacklistedIbanFoundException with the blacklisted IBANs in lookup order and the
   * input without them.
   */
  function Reconciled(ibans: seq<string>, found: seq<BlacklistedIban>): (r: Result<(), Failure>)
    ensures r.Err? ==> r.error.BlacklistedFound? && |r.error.blacklistedIbans| == |found|
    ensures r.Err? ==> forall x :: x in r.error.validIbans <==> x in ibans && x !in r.error.blacklistedIbans
  {
    if found == [] then Ok(())
    else
      WithoutSpec(ibans, IbansOf(found));
      Err(BlacklistedFound(IbansOf(found), Without(ibans, IbansOf(found))))
  }

  /**
   * ArrayList.removeAll(c) on the first n elements of a: the elements not in c are moved to the
   * front, in order, and their number is returned.
   */
  method RemoveAll(a: array<string>, c: seq<string>) returns (n: nat)
    modifies a
    ensures n <= a.Length && a[..n] == Without(old(a[..]), c)
  {
    ghost var original := a[..];
    var w := 0;
    for r := 0 to a.Length
      invariant w <= r
      invariant a[..w] == Without(original[..r], c)
      invariant forall k :: r <= k < a.Length ==> a[k] == original[k]
    {
      var x := a[r];
      assert original[..r + 1] == original[..r] + [x];
      WithoutSnoc(original[..r], x, c);
      if x !in c {
        a[w] := x;
        assert a[..w + 1] == a[..w] + [x];
        w := w + 1;
      }
    }
    assert original[..a.Length] == original;
    n := w;
  }

  /**
   * checkForBlacklistedIbans of both services: copy the input, make one batched lookup, and when
   * anything is blacklisted, remove it from the copy and fail with both lists.
   */
  method CheckForBlacklistedIbans(repository: Repository, ibans: seq<string>) returns (r: Result<(), Failure>)
    modifies repository`lookups
    ensures r == Reconciled(ibans, EntriesIn(repository.entries, ibans))
    ensures repository.lookups == old(repository.lookups) + 1
  {
    var validIbans := new string[|ibans|](k requires 0 <= k < |ibans| => ibans[k]);
    var blacklisted := repository.FindByIbanIn(ibans);
    if blacklisted == [] {
      return Ok(());
    }
    var blacklistedIbans := IbansOf(blacklisted);
    assert validIbans[..] == ibans;
    var n := RemoveAll(validIbans, blacklistedIbans);
    return Err(BlacklistedFound(blacklistedIbans, validIbans[..n]));
  }

  /** blacklistIban: refuse an IBAN already in the store, otherwise save a new entry for it. */
  method BlacklistIban(repository: Repository, iban: string, reason: string) returns (r: Result<BlacklistedIban, Failure>)
    requires repository.Valid()
    modifies repository`entries, repository`nextId
    ensures repository.Valid()
    ensures old(repository.ExistsByIban(iban)) ==>
      r == Err(IllegalArgument("IBAN is already blacklisted: " + iban)) && unchanged(repository)
    ensures !old(repository.ExistsByIban(iban)) ==>
      r == Ok(BlacklistedIban(old(repository.nextId), iban, reason))
      && repository.entries == old(repository.entries) + [r.value]
  {
    if repository.ExistsByIban(iban) {
      return Err(IllegalArgument("IBAN is already blacklisted: " + iban));
    }
    var saved := repository.Save(iban, reason);
    assert forall e :: e in old(repository.entries) ==> e.iban != iban;
    return Ok(saved);
  }

  // ---------------------------------------------------------------------------------------------
  // Properties of the reconciliation
  // ---------------------------------------------------------------------------------------------

  /** The IBAN strings of the entries are exactly the IBANs of the entries. */
  lemma {:induction false} IbansOfSpec(entries: seq<BlacklistedIban>)
    ensures forall x :: x in IbansOf(entries) <==> exists e :: e in entries && e.iban == x
  {
    if entries != [] {
      IbansOfSpec(entries[1..]);
      assert entries == [entries[0]] + entries[1..];
    }
  }

  /**
   * The exception splits the input: an input IBAN is reported blacklisted exactly when the store
   * holds it, and kept as valid exactly when it does not; the valid list keeps the input's order
   * and multiplicities, and the blacklisted list names only input IBANs.
   */
  lemma ReconciledPartition(entries: seq<BlacklistedIban>, ibans: seq<string>)
    requires Reconciled(ibans, EntriesIn(entries, ibans)).Err?
    ensures var f := Reconciled(ibans, EntriesIn(entries, ibans)).error;
      f.BlacklistedFound?
      && (forall x :: x in f.blacklistedIbans <==> x in ibans && exists e :: e in entries && e.iban == x)
      && (forall x :: x in f.validIbans <==> x in ibans && !exists e :: e in entries && e.iban == x)
      && IsSubsequence(f.validIbans, ibans)
      && (forall x :: x !in f.blacklistedIbans ==> multiset(f.validIbans)[x] == multiset(ibans)[x])
  {
    var found := EntriesIn(entries, ibans);
    IbansOfSpec(found);
    WithoutSpec(ibans, IbansOf(found));
  }

  /** No blacklisted input, no exception; and with an empty input nothing is found. */
  lemma ReconciledOk(entries: seq<BlacklistedIban>, ibans: seq<string>)
    ensures Reconciled(ibans, EntriesIn(entries, ibans)).Ok? <==> forall x :: x in ibans ==> !exists e :: e in entries && e.iban == x
    ensures ibans == [] ==> Reconciled(ibans, EntriesIn(entries, ibans)) == Ok(())
  {
    var found := EntriesIn(entries, ibans);
    if found != [] {
      assert found[0] in found;
    }
  }

  /** When every input IBAN is blacklisted, the valid list is empty. */
  lemma AllBlacklisted(entries: seq<BlacklistedIban>, ibans: seq<string>)
    requires ibans != [] && forall x :: x in ibans ==> exists e :: e in entries && e.iban == x
    ensures Reconciled(ibans, EntriesIn(entries, ibans)).Err?
    ensures Reconciled(ibans, EntriesIn(entries, ibans)).error.validIbans == []
  {
    ReconciledOk(entries, ibans);
    assert ibans[0] in ibans;
    var found := EntriesIn(entries, ibans);
    var v := Without(ibans, IbansOf(found));
    IbansOfSpec(found);
    WithoutSpec(ibans, IbansOf(found));
    assert forall x :: x in ibans ==> x in IbansOf(found);
    assert multiset(v) == multiset{};
  }

  /** Blacklisting the same IBAN twice: the second call fails and leaves the store as it was. */
  method BlacklistTwice(repository: Repository, iban: string, reason: string) returns (first: Result<BlacklistedIban, Failure>, second: Result<BlacklistedIban, Failure>)
    requires repository.Valid()
    modifies repository`entries, repository`nextId
    ensures repository.Valid()
    ensures second == Err(IllegalArgument("IBAN is already blacklisted: " + iban))
  {
    first := BlacklistIban(repository, iban, reason);
    if first.Ok? {
      assert first.value in repository.entries;
    }
    second := BlacklistIban(repository, iban, reason);
  }
}
