/** The scenarios of BlacklistedIbanCheckServiceTest, against a store that holds one blacklisted IBAN. */
module BlacklistExamples {
  import opened Outcomes
  import opened Failures
  import opened Lists
  import opened Blacklist

  const ValidIban := "DE44500105175407324931"
  const BlacklistedIbanValue := "FR7630006000011234567890189"

  /** A store holding only BlacklistedIbanValue. */
  method StoreWithOne() returns (repository: Repository)
    ensures fresh(repository) && repository.Valid()
    ensures repository.entries == [BlacklistedIban(1, BlacklistedIbanValue, "fraud")]
  {
    repository := new Repository();
    var saved := BlacklistIban(repository, BlacklistedIbanValue, "fraud");
  }

  /** A mixed list: the blacklisted IBAN is reported, and the other one is passed back as valid. */
  method MixedList() returns (r: Result<(), Failure>)
    ensures r == Err(BlacklistedFound([BlacklistedIbanValue], [ValidIban]))
  {
    var repository := StoreWithOne();
    r := CheckForBlacklistedIbans(repository, [ValidIban, BlacklistedIbanValue]);
    var entry := BlacklistedIban(1, BlacklistedIbanValue, "fraud");
    assert ValidIban != BlacklistedIbanValue by {
      assert ValidIban[0] != BlacklistedIbanValue[0];
    }
    assert EntriesIn([entry], [ValidIban, BlacklistedIbanValue]) == [entry] by {
      assert [entry][1..] == [];
      assert BlacklistedIbanValue in [ValidIban, BlacklistedIbanValue];
    }
    assert IbansOf([entry]) == [BlacklistedIbanValue];
    assert Without([ValidIban, BlacklistedIbanValue], [BlacklistedIbanValue]) == [ValidIban] by {
      assert ValidIban !in [BlacklistedIbanValue];
      assert [ValidIban, BlacklistedIbanValue][1..] == [BlacklistedIbanValue];
      assert [BlacklistedIbanValue][1..] == [];
      assert Without([BlacklistedIbanValue], [BlacklistedIbanValue]) == [];
    }
  }

  /** Only blacklisted IBANs: reported, with an empty valid list. */
  method OnlyBlacklisted() returns (r: Result<(), Failure>)
    ensures r.Err? && r.error.BlacklistedFound? && r.error.blacklistedIbans == [BlacklistedIbanValue] && r.error.validIbans == []
  {
    var repository := StoreWithOne();
    r := CheckForBlacklistedIbans(repository, [BlacklistedIbanValue]);
    AllBlacklisted(repository.entries, [BlacklistedIbanValue]);
    var entry := BlacklistedIban(1, BlacklistedIbanValue, "fraud");
    assert entry in repository.entries;
  }
}
