/** The registry's trait tests, one method each. Every method starts from an
    empty genesis store, drives the registry as the test does and returns what
    the test observes; its postcondition is the test's assertions, and a
    failure the test expects to leave storage untouched is returned as a flag
    that compares the store before and after the call. */
module TraitsTests {
  import opened NftTypes
  import opened RegistryStore
  import opened NftsPallet

  method LockHappy(alice: AccountId) returns (lockResult: Outcome, record: Option<NftData>)
    ensures lockResult == Ok
    ensures record.Some? && record.value.locked
  {
    var reg := new Nfts();
    var id := reg.Create(alice, [1], None);
    lockResult := reg.Lock(id);
    record := reg.State().Data(id);
  }

  method LockUnhappy(alice: AccountId)
    returns (first: Outcome, second: Outcome, secondNoop: bool, invalid: Outcome, invalidNoop: bool)
    ensures first == Ok
    ensures second == Err(Locked) && secondNoop
    ensures invalid == Err(InvalidNFTId) && invalidNoop
  {
    var reg := new Nfts();
    var id := reg.Create(alice, [1], None);
    first := reg.Lock(id);
    var before := reg.State();
    second := reg.Lock(id);
    secondNoop := reg.State() == before;
    before := reg.State();
    invalid := reg.Lock(1001);
    invalidNoop := reg.State() == before;
  }

  method UnlockHappy(alice: AccountId)
    returns (lockResult: Outcome, first: bool, record: Option<NftData>, second: bool)
    ensures lockResult == Ok && first
    ensures record.Some? && !record.value.locked
    ensures second
  {
    var reg := new Nfts();
    var id := reg.Create(alice, [1], None);
    lockResult := reg.Lock(id);
    first := reg.Unlock(id);
    record := reg.State().Data(id);
    second := reg.Unlock(id);
  }

  method UnlockUnhappy() returns (found: bool, noop: bool)
    ensures !found && noop
  {
    var reg := new Nfts();
    var before := reg.State();
    found := reg.Unlock(1001);
    noop := reg.State() == before;
  }

  method LockedHappy(alice: AccountId) returns (before: Option<bool>, lockResult: Outcome, after: Option<bool>)
    ensures before == Some(false)
    ensures lockResult == Ok
    ensures after == Some(true)
  {
    var reg := new Nfts();
    var id := reg.Create(alice, [1], None);
    before := reg.State().Locked(id);
    lockResult := reg.Lock(id);
    after := reg.State().Locked(id);
  }

  method LockedUnhappy() returns (r: Option<bool>)
    ensures r == None
  {
    var reg := new Nfts();
    r := reg.State().Locked(1001);
  }

  method SetOwnerHappy(alice: AccountId, bob: AccountId) returns (r: Outcome, record: Option<NftData>)
    ensures r == Ok
    ensures record.Some? && record.value.owner == bob
  {
    var reg := new Nfts();
    var id := reg.Create(alice, [1], None);
    r := reg.SetOwner(id, bob);
    record := reg.State().Data(id);
  }

  method SetOwnerUnhappy(alice: AccountId, bob: AccountId)
    returns (lockResult: Outcome, locked: Outcome, lockedNoop: bool, invalid: Outcome, invalidNoop: bool)
    ensures lockResult == Ok
    ensures locked == Err(Locked) && lockedNoop
    ensures invalid == Err(InvalidNFTId) && invalidNoop
  {
    var reg := new Nfts();
    var id := reg.Create(alice, [1], None);
    lockResult := reg.Lock(id);
    var before := reg.State();
    locked := reg.SetOwner(id, bob);
    lockedNoop := reg.State() == before;
    before := reg.State();
    invalid := reg.SetOwner(1000, bob);
    invalidNoop := reg.State() == before;
  }

  method OwnerHappy(alice: AccountId) returns (r: Option<AccountId>)
    ensures r == Some(alice)
  {
    var reg := new Nfts();
    var id := reg.Create(alice, [1], None);
    r := reg.State().Owner(id);
  }

  method OwnerUnhappy() returns (r: Option<AccountId>)
    ensures r == None
  {
    var reg := new Nfts();
    r := reg.State().Owner(1000);
  }

  method IsSeriesCompletedHappy(alice: AccountId) returns (before: Option<bool>, finish: Outcome, after: Option<bool>)
    ensures before == Some(false)
    ensures finish == Ok
    ensures after == Some(true)
  {
    var reg := new Nfts();
    var seriesId: SeriesId := [50];
    var id := reg.Create(alice, [1], Some(seriesId));
    before := reg.State().IsSeriesCompleted(id);
    finish := reg.FinishSeries(alice, seriesId);
    after := reg.State().IsSeriesCompleted(id);
  }

  method IsSeriesCompletedUnhappy() returns (r: Option<bool>)
    ensures r == None
  {
    var reg := new Nfts();
    r := reg.State().IsSeriesCompleted(1001);
  }
}
