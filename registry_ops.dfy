/** The registry's operations as transitions of the store. Each function maps
    the store before a call to the store after it together with the call's
    result; a failing call leaves the store as it was. */
module RegistryOps {
  import opened NftTypes
  import opened RegistryStore

  /** The store after a call, and what the call returned. */
  datatype Step<R> = Step(store: Store, result: R)

  /** Allocates the next id for a new, unlocked NFT; a series named for the
      first time is created and is not completed. An already known series keeps
      its flag. */
  function Create(s: Store, owner: AccountId, data: seq<byte>, seriesId: Option<SeriesId>): (r: Step<NftId>)
    ensures r.result == s.nextId && r.store.nextId == s.nextId + 1
    ensures s.Valid() ==> r.result !in s.nfts && r.store.Valid()
    ensures r.store.nfts.Keys == s.nfts.Keys + {r.result}
    ensures r.store.Owner(r.result) == Some(owner) && r.store.Locked(r.result) == Some(false)
    ensures r.store.nfts[r.result].data == data && r.store.nfts[r.result].series == seriesId
    ensures seriesId.Some? && seriesId.value !in s.series ==> r.store.IsSeriesCompleted(r.result) == Some(false)
    ensures seriesId.None? ==> r.store.IsSeriesCompleted(r.result) == Some(false)
    ensures s.Valid() ==> forall k | k in s.nfts :: r.store.nfts[k] == s.nfts[k]
    ensures r.store.series.Keys == s.series.Keys + (if seriesId.Some? then {seriesId.value} else {})
    ensures forall k | k in s.series :: r.store.series[k] == s.series[k]
  {
    var id := s.nextId;
    var series := match seriesId
      case Some(sid) => if sid in s.series then s.series else s.series[sid := false]
      case None => s.series;
    Step(Store(s.nfts[id := NftData(owner, false, data, seriesId)], series, id + 1), id)
  }

  /** Sets the lock flag of an unlocked NFT. An id that is not allocated fails
      with InvalidNFTId before the flag is looked at; a locked NFT fails with
      Locked. */
  function Lock(s: Store, id: NftId): (r: Step<Outcome>)
    ensures r.result == Ok <==> s.Locked(id) == Some(false)
    ensures r.result == Err(InvalidNFTId) <==> s.Locked(id) == None
    ensures r.result == Err(Locked) <==> s.Locked(id) == Some(true)
    ensures r.result.Err? ==> r.store == s
    ensures r.result == Ok ==> SameExcept(s, r.store, id) && r.store.nfts[id] == s.nfts[id].(locked := true)
    ensures r.result == Ok ==> r.store.Locked(id) == Some(true) && r.store.Owner(id) == s.Owner(id)
    ensures s.Valid() ==> r.store.Valid()
  {
    if id !in s.nfts then Step(s, Err(InvalidNFTId))
    else if s.nfts[id].locked then Step(s, Err(Locked))
    else Step(s.(nfts := s.nfts[id := s.nfts[id].(locked := true)]), Ok)
  }

  /** Clears the lock flag of an existing NFT, whatever it was, and reports
      whether the NFT exists; an id that is not allocated changes nothing. */
  function Unlock(s: Store, id: NftId): (r: Step<bool>)
    ensures r.result <==> s.Locked(id).Some?
    ensures !r.result ==> r.store == s
    ensures r.result ==> SameExcept(s, r.store, id) && r.store.nfts[id] == s.nfts[id].(locked := false)
    ensures r.result ==> r.store.Locked(id) == Some(false) && r.store.Owner(id) == s.Owner(id)
    ensures s.Valid() ==> r.store.Valid()
  {
    if id !in s.nfts then Step(s, false)
    else Step(s.(nfts := s.nfts[id := s.nfts[id].(locked := false)]), true)
  }

  /** Gives an unlocked NFT a new owner. An id that is not allocated fails with
      InvalidNFTId, a locked NFT with Locked. */
  function SetOwner(s: Store, id: NftId, owner: AccountId): (r: Step<Outcome>)
    ensures r.result == Ok <==> s.Locked(id) == Some(false)
    ensures r.result == Err(InvalidNFTId) <==> s.Locked(id) == None
    ensures r.result == Err(Locked) <==> s.Locked(id) == Some(true)
    ensures r.result.Err? ==> r.store == s
    ensures r.result == Ok ==> SameExcept(s, r.store, id) && r.store.nfts[id] == s.nfts[id].(owner := owner)
    ensures r.result == Ok ==> r.store.Owner(id) == Some(owner) && r.store.Locked(id) == Some(false)
    ensures s.Valid() ==> r.store.Valid()
  {
    if id !in s.nfts then Step(s, Err(InvalidNFTId))
    else if s.nfts[id].locked then Step(s, Err(Locked))
    else Step(s.(nfts := s.nfts[id := s.nfts[id].(owner := owner)]), Ok)
  }

  /** Marks an existing series as completed; an unknown series fails with
      SeriesNotFound. The caller is authorised elsewhere and is not inspected. */
  function FinishSeries(s: Store, caller: AccountId, seriesId: SeriesId): (r: Step<Outcome>)
    ensures r.result == Ok <==> seriesId in s.series
    ensures r.result.Err? ==> r.result == Err(SeriesNotFound) && r.store == s
    ensures r.store.nfts == s.nfts && r.store.nextId == s.nextId && r.store.series.Keys == s.series.Keys
    ensures forall k | k in s.series && k != seriesId :: r.store.series[k] == s.series[k]
    ensures r.result == Ok ==> r.store.series[seriesId]
    ensures r.result == Ok ==> forall id | id in s.nfts && s.nfts[id].series == Some(seriesId) ::
      r.store.IsSeriesCompleted(id) == Some(true)
    ensures s.Valid() ==> r.store.Valid()
  {
    if seriesId !in s.series then Step(s, Err(SeriesNotFound))
    else Step(s.(series := s.series[seriesId := true]), Ok)
  }

  /** A call of a mutating operation, as the host runtime issues it. */
  datatype Call =
    | CreateCall(owner: AccountId, data: seq<byte>, seriesId: Option<SeriesId>)
    | LockCall(id: NftId)
    | UnlockCall(id: NftId)
    | SetOwnerCall(id: NftId, newOwner: AccountId)
    | FinishSeriesCall(caller: AccountId, series: SeriesId)

  /** The store after one call. */
  function Apply(s: Store, c: Call): Store {
    match c
    case CreateCall(owner, data, seriesId) => Create(s, owner, data, seriesId).store
    case LockCall(id) => Lock(s, id).store
    case UnlockCall(id) => Unlock(s, id).store
    case SetOwnerCall(id, owner) => SetOwner(s, id, owner).store
    case FinishSeriesCall(caller, seriesId) => FinishSeries(s, caller, seriesId).store
  }

  /** The store after a serialised stream of calls, one after the other. */
  function Run(s: Store, cs: seq<Call>): Store
    decreases |cs|
  {
    if cs == [] then s else Run(Apply(s, cs[0]), cs[1..])
  }

  /** The number of creations in a stream of calls. */
  function CreateCount(cs: seq<Call>): nat
    decreases |cs|
  {
    if cs == [] then 0 else (if cs[0].CreateCall? then 1 else 0) + CreateCount(cs[1..])
  }

  /** Every stream of calls keeps the store consistent. */
  lemma {:induction false} RunPreservesValid(s: Store, cs: seq<Call>)
    requires s.Valid()
    ensures Run(s, cs).Valid()
    decreases |cs|
  {
    if cs != [] {
      RunPreservesValid(Apply(s, cs[0]), cs[1..]);
    }
  }

  /** Each creation allocates exactly one id and nothing else allocates: after
      any stream the allocator has moved by the number of creations, so (with
      Valid) the allocated ids are the old ones plus that many new ones. */
  lemma {:induction false} RunAllocatesSequentially(s: Store, cs: seq<Call>)
    ensures Run(s, cs).nextId == s.nextId + CreateCount(cs)
    decreases |cs|
  {
    if cs != [] {
      RunAllocatesSequentially(Apply(s, cs[0]), cs[1..]);
    }
  }

  /** NFT records are never deleted, and their payload and series are fixed at
      creation, whatever the calls that follow. */
  lemma {:induction false} RunKeepsRecord(s: Store, cs: seq<Call>, id: NftId)
    requires s.Valid() && id in s.nfts
    ensures id in Run(s, cs).nfts
    ensures Run(s, cs).nfts[id].data == s.nfts[id].data
    ensures Run(s, cs).nfts[id].series == s.nfts[id].series
    decreases |cs|
  {
    if cs != [] {
      RunKeepsRecord(Apply(s, cs[0]), cs[1..], id);
    }
  }

  /** A completed series stays completed: no call un-finishes it. */
  lemma {:induction false} RunCompletedIsPermanent(s: Store, cs: seq<Call>, seriesId: SeriesId)
    requires seriesId in s.series && s.series[seriesId]
    ensures seriesId in Run(s, cs).series && Run(s, cs).series[seriesId]
    decreases |cs|
  {
    if cs != [] {
      RunCompletedIsPermanent(Apply(s, cs[0]), cs[1..], seriesId);
    }
  }

  /** A locked NFT stays locked and keeps its owner until it is unlocked: no
      stream without an unlock of that id changes either. */
  lemma {:induction false} RunLockFreezesOwner(s: Store, cs: seq<Call>, id: NftId)
    requires s.Valid() && s.Locked(id) == Some(true)
    requires UnlockCall(id) !in cs
    ensures Run(s, cs).Locked(id) == Some(true)
    ensures Run(s, cs).Owner(id) == s.Owner(id)
    decreases |cs|
  {
    if cs != [] {
      var t := Apply(s, cs[0]);
      assert t.Locked(id) == Some(true) && t.Owner(id) == s.Owner(id);
      RunLockFreezesOwner(t, cs[1..], id);
    }
  }
}
