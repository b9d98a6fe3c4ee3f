/** The registry's storage: the NFT records keyed by id, the series flags keyed
    by series id, and the id allocator. */
module RegistryStore {
  import opened NftTypes

  datatype Store = Store(nfts: map<NftId, NftData>, series: map<SeriesId, bool>, nextId: NftId) {

    /** Ids are handed out 0, 1, 2, ... and never removed, so the allocated ids
        are exactly those below the allocator; every series an NFT names exists. */
    ghost predicate Valid() {
      && (forall id: NftId :: id in nfts <==> id < nextId)
      && (forall id | id in nfts && nfts[id].series.Some? :: nfts[id].series.value in series)
    }

    /** The whole record of an NFT, or None for an id that is not allocated. */
    function Data(id: NftId): (r: Option<NftData>)
      ensures Valid() ==> (r == None <==> nextId <= id)
      ensures Valid() && id < nextId ==> r == Some(nfts[id])
    {
      if id in nfts then Some(nfts[id]) else None
    }

    /** The lock flag of an NFT, or None for an id that is not allocated. */
    function Locked(id: NftId): (r: Option<bool>)
      ensures Valid() ==> (r == None <==> nextId <= id)
    {
      if id in nfts then Some(nfts[id].locked) else None
    }

    /** The owner of an NFT, or None for an id that is not allocated. */
    function Owner(id: NftId): (r: Option<AccountId>)
      ensures Valid() ==> (r == None <==> nextId <= id)
    {
      if id in nfts then Some(nfts[id].owner) else None
    }

    /** Whether the series of an NFT is completed; an NFT without a series is
        never completed; None for an id that is not allocated. */
    function IsSeriesCompleted(id: NftId): (r: Option<bool>)
      ensures Valid() ==> (r == None <==> nextId <= id)
      ensures Valid() && r == Some(true) ==> nfts[id].series.Some? && series[nfts[id].series.value]
      ensures Valid() && id in nfts && nfts[id].series.Some? ==> r == Some(series[nfts[id].series.value])
      ensures id in nfts && nfts[id].series.None? ==> r == Some(false)
    {
      if id !in nfts then None
      else match nfts[id].series
        case None => Some(false)
        case Some(s) => Some(s in series && series[s])
    }
  }

  /** The store of a fresh chain: no NFTs, no series. */
  function Empty(): (s: Store)
    ensures s.Valid() && s.nfts == map[] && s.series == map[]
  {
    Store(map[], map[], 0)
  }

  /** t differs from s at most in the record of id, which still exists. */
  ghost predicate SameExcept(s: Store, t: Store, id: NftId) {
    && t.nfts.Keys == s.nfts.Keys
    && (forall k | k in s.nfts && k != id :: t.nfts[k] == s.nfts[k])
    && t.series == s.series
    && t.nextId == s.nextId
  }
}
