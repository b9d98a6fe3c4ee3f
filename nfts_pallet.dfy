/** The registry as the host runtime holds it: mutable storage updated in place
    by each call. Every method is proved to perform the transition that
    RegistryOps specifies for it. */
module NftsPallet {
  import opened NftTypes
  import opened RegistryStore
  import Ops = RegistryOps

  class Nfts {
    var nfts: map<NftId, NftData>
    var series: map<SeriesId, bool>
    var nextId: NftId

    /** The storage as a value. */
    function State(): Store
      reads this
    {
      Store(nfts, series, nextId)
    }

    ghost predicate Valid()
      reads this
    {
      State().Valid()
    }

    /** Storage at genesis: empty. */
    constructor ()
      ensures Valid() && State() == Empty()
    {
      nfts, series, nextId := map[], map[], 0;
    }

    method Create(owner: AccountId, data: seq<byte>, seriesId: Option<SeriesId>) returns (id: NftId)
      requires Valid()
      modifies this
      ensures Valid()
      ensures var step := Ops.Create(old(State()), owner, data, seriesId);
              State() == step.store && id == step.result
    {
      id := nextId;
      nfts := nfts[id := NftData(owner, false, data, seriesId)];
      if seriesId.Some? && seriesId.value !in series {
        series := series[seriesId.value := false];
      }
      nextId := nextId + 1;
    }

    method Lock(id: NftId) returns (r: Outcome)
      requires Valid()
      modifies this
      ensures Valid()
      ensures var step := Ops.Lock(old(State()), id);
              State() == step.store && r == step.result
    {
      if id !in nfts {
        return Err(InvalidNFTId);
      }
      if nfts[id].locked {
        return Err(Locked);
      }
      nfts := nfts[id := nfts[id].(locked := true)];
      r := Ok;
    }

    method Unlock(id: NftId) returns (found: bool)
      requires Valid()
      modifies this
      ensures Valid()
      ensures var step := Ops.Unlock(old(State()), id);
              State() == step.store && found == step.result
    {
      found := id in nfts;
      if found {
        nfts := nfts[id := nfts[id].(locked := false)];
      }
    }

    method SetOwner(id: NftId, owner: AccountId) returns (r: Outcome)
      requires Valid()
      modifies this
      ensures Valid()
      ensures var step := Ops.SetOwner(old(State()), id, owner);
              State() == step.store && r == step.result
    {
      if id !in nfts {
        return Err(InvalidNFTId);
      }
      if nfts[id].locked {
        return Err(Locked);
      }
      nfts := nfts[id := nfts[id].(owner := owner)];
      r := Ok;
    }

    method FinishSeries(caller: AccountId, seriesId: SeriesId) returns (r: Outcome)
      requires Valid()
      modifies this
      ensures Valid()
      ensures var step := Ops.FinishSeries(old(State()), caller, seriesId);
              State() == step.store && r == step.result
    {
      if seriesId !in series {
        return Err(SeriesNotFound);
      }
      series := series[seriesId := true];
      r := Ok;
    }
  }
}
