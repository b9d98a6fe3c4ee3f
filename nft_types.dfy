/** Value types shared by the NFT registry: identifiers, the NFT record and the
    results the registry's operations report. */
module NftTypes {

  newtype byte = x: int | 0 <= x < 256

  /** Sequentially allocated NFT identifier. */
  type NftId = nat

  /** Account identifier; only compared for equality. */
  type AccountId = nat

  /** Series identifier, chosen by the creator of the first NFT of a series. */
  type SeriesId = seq<byte>

  datatype Option<+T> = None | Some(value: T)

  /** The error kinds an operation that can fail reports. */
  datatype Error =
    | InvalidNFTId    // the NFT id was never allocated
    | Locked          // the NFT exists but its lock flag forbids the mutation
    | SeriesNotFound  // the series id names no series

  /** The result of an operation that can fail and returns nothing else. */
  datatype Outcome = Ok | Err(error: Error)

  /** One NFT record: its owner, its lock flag, its opaque payload and its
      optional series. */
  datatype NftData = NftData(owner: AccountId, locked: bool, data: seq<byte>, series: Option<SeriesId>)
}
