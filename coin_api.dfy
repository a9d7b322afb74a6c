/** The CoinAPI asset record the market table and the search dialog both
    format, the icon table they share, and the small field defaults they apply. */
module CoinApi {
  import opened Builtins

  /** A numeric field of the payload: a number, an explicit `null`, or absent
      (`undefined`). JavaScript arithmetic reads `null` as 0 and `undefined`
      as `NaN`. */
  datatype JsonNumber = Num(value: real) | Null | Absent

  /** One element of the `/v1/assets` response, as far as the components read
      it; a text field that is `null` or absent is `None`. */
  datatype RawAsset = RawAsset(
    assetId: Option<string>,
    name: Option<string>,
    priceUsd: JsonNumber,
    volume1DayUsd: JsonNumber,
    volume1HrsUsd: JsonNumber)

  /** Every asset has an `asset_id`, so the formatting callbacks cannot throw. */
  predicate AllHaveIds(assets: seq<RawAsset>) {
    forall i | 0 <= i < |assets| :: assets[i].assetId.Some?
  }

  /** `cryptoIcons`, keyed by upper-case asset id. */
  const CryptoIcons: map<string, string> := map[
    "BTC" := "https://assets.coingecko.com/coins/images/1/small/bitcoin.png",
    "ETH" := "https://assets.coingecko.com/coins/images/279/small/ethereum.png",
    "XRP" := "https://assets.coingecko.com/coins/images/44/small/xrp-symbol-white-128.png",
    "DOGE" := "https://assets.coingecko.com/coins/images/5/small/dogecoin.png",
    "SOL" := "https://assets.coingecko.com/coins/images/4128/small/solana.png",
    "ADA" := "https://assets.coingecko.com/coins/images/975/small/cardano.png",
    "DOT" := "https://assets.coingecko.com/coins/images/12171/small/polkadot.png",
    "SHIB" := "https://assets.coingecko.com/coins/images/11939/small/shiba.png",
    "LTC" := "https://assets.coingecko.com/coins/images/2/small/litecoin.png",
    "LINK" := "https://assets.coingecko.com/coins/images/877/small/chainlink-new-logo.png",
    "AVAX" := "https://assets.coingecko.com/coins/images/12559/small/Avalanche_Circle_RedWhite_Trans.png",
    "MATIC" := "https://assets.coingecko.com/coins/images/4713/small/matic-token-icon.png",
    "UNI" := "https://assets.coingecko.com/coins/images/12504/small/uniswap-uni.png",
    "ATOM" := "https://assets.coingecko.com/coins/images/1481/small/cosmos_hub.png",
    "XLM" := "https://assets.coingecko.com/coins/images/100/small/Stellar_symbol_black_RGB.png"
  ]

  const PlaceholderIcon := "/placeholder.svg?height=24&width=24&text="

  /** `cryptoIcons[asset_id] || placeholder`: the table entry for the id, or a
      placeholder URL that carries the id. */
  function IconFor(assetId: string): (url: string)
    ensures assetId in CryptoIcons ==> url == CryptoIcons[assetId]
    ensures assetId !in CryptoIcons ==> PlaceholderIcon <= url && Includes(url, assetId)
  {
    if assetId in CryptoIcons then CryptoIcons[assetId]
    else
      var url := PlaceholderIcon + assetId;
      assert IncludesAt(assetId, assetId, 0);
      IncludesInSuffix(PlaceholderIcon, assetId, assetId, 0);
      url
  }

  /** `asset.name || asset.asset_id`: an absent or empty name falls back to the id. */
  function DisplayName(asset: RawAsset, assetId: string): (name: string)
    ensures name == assetId || (asset.name == Some(name) && name != "")
    ensures asset.name.Some? && asset.name.value != "" ==> name == asset.name.value
    ensures asset.name.None? || asset.name == Some("") ==> name == assetId
  {
    match asset.name
    case Some(n) => if n != "" then n else assetId
    case None => assetId
  }

  /** `x || 0` for a numeric field: `null`, absent (and 0) all read as 0. */
  function OrZero(x: JsonNumber): real {
    match x
    case Num(v) => v
    case Null => 0.0
    case Absent => 0.0
  }

  /** `Math.random() * 10 - 5`, the made-up 24 h change in percent. */
  function RandomChange(r: real): (pct: real)
    requires 0.0 <= r < 1.0
    ensures -5.0 <= pct < 5.0
  {
    r * 10.0 - 5.0
  }
}
