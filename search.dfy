/** The search dialog (components/crypto-search.tsx): the Ctrl/Cmd+K toggle,
    the empty-term reset, the CoinAPI result formatter capped at five rows,
    and the case-insensitive filter over the built-in catalogue used when the
    request fails. */
module Search {
  import opened Builtins
  import opened CoinApi

  /** One `Cryptocurrency` search result. */
  datatype Cryptocurrency = Cryptocurrency(
    id: string,
    name: string,
    symbol: string,
    image: string,
    currentPrice: real,
    priceChangePercentage24h: real)

  /** `mockSearchResults`, the catalogue searched when the request fails. */
  const MockSearchResults: seq<Cryptocurrency> := [
    Cryptocurrency("bitcoin", "Bitcoin", "btc", CryptoIcons["BTC"], 43892.21, 3.15),
    Cryptocurrency("ethereum", "Ethereum", "eth", CryptoIcons["ETH"], 2354.87, -4.87),
    Cryptocurrency("ripple", "XRP", "xrp", CryptoIcons["XRP"], 0.58, 5.23),
    Cryptocurrency("dogecoin", "Dogecoin", "doge", CryptoIcons["DOGE"], 0.12, 9.12)
  ]

  /** The most results the API path shows. */
  const MaxResults := 5

  // ---------------------------------------------------------------------------
  // The fallback filter

  /** The lower-cased name or the lower-cased symbol contains the lower-cased term. */
  predicate Matches(crypto: Cryptocurrency, term: string) {
    Includes(ToLower(crypto.name), ToLower(term)) || Includes(ToLower(crypto.symbol), ToLower(term))
  }

  /** a can be obtained from b by deleting elements. */
  predicate IsSubsequence(a: seq<Cryptocurrency>, b: seq<Cryptocurrency>)
    decreases |b|
  {
    if a == [] then true
    else if b == [] then false
    else (a[0] == b[0] && IsSubsequence(a[1..], b[1..])) || IsSubsequence(a, b[1..])
  }

  /** `catalog.filter(crypto => Matches(crypto, term))`: the matching entries in
      catalogue order; FilterSubsequence and FilterCounts state what it keeps. */
  function FilterCatalog(catalog: seq<Cryptocurrency>, term: string): seq<Cryptocurrency>
  {
    if catalog == [] then []
    else
      var rest := FilterCatalog(catalog[1..], term);
      if Matches(catalog[0], term) then [catalog[0]] + rest else rest
  }

  /** The filter only deletes entries: its result is a subsequence of the catalogue. */
  lemma {:induction false} FilterSubsequence(catalog: seq<Cryptocurrency>, term: string)
    ensures IsSubsequence(FilterCatalog(catalog, term), catalog)
    ensures |FilterCatalog(catalog, term)| <= |catalog|
  {
    if catalog != [] {
      FilterSubsequence(catalog[1..], term);
    }
  }

  /** Each entry is kept as often as the catalogue holds it when it matches, and never otherwise. */
  lemma {:induction false} FilterCounts(catalog: seq<Cryptocurrency>, term: string, c: Cryptocurrency)
    ensures multiset(FilterCatalog(catalog, term))[c] == if Matches(c, term) then multiset(catalog)[c] else 0
  {
    if catalog != [] {
      FilterCounts(catalog[1..], term, c);
      assert catalog == [catalog[0]] + catalog[1..];
    }
  }

  /** Terms that agree once lower-cased select the same entries. */
  lemma {:induction false} FilterIgnoresCase(catalog: seq<Cryptocurrency>, t1: string, t2: string)
    requires ToLower(t1) == ToLower(t2)
    ensures FilterCatalog(catalog, t1) == FilterCatalog(catalog, t2)
  {
    if catalog != [] {
      FilterIgnoresCase(catalog[1..], t1, t2);
    }
  }

  /** The filter lower-cases the term itself, so lower-casing it beforehand
      changes nothing. */
  lemma FilterLowercasedTerm(catalog: seq<Cryptocurrency>, term: string)
    ensures FilterCatalog(catalog, ToLower(term)) == FilterCatalog(catalog, term)
  {
    ToLowerIdempotent(term);
    FilterIgnoresCase(catalog, ToLower(term), term);
  }

  /** A name and symbol without the letter b in either case do not match "btc". */
  lemma NoMatchWithoutB(c: Cryptocurrency)
    requires 'b' !in c.name && 'B' !in c.name && 'b' !in c.symbol && 'B' !in c.symbol
    ensures !Matches(c, "btc")
  {
    ToLowerWithoutUpper("btc");
    ToLowerLacks(c.name, 'b');
    ToLowerLacks(c.symbol, 'b');
    NotIncludesWithoutChar(ToLower(c.name), "btc", 0);
    NotIncludesWithoutChar(ToLower(c.symbol), "btc", 0);
  }

  /** Bitcoin matches "btc" by its symbol. */
  lemma BitcoinMatchesBtc()
    ensures Matches(MockSearchResults[0], "btc")
  {
    ToLowerWithoutUpper("btc");
    assert IncludesAt(ToLower(MockSearchResults[0].symbol), "btc", 0);
  }

  /** No other catalogue entry matches "btc". */
  lemma OthersMissBtc()
    ensures forall k | 1 <= k < |MockSearchResults| :: !Matches(MockSearchResults[k], "btc")
  {
    forall k | 1 <= k < |MockSearchResults|
      ensures !Matches(MockSearchResults[k], "btc")
    {
      EntryMissesBtc(k);
    }
  }

  lemma EntryMissesBtc(k: nat)
    requires 1 <= k < |MockSearchResults|
    ensures !Matches(MockSearchResults[k], "btc")
  {
    NoMatchWithoutB(MockSearchResults[k]);
  }

  /** A catalogue whose first entry alone matches filters down to that entry. */
  lemma FilterKeepsOnlyFirst(catalog: seq<Cryptocurrency>, term: string)
    requires catalog != [] && Matches(catalog[0], term)
    requires forall k | 1 <= k < |catalog| :: !Matches(catalog[k], term)
    ensures FilterCatalog(catalog, term) == [catalog[0]]
  {
    FilterNoneMatch(catalog[1..], term);
  }

  /** A catalogue none of whose entries match filters down to nothing. */
  lemma {:induction false} FilterNoneMatch(catalog: seq<Cryptocurrency>, term: string)
    requires forall k | 0 <= k < |catalog| :: !Matches(catalog[k], term)
    ensures FilterCatalog(catalog, term) == []
  {
    if catalog != [] {
      FilterNoneMatch(catalog[1..], term);
    }
  }

  /** Searching "btc" or "BTC" in the catalogue finds Bitcoin and nothing else. */
  lemma SearchBtc()
    ensures FilterCatalog(MockSearchResults, "btc") == [MockSearchResults[0]]
    ensures FilterCatalog(MockSearchResults, "BTC") == [MockSearchResults[0]]
  {
    var m := MockSearchResults;
    BitcoinMatchesBtc();
    OthersMissBtc();
    FilterKeepsOnlyFirst(m, "btc");
    LowerBtc();
    FilterIgnoresCase(m, "BTC", "btc");
  }

  lemma LowerBtc()
    ensures ToLower("BTC") == "btc"
  {
  }

  // ---------------------------------------------------------------------------
  // The API path

  /** The result the `data.map` callback builds from an asset with an id,
      given the `Math.random()` draw r. */
  function FormatSearchAsset(asset: RawAsset, r: real): Cryptocurrency
    requires asset.assetId.Some?
    requires 0.0 <= r < 1.0
  {
    var assetId := asset.assetId.value;
    Cryptocurrency(ToLower(assetId), DisplayName(asset, assetId), ToLower(assetId), IconFor(assetId),
      OrZero(asset.priceUsd), RandomChange(r))
  }

  /** What a formatted result promises about its asset. */
  lemma FormatSearchAssetFields(asset: RawAsset, r: real)
    requires asset.assetId.Some?
    requires 0.0 <= r < 1.0
    ensures var c := FormatSearchAsset(asset, r);
      && c.id == c.symbol == ToLower(asset.assetId.value)
      && (c.name == asset.assetId.value || (asset.name == Some(c.name) && c.name != ""))
      && (asset.name.Some? && asset.name.value != "" ==> c.name == asset.name.value)
      && (asset.assetId.value in CryptoIcons ==> c.image == CryptoIcons[asset.assetId.value])
      && (asset.assetId.value !in CryptoIcons ==> PlaceholderIcon <= c.image && Includes(c.image, asset.assetId.value))
      && c.currentPrice == (if asset.priceUsd.Num? then asset.priceUsd.value else 0.0)
      && -5.0 <= c.priceChangePercentage24h < 5.0
  {
  }

  /** `data.map(...).slice(0, 5)`: the first five formatted assets in response
      order, or `None` when any asset (even past the fifth, since `map` runs
      before `slice`) has no `asset_id` and the callback throws. */
  function FormatSearchResults(assets: seq<RawAsset>, random: nat -> real): (r: Option<seq<Cryptocurrency>>)
    requires IsRandomStream(random)
    ensures r.Some? <==> AllHaveIds(assets)
    ensures r.Some? ==> |r.value| == if |assets| < MaxResults then |assets| else MaxResults
    ensures r.Some? ==> forall i :: 0 <= i < |r.value| ==> r.value[i] == FormatSearchAsset(assets[i], random(i))
  {
    if AllHaveIds(assets) then
      var formatted := seq(|assets|, i requires 0 <= i < |assets| => FormatSearchAsset(assets[i], random(i)));
      Some(if |formatted| <= MaxResults then formatted else formatted[..MaxResults])
    else None
  }

  /** The results for a non-empty term and whether they are the demo data:
      the formatted API results, or, when the request or the formatting
      fails, the entries of the fallback catalogue that match the term. */
  function SearchResults(catalog: seq<Cryptocurrency>, term: string, outcome: Fetch<seq<RawAsset>>, random: nat -> real): (seq<Cryptocurrency>, bool)
    requires IsRandomStream(random)
  {
    var formatted := if outcome.Fetched? then FormatSearchResults(outcome.payload, random) else None;
    match formatted
    case Some(rows) => (rows, false)
    case None => (FilterCatalog(catalog, term), true)
  }

  /** The `try`/`catch` of the effect: the formatted API rows, or the filtered
      catalogue when the request failed or its body was unusable. It is the
      statement form of `SearchResults`, which the lemmas reason about. */
  method RunSearch(catalog: seq<Cryptocurrency>, term: string, outcome: Fetch<seq<RawAsset>>, random: nat -> real) returns (rows: seq<Cryptocurrency>, usingMock: bool)
    requires IsRandomStream(random)
    ensures (rows, usingMock) == SearchResults(catalog, term, outcome, random)
  {
    var formatted := if outcome.Fetched? then FormatSearchResults(outcome.payload, random) else None;
    if formatted.Some? {
      rows, usingMock := formatted.value, false;
    } else {
      rows, usingMock := FilterCatalog(catalog, term), true;
    }
  }

  /** The demo results are a subsequence of the catalogue, so never more than
      its entries; API results never exceed five. */
  lemma SearchResultsBounded(catalog: seq<Cryptocurrency>, term: string, outcome: Fetch<seq<RawAsset>>, random: nat -> real)
    requires IsRandomStream(random)
    ensures SearchResults(catalog, term, outcome, random).1 ==>
      var rows := SearchResults(catalog, term, outcome, random).0;
      |rows| <= |catalog| && IsSubsequence(rows, catalog)
    ensures !SearchResults(catalog, term, outcome, random).1 ==>
      |SearchResults(catalog, term, outcome, random).0| <= MaxResults
  {
    FilterSubsequence(catalog, term);
  }

  // ---------------------------------------------------------------------------
  // The keyboard shortcut

  /** The value of `open` after a key press. */
  function Toggled(open: bool, key: string, metaKey: bool, ctrlKey: bool): (r: bool)
    ensures r != open <==> key == "k" && (metaKey || ctrlKey)
  {
    if key == "k" && (metaKey || ctrlKey) then !open else open
  }

  /** Pressing the same key twice leaves `open` as it was. */
  lemma PressTwiceRestores(open: bool, key: string, metaKey: bool, ctrlKey: bool)
    ensures Toggled(Toggled(open, key, metaKey, ctrlKey), key, metaKey, ctrlKey) == open
  {
  }

  // ---------------------------------------------------------------------------
  // The component

  /** The search dialog's state; `catalog` is the module's `mockSearchResults`,
      which the effect filters when the request fails. */
  class CryptoSearch {
    const catalog: seq<Cryptocurrency>
    var open: bool
    var results: seq<Cryptocurrency>
    var loading: bool
    var usingMockData: bool

    constructor ()
      ensures catalog == MockSearchResults
      ensures !open && results == [] && !loading && !usingMockData
    {
      catalog := MockSearchResults;
      open := false;
      results := [];
      loading := false;
      usingMockData := false;
    }

    /** The `keydown` handler: Cmd+K or Ctrl+K toggles the dialog. */
    method HandleKeyDown(key: string, metaKey: bool, ctrlKey: bool)
      modifies this
      ensures open == Toggled(old(open), key, metaKey, ctrlKey)
      ensures results == old(results) && loading == old(loading) && usingMockData == old(usingMockData)
    {
      if key == "k" && (metaKey || ctrlKey) {
        open := !open;
      }
    }

    /** The search input's `onClick`. */
    method OpenDialog()
      modifies this
      ensures open
      ensures results == old(results) && loading == old(loading) && usingMockData == old(usingMockData)
    {
      open := true;
    }

    /** A result's `onSelect`. */
    method SelectResult()
      modifies this
      ensures !open
      ensures results == old(results) && loading == old(loading) && usingMockData == old(usingMockData)
    {
      open := false;
    }

    /** The effect run when the debounced term changes, after its request (if
        any) settled; `fetched` says whether a request was made. */
    method OnDebouncedTerm(term: string, outcome: Fetch<seq<RawAsset>>, random: nat -> real) returns (fetched: bool)
      requires IsRandomStream(random)
      modifies this
      ensures fetched <==> term != ""
      ensures term == "" ==> results == [] && loading == old(loading) && usingMockData == old(usingMockData)
      ensures term != "" ==> (results, usingMockData) == SearchResults(catalog, term, outcome, random) && !loading
      ensures open == old(open)
    {
      if term == "" {
        results := [];
        return false;
      }
      loading := true;
      var rows, usingMock := RunSearch(catalog, term, outcome, random);
      results, usingMockData, loading := rows, usingMock, false;
      return true;
    }
  }
}
