/** The market table (components/crypto-market-table.tsx): the asset records
    formatted from CoinAPI (or the built-in mock rows when the request fails),
    the sort state that the column headers toggle, and the rows ordered by
    `[...cryptoData].sort(comparator)`. */
module Market {
  import opened Builtins
  import opened CoinApi

  datatype Direction = Asc | Desc

  /** A JavaScript number that may be `NaN`. */
  datatype JsNumber = Finite(value: real) | NaN

  /** One `CryptoMarketData` row. */
  datatype MarketRow = MarketRow(
    id: string,
    name: string,
    symbol: string,
    image: string,
    currentPrice: real,
    priceChange24h: JsNumber,
    priceChangePercentage24h: real,
    marketCap: real,
    totalVolume: real)

  /** `mockCryptoData`, shown when the request fails. */
  const MockCryptoData: seq<MarketRow> := [
    MarketRow("bitcoin", "Bitcoin", "btc", CryptoIcons["BTC"], 43892.21, Finite(1340.32), 3.15, 859432000000.0, 28943000000.0),
    MarketRow("ethereum", "Ethereum", "eth", CryptoIcons["ETH"], 2354.87, Finite(-120.43), -4.87, 282943000000.0, 15432000000.0),
    MarketRow("ripple", "XRP", "xrp", CryptoIcons["XRP"], 0.58, Finite(0.03), 5.23, 31432000000.0, 1943000000.0),
    MarketRow("dogecoin", "Dogecoin", "doge", CryptoIcons["DOGE"], 0.12, Finite(0.01), 9.12, 17432000000.0, 1243000000.0),
    MarketRow("solana", "Solana", "sol", CryptoIcons["SOL"], 103.42, Finite(5.32), 5.42, 45432000000.0, 2943000000.0),
    MarketRow("cardano", "Cardano", "ada", CryptoIcons["ADA"], 0.48, Finite(0.02), 4.35, 16932000000.0, 543000000.0),
    MarketRow("polkadot", "Polkadot", "dot", CryptoIcons["DOT"], 6.84, Finite(0.32), 4.91, 9432000000.0, 343000000.0),
    MarketRow("shiba-inu", "Shiba Inu", "shib", CryptoIcons["SHIB"], 0.000018, Finite(0.000001), 5.87, 10432000000.0, 543000000.0),
    MarketRow("litecoin", "Litecoin", "ltc", CryptoIcons["LTC"], 68.43, Finite(3.21), 4.92, 5132000000.0, 343000000.0)
  ]

  // ---------------------------------------------------------------------------
  // Formatting the API payload

  /** The row the `assetsData.map` callback builds from an asset with an id,
      given the `Math.random()` draw r. */
  function FormatAsset(asset: RawAsset, r: real): MarketRow
    requires asset.assetId.Some?
    requires 0.0 <= r < 1.0
  {
    var assetId := asset.assetId.value;
    var randomChange := RandomChange(r);
    var priceChange := match asset.priceUsd
      case Num(p) => Finite(p * (randomChange / 100.0))
      case Null => Finite(0.0)
      case Absent => NaN;
    MarketRow(ToLower(assetId), DisplayName(asset, assetId), ToLower(assetId), IconFor(assetId),
      OrZero(asset.priceUsd), priceChange, randomChange,
      OrZero(asset.volume1DayUsd), OrZero(asset.volume1HrsUsd))
  }

  /** `assetsData.map(...)`: `None` when an asset has no `asset_id`, because
      `asset_id.toLowerCase()` then throws and the whole `map` is abandoned. */
  function FormatAssets(assets: seq<RawAsset>, random: nat -> real): (rows: Option<seq<MarketRow>>)
    requires IsRandomStream(random)
    ensures rows.Some? <==> AllHaveIds(assets)
    ensures rows.Some? ==> |rows.value| == |assets|
    ensures rows.Some? ==> forall i :: 0 <= i < |assets| ==> rows.value[i] == FormatAsset(assets[i], random(i))
  {
    if AllHaveIds(assets) then
      Some(seq(|assets|, i requires 0 <= i < |assets| => FormatAsset(assets[i], random(i))))
    else None
  }

  /** What each formatted row promises about the asset it came from: id and
      symbol are the lower-cased `asset_id`; a non-empty name is kept and
      otherwise the id stands in; `null` or absent numbers read as 0; the
      percentage change lies in [-5, 5) and the absolute change is that
      percentage of the price, 0 for a `null` price and `NaN` for an absent
      one. */
  lemma FormatAssetFields(asset: RawAsset, r: real)
    requires asset.assetId.Some?
    requires 0.0 <= r < 1.0
    ensures var row := FormatAsset(asset, r);
      && row.id == row.symbol == ToLower(asset.assetId.value)
      && (forall k :: 0 <= k < |row.symbol| ==> !IsUpper(row.symbol[k]))
      && (row.name == asset.assetId.value || (asset.name == Some(row.name) && row.name != ""))
      && (asset.name.Some? && asset.name.value != "" ==> row.name == asset.name.value)
      && row.currentPrice == (if asset.priceUsd.Num? then asset.priceUsd.value else 0.0)
      && row.marketCap == (if asset.volume1DayUsd.Num? then asset.volume1DayUsd.value else 0.0)
      && row.totalVolume == (if asset.volume1HrsUsd.Num? then asset.volume1HrsUsd.value else 0.0)
      && -5.0 <= row.priceChangePercentage24h < 5.0
      && (row.priceChange24h.NaN? <==> asset.priceUsd.Absent?)
      && (asset.priceUsd.Null? ==> row.priceChange24h == Finite(0.0))
      && (row.priceChange24h.Finite? ==>
            row.priceChange24h.value * 100.0 == row.currentPrice * row.priceChangePercentage24h)
  {
  }

  /** A record carrying only `asset_id: "XYZ"` and `price_usd: 1.23` becomes
      the row with id and symbol "xyz", name "XYZ", the placeholder icon, price
      1.23, market cap and volume 0. */
  lemma FormatBareRecord(r: real)
    requires 0.0 <= r < 1.0
    ensures var row := FormatAsset(RawAsset(Some("XYZ"), None, Num(1.23), Absent, Absent), r);
      row.id == "xyz" && row.symbol == "xyz" && row.name == "XYZ" &&
      row.image == PlaceholderIcon + "XYZ" && row.currentPrice == 1.23 &&
      row.marketCap == 0.0 && row.totalVolume == 0.0
  {
  }

  /** The rows the table holds after its fetch settled, and whether they are
      the mock rows: the formatted payload on success, otherwise (a failed
      request, or an asset without an id) `mockCryptoData`. */
  function MarketData(outcome: Fetch<seq<RawAsset>>, random: nat -> real): (seq<MarketRow>, bool)
    requires IsRandomStream(random)
  {
    match outcome
    case Failed => (MockCryptoData, true)
    case Fetched(assets) =>
      match FormatAssets(assets, random)
      case Some(rows) => (rows, false)
      case None => (MockCryptoData, true)
  }

  // ---------------------------------------------------------------------------
  // The sort state

  datatype SortState = SortState(column: string, direction: Direction)

  const InitialSort := SortState("market_cap", Desc)

  function Flip(d: Direction): Direction {
    if d == Asc then Desc else Asc
  }

  /** The state after `handleSort(column)`. */
  function NextSort(s: SortState, column: string): (r: SortState)
    ensures r.column == column
    ensures s.column == column ==> r.direction != s.direction
    ensures s.column != column ==> r.direction == Desc
  {
    if s.column == column then SortState(column, Flip(s.direction)) else SortState(column, Desc)
  }

  /** Clicking the current column twice restores the state. */
  lemma TwoClicksRestore(s: SortState)
    ensures NextSort(NextSort(s, s.column), s.column) == s
  {
  }

  /** The state after a sequence of header clicks. */
  function ApplyClicks(s: SortState, clicks: seq<string>): SortState
    decreases |clicks|
  {
    if clicks == [] then s else ApplyClicks(NextSort(s, clicks[0]), clicks[1..])
  }

  function FlipTimes(d: Direction, r: nat): Direction {
    if r % 2 == 0 then d else Flip(d)
  }

  /** r clicks on one column: the column is selected, and the direction flips
      r times from the current one when the column was already selected, or
      otherwise starts at descending and flips r - 1 times. */
  lemma {:induction false} ClicksOnOneColumn(s: SortState, column: string, r: nat)
    ensures ApplyClicks(s, seq(r, _ => column)) ==
      if r == 0 then s
      else if s.column == column then SortState(column, FlipTimes(s.direction, r))
      else SortState(column, FlipTimes(Desc, r - 1))
    decreases r
  {
    if r > 0 {
      var clicks := seq(r, _ => column);
      assert clicks[1..] == seq(r - 1, _ => column);
      ClicksOnOneColumn(NextSort(s, column), column, r - 1);
    }
  }

  /** Clicking Price, Price, then Market Cap from the initial state passes
      through (price, desc), (price, asc) and (market cap, desc). */
  lemma ClickScenario()
    ensures NextSort(InitialSort, "current_price") == SortState("current_price", Desc)
    ensures NextSort(NextSort(InitialSort, "current_price"), "current_price") == SortState("current_price", Asc)
    ensures ApplyClicks(InitialSort, ["current_price", "current_price", "market_cap"]) == SortState("market_cap", Desc)
  {
    var clicks := ["current_price", "current_price", "market_cap"];
    assert clicks[1..] == ["current_price", "market_cap"];
    assert clicks[1..][1..] == ["market_cap"];
  }

  // ---------------------------------------------------------------------------
  // The comparator

  /** What `row[column]` yields for a column name. */
  datatype FieldValue = Number(x: real) | NotANumber | Text(s: string) | Undefined

  const TextColumns := {"id", "name", "symbol", "image"}
  const NumericColumns := {"current_price", "price_change_percentage_24h", "market_cap", "total_volume"}

  /** `row[column]`: text for the four text columns, a number for the numeric
      ones, the possibly-`NaN` absolute change for "price_change_24h", and
      `undefined` for any other name. */
  function Field(row: MarketRow, column: string): (v: FieldValue)
    ensures column in TextColumns <==> v.Text?
    ensures column in NumericColumns ==> v.Number?
    ensures column == "price_change_24h" ==> (v.NotANumber? <==> row.priceChange24h.NaN?)
    ensures column == "price_change_24h" && row.priceChange24h.Finite? ==> v == Number(row.priceChange24h.value)
    ensures column !in TextColumns && column !in NumericColumns && column != "price_change_24h" <==> v.Undefined?
  {
    if column == "id" then Text(row.id)
    else if column == "name" then Text(row.name)
    else if column == "symbol" then Text(row.symbol)
    else if column == "image" then Text(row.image)
    else if column == "current_price" then Number(row.currentPrice)
    else if column == "price_change_24h" then
      (match row.priceChange24h case Finite(x) => Number(x) case NaN => NotANumber)
    else if column == "price_change_percentage_24h" then Number(row.priceChangePercentage24h)
    else if column == "market_cap" then Number(row.marketCap)
    else if column == "total_volume" then Number(row.totalVolume)
    else Undefined
  }

  /** `String.prototype.localeCompare`, taken as the lexicographic order on
      character codes: negative, zero or positive. */
  function LocaleCompare(a: string, b: string): (r: int)
    ensures -1 <= r <= 1
  {
    if a == [] && b == [] then 0
    else if a == [] then -1
    else if b == [] then 1
    else if a[0] < b[0] then -1
    else if a[0] > b[0] then 1
    else LocaleCompare(a[1..], b[1..])
  }

  lemma {:induction false} LocaleCompareAntisymmetric(a: string, b: string)
    ensures LocaleCompare(b, a) == -LocaleCompare(a, b)
  {
    if a != [] && b != [] && a[0] == b[0] {
      LocaleCompareAntisymmetric(a[1..], b[1..]);
    }
  }

  lemma {:induction false} LocaleCompareZero(a: string, b: string)
    ensures LocaleCompare(a, b) == 0 <==> a == b
  {
    if a != [] && b != [] && a[0] == b[0] {
      LocaleCompareZero(a[1..], b[1..]);
      assert a == [a[0]] + a[1..] && b == [b[0]] + b[1..];
    }
  }

  lemma {:induction false} LocaleCompareTransitive(a: string, b: string, c: string)
    ensures LocaleCompare(a, b) < 0 && LocaleCompare(b, c) < 0 ==> LocaleCompare(a, c) < 0
  {
    if a != [] && b != [] && c != [] && a[0] == b[0] == c[0] {
      LocaleCompareTransitive(a[1..], b[1..], c[1..]);
    }
  }

  /** The comparator handed to `sort`: a difference of numbers, a
      `localeCompare` of strings (operands swapped when descending), and 0
      otherwise. A `NaN` difference is kept as `NaN`. */
  function Compare(a: MarketRow, b: MarketRow, column: string, dir: Direction): JsNumber {
    match (Field(a, column), Field(b, column))
    case (Number(x), Number(y)) => if dir == Asc then Finite(x - y) else Finite(y - x)
    case (Number(_), NotANumber) => NaN
    case (NotANumber, Number(_)) => NaN
    case (NotANumber, NotANumber) => NaN
    case (Text(x), Text(y)) =>
      if dir == Asc then Finite(LocaleCompare(x, y) as real) else Finite(LocaleCompare(y, x) as real)
    case _ => Finite(0.0)
  }

  /** `sort` reads a `NaN` comparison as 0 (the two elements are kept in order). */
  function SortKey(v: JsNumber): real {
    match v
    case Finite(x) => x
    case NaN => 0.0
  }

  /** a is placed before b: the comparator returned a negative number. */
  predicate Precedes(a: MarketRow, b: MarketRow, column: string, dir: Direction) {
    SortKey(Compare(a, b, column, dir)) < 0.0
  }

  /** Descending compares with the operands swapped. */
  lemma DescendingSwapsOperands(a: MarketRow, b: MarketRow, column: string)
    ensures Compare(a, b, column, Desc) == Compare(b, a, column, Asc)
    ensures Precedes(a, b, column, Desc) <==> Precedes(b, a, column, Asc)
  {
  }

  lemma PrecedesAsymmetric(a: MarketRow, b: MarketRow, column: string, dir: Direction)
    ensures Precedes(a, b, column, dir) ==> !Precedes(b, a, column, dir)
  {
    if Field(a, column).Text? && Field(b, column).Text? {
      LocaleCompareAntisymmetric(Field(a, column).s, Field(b, column).s);
    }
  }

  lemma PrecedesTransitive(a: MarketRow, b: MarketRow, c: MarketRow, column: string, dir: Direction)
    ensures Precedes(a, b, column, dir) && Precedes(b, c, column, dir) ==> Precedes(a, c, column, dir)
  {
    if Field(a, column).Text? && Field(b, column).Text? && Field(c, column).Text? {
      var x, y, z := Field(a, column).s, Field(b, column).s, Field(c, column).s;
      LocaleCompareTransitive(x, y, z);
      LocaleCompareTransitive(z, y, x);
    }
  }

  // ---------------------------------------------------------------------------
  // The stable sort

  /** No row is placed after a row it precedes. */
  ghost predicate Sorted(s: seq<MarketRow>, column: string, dir: Direction) {
    forall i, j :: 0 <= i < j < |s| ==> !Precedes(s[j], s[i], column, dir)
  }

  /** Insert x into sorted s before the first row it precedes, hence after
      every row it ties with. */
  function Insert(x: MarketRow, s: seq<MarketRow>, column: string, dir: Direction): seq<MarketRow> {
    if s == [] then [x]
    else if Precedes(x, s[0], column, dir) then [x] + s
    else [s[0]] + Insert(x, s[1..], column, dir)
  }

  /** `[...rows].sort(comparator)`, as a stable insertion sort. */
  function SortRows(rows: seq<MarketRow>, column: string, dir: Direction): seq<MarketRow> {
    if rows == [] then []
    else Insert(rows[|rows| - 1], SortRows(rows[..|rows| - 1], column, dir), column, dir)
  }

  lemma {:induction false} InsertPermutation(x: MarketRow, s: seq<MarketRow>, column: string, dir: Direction)
    ensures multiset(Insert(x, s, column, dir)) == multiset(s) + multiset{x}
  {
    if s != [] && !Precedes(x, s[0], column, dir) {
      InsertPermutation(x, s[1..], column, dir);
      assert Insert(x, s, column, dir) == [s[0]] + Insert(x, s[1..], column, dir);
      assert s == [s[0]] + s[1..];
    }
  }

  /** Placing x in front keeps the rows sorted when x precedes the first one. */
  lemma PrependSorted(x: MarketRow, s: seq<MarketRow>, column: string, dir: Direction)
    requires Sorted(s, column, dir)
    requires s != [] && Precedes(x, s[0], column, dir)
    ensures Sorted([x] + s, column, dir)
  {
    forall j | 0 <= j < |s| ensures !Precedes(s[j], x, column, dir) {
      PrecedesTransitive(s[j], x, s[0], column, dir);
      PrecedesAsymmetric(x, s[0], column, dir);
      if j > 0 { assert !Precedes(s[j], s[0], column, dir); }
      PrecedesAsymmetric(s[0], s[0], column, dir);
    }
    var r := [x] + s;
    forall i, j | 0 <= i < j < |r| ensures !Precedes(r[j], r[i], column, dir) {
      if i > 0 { assert r[i] == s[i - 1] && r[j] == s[j - 1]; } else { assert r[j] == s[j - 1]; }
    }
  }

  lemma {:induction false} InsertSorted(x: MarketRow, s: seq<MarketRow>, column: string, dir: Direction)
    requires Sorted(s, column, dir)
    ensures Sorted(Insert(x, s, column, dir), column, dir)
  {
    if s == [] {
    } else if Precedes(x, s[0], column, dir) {
      PrependSorted(x, s, column, dir);
    } else {
      InsertSorted(x, s[1..], column, dir);
      var t := Insert(x, s[1..], column, dir);
      assert Insert(x, s, column, dir) == [s[0]] + t;
      forall j | 0 <= j < |t| ensures !Precedes(t[j], s[0], column, dir) {
        assert t[j] in multiset(t);
        InsertedAfterHead(x, s, column, dir, t[j]);
      }
      ConsSorted(s[0], t, column, dir);
    }
  }

  /** A row that no row of sorted t precedes may go in front of t. */
  lemma ConsSorted(h: MarketRow, t: seq<MarketRow>, column: string, dir: Direction)
    requires Sorted(t, column, dir)
    requires forall j :: 0 <= j < |t| ==> !Precedes(t[j], h, column, dir)
    ensures Sorted([h] + t, column, dir)
  {
    var r := [h] + t;
    forall i, j | 0 <= i < j < |r| ensures !Precedes(r[j], r[i], column, dir) {
      assert r[j] == t[j - 1];
      if i > 0 {
        assert r[i] == t[i - 1];
      }
    }
  }

  /** Every row of the insertion into the tail of sorted s, x included when it
      does not precede the head, is one the head may stay in front of. */
  lemma InsertedAfterHead(x: MarketRow, s: seq<MarketRow>, column: string, dir: Direction, y: MarketRow)
    requires Sorted(s, column, dir) && s != [] && !Precedes(x, s[0], column, dir)
    requires y in multiset(Insert(x, s[1..], column, dir))
    ensures !Precedes(y, s[0], column, dir)
  {
    InsertPermutation(x, s[1..], column, dir);
    if y != x {
      assert y in multiset(s[1..]);
      var k :| 0 <= k < |s[1..]| && s[1..][k] == y;
      assert s[k + 1] == y;
    }
  }

  /** The sorted rows are a permutation of the input, ordered by the comparator. */
  lemma SortRowsSortedPermutation(rows: seq<MarketRow>, column: string, dir: Direction)
    ensures Sorted(SortRows(rows, column, dir), column, dir)
    ensures multiset(SortRows(rows, column, dir)) == multiset(rows)
    ensures |SortRows(rows, column, dir)| == |rows|
  {
    SortRowsSorted(rows, column, dir);
    SortRowsPermutation(rows, column, dir);
    assert |SortRows(rows, column, dir)| == |multiset(SortRows(rows, column, dir))|;
  }

  lemma {:induction false} SortRowsSorted(rows: seq<MarketRow>, column: string, dir: Direction)
    ensures Sorted(SortRows(rows, column, dir), column, dir)
  {
    if rows != [] {
      SortRowsSorted(rows[..|rows| - 1], column, dir);
      InsertSorted(rows[|rows| - 1], SortRows(rows[..|rows| - 1], column, dir), column, dir);
    }
  }

  lemma {:induction false} SortRowsPermutation(rows: seq<MarketRow>, column: string, dir: Direction)
    ensures multiset(SortRows(rows, column, dir)) == multiset(rows)
  {
    if rows != [] {
      var init, last := rows[..|rows| - 1], rows[|rows| - 1];
      assert SortRows(rows, column, dir) == Insert(last, SortRows(init, column, dir), column, dir);
      SortRowsPermutation(init, column, dir);
      InsertPermutation(last, SortRows(init, column, dir), column, dir);
      MultisetOfSnoc(rows);
    }
  }

  lemma MultisetOfSnoc(rows: seq<MarketRow>)
    requires rows != []
    ensures multiset(rows) == multiset(rows[..|rows| - 1]) + multiset{rows[|rows| - 1]}
  {
    assert rows == rows[..|rows| - 1] + [rows[|rows| - 1]];
  }

  // ---------------------------------------------------------------------------
  // Stability

  /** The rows of s whose value in the column is v, in the order of s. */
  function WithValue(s: seq<MarketRow>, column: string, v: FieldValue): seq<MarketRow> {
    if s == [] then [] else Kept(s[0], column, v) + WithValue(s[1..], column, v)
  }

  /** The row alone when its value in the column is v, otherwise nothing. */
  function Kept(row: MarketRow, column: string, v: FieldValue): seq<MarketRow> {
    if Field(row, column) == v then [row] else []
  }

  lemma {:induction false} WithValueSnoc(s: seq<MarketRow>, x: MarketRow, column: string, v: FieldValue)
    ensures WithValue(s + [x], column, v) == WithValue(s, column, v) + Kept(x, column, v)
  {
    if s == [] {
      assert [x][1..] == [];
    } else {
      assert (s + [x])[1..] == s[1..] + [x];
      WithValueSnoc(s[1..], x, column, v);
    }
  }

  /** Rows with the same value in the column compare alike with every row. */
  lemma SameValueSamePrecedence(x: MarketRow, y: MarketRow, z: MarketRow, column: string, dir: Direction)
    requires Field(x, column) == Field(y, column)
    ensures Precedes(x, z, column, dir) <==> Precedes(y, z, column, dir)
    ensures !Precedes(x, y, column, dir)
  {
    if Field(x, column).Text? {
      LocaleCompareZero(Field(x, column).s, Field(y, column).s);
    }
  }

  /** Inserting x into sorted rows puts it after every row that shares its value. */
  lemma {:induction false} InsertWithValue(x: MarketRow, s: seq<MarketRow>, column: string, dir: Direction, v: FieldValue)
    requires Sorted(s, column, dir)
    ensures WithValue(Insert(x, s, column, dir), column, v) == WithValue(s, column, v) + Kept(x, column, v)
  {
    if s == [] {
      WithValueCons(x, [], column, v);
    } else if Precedes(x, s[0], column, dir) {
      InsertInFront(x, s, column, dir, v);
    } else {
      InsertWithValue(x, s[1..], column, dir, v);
      InsertBehindHead(x, s, column, dir, v);
    }
  }

  lemma InsertInFront(x: MarketRow, s: seq<MarketRow>, column: string, dir: Direction, v: FieldValue)
    requires Sorted(s, column, dir) && s != [] && Precedes(x, s[0], column, dir)
    ensures WithValue(Insert(x, s, column, dir), column, v) == WithValue(s, column, v) + Kept(x, column, v)
  {
    WithValueCons(x, s, column, v);
    if Field(x, column) == v {
      NoneWithValue(x, s, column, dir, v);
    }
  }

  lemma InsertBehindHead(x: MarketRow, s: seq<MarketRow>, column: string, dir: Direction, v: FieldValue)
    requires s != [] && !Precedes(x, s[0], column, dir)
    requires WithValue(Insert(x, s[1..], column, dir), column, v) == WithValue(s[1..], column, v) + Kept(x, column, v)
    ensures WithValue(Insert(x, s, column, dir), column, v) == WithValue(s, column, v) + Kept(x, column, v)
  {
    var t := Insert(x, s[1..], column, dir);
    assert Insert(x, s, column, dir) == [s[0]] + t;
    WithValueCons(s[0], t, column, v);
    WithValueCons(s[0], s[1..], column, v);
    assert s == [s[0]] + s[1..];
    var k0, rest := Kept(s[0], column, v), WithValue(s[1..], column, v);
    assert k0 + (rest + Kept(x, column, v)) == (k0 + rest) + Kept(x, column, v);
  }

  lemma WithValueCons(h: MarketRow, t: seq<MarketRow>, column: string, v: FieldValue)
    ensures WithValue([h] + t, column, v) == Kept(h, column, v) + WithValue(t, column, v)
  {
    assert ([h] + t)[1..] == t;
  }

  /** When x precedes the head of sorted s, no row of s shares x's value. */
  lemma NoneWithValue(x: MarketRow, s: seq<MarketRow>, column: string, dir: Direction, v: FieldValue)
    requires Sorted(s, column, dir) && s != [] && Precedes(x, s[0], column, dir)
    requires Field(x, column) == v
    ensures WithValue(s, column, v) == []
  {
    forall k | 0 <= k < |s| ensures Field(s[k], column) != v {
      if Field(s[k], column) == v {
        SameValueSamePrecedence(x, s[k], s[0], column, dir);
      }
    }
    WithoutValue(s, column, v);
  }

  lemma {:induction false} WithoutValue(s: seq<MarketRow>, column: string, v: FieldValue)
    requires forall k | 0 <= k < |s| :: Field(s[k], column) != v
    ensures WithValue(s, column, v) == []
  {
    if s != [] {
      WithoutValue(s[1..], column, v);
    }
  }

  /** `Array.prototype.sort` is stable: the rows sharing any one value in the
      sort column come out in their input order. */
  lemma {:induction false} SortRowsStable(rows: seq<MarketRow>, column: string, dir: Direction, v: FieldValue)
    ensures WithValue(SortRows(rows, column, dir), column, v) == WithValue(rows, column, v)
  {
    if rows != [] {
      var init, last := rows[..|rows| - 1], rows[|rows| - 1];
      assert SortRows(rows, column, dir) == Insert(last, SortRows(init, column, dir), column, dir);
      SortRowsStable(init, column, dir, v);
      SortRowsSorted(init, column, dir);
      InsertWithValue(last, SortRows(init, column, dir), column, dir, v);
      assert rows == init + [last];
      WithValueSnoc(init, last, column, v);
    }
  }

  /** On a numeric column the sorted rows are non-decreasing when ascending and
      non-increasing when descending. */
  lemma SortedNumericColumn(rows: seq<MarketRow>, column: string, dir: Direction)
    requires column in NumericColumns
    ensures var s := SortRows(rows, column, dir);
      forall i, j :: 0 <= i < j < |s| ==>
        if dir == Asc then Field(s[i], column).x <= Field(s[j], column).x
        else Field(s[i], column).x >= Field(s[j], column).x
  {
    SortRowsSortedPermutation(rows, column, dir);
  }

  /** On a text column the sorted rows follow `localeCompare` when ascending
      and its reverse when descending. */
  lemma SortedTextColumn(rows: seq<MarketRow>, column: string, dir: Direction)
    requires column in TextColumns
    ensures var s := SortRows(rows, column, dir);
      forall i, j :: 0 <= i < j < |s| ==>
        if dir == Asc then LocaleCompare(Field(s[i], column).s, Field(s[j], column).s) <= 0
        else LocaleCompare(Field(s[j], column).s, Field(s[i], column).s) <= 0
  {
    var s := SortRows(rows, column, dir);
    SortRowsSortedPermutation(rows, column, dir);
    forall i, j | 0 <= i < j < |s|
      ensures if dir == Asc then LocaleCompare(Field(s[i], column).s, Field(s[j], column).s) <= 0
        else LocaleCompare(Field(s[j], column).s, Field(s[i], column).s) <= 0
    {
      LocaleCompareAntisymmetric(Field(s[i], column).s, Field(s[j], column).s);
    }
  }

  lemma {:induction false} InsertWithoutPrecedence(x: MarketRow, s: seq<MarketRow>, column: string, dir: Direction)
    requires Field(x, column).Undefined?
    ensures Insert(x, s, column, dir) == s + [x]
  {
    if s != [] {
      InsertWithoutPrecedence(x, s[1..], column, dir);
      assert s == [s[0]] + s[1..];
    }
  }

  /** On a column the rows do not have, the comparator always returns 0 and
      the stable sort keeps the input order. */
  lemma {:induction false} UnknownColumnKeepsOrder(rows: seq<MarketRow>, column: string, dir: Direction)
    requires column !in TextColumns && column !in NumericColumns && column != "price_change_24h"
    ensures SortRows(rows, column, dir) == rows
  {
    if rows != [] {
      var init := rows[..|rows| - 1];
      UnknownColumnKeepsOrder(init, column, dir);
      InsertWithoutPrecedence(rows[|rows| - 1], init, column, dir);
      assert rows == init + [rows[|rows| - 1]];
    }
  }

  // ---------------------------------------------------------------------------
  // With distinct keys the order is fully determined

  /** Any two distinct rows of s are ordered one way or the other. */
  ghost predicate Comparable(s: seq<MarketRow>, column: string, dir: Direction) {
    forall x, y :: x in s && y in s && x != y ==> Precedes(x, y, column, dir) || Precedes(y, x, column, dir)
  }

  /** No two distinct rows share a value in the column. */
  ghost predicate DistinctKeys(rows: seq<MarketRow>, column: string) {
    forall x, y :: x in rows && y in rows && Field(x, column) == Field(y, column) ==> x == y
  }

  lemma DistinctKeysComparable(rows: seq<MarketRow>, column: string, dir: Direction)
    requires column in TextColumns || column in NumericColumns
    requires DistinctKeys(rows, column)
    ensures Comparable(rows, column, dir)
  {
    forall x, y | x in rows && y in rows && x != y
      ensures Precedes(x, y, column, dir) || Precedes(y, x, column, dir)
    {
      if column in TextColumns {
        LocaleCompareZero(Field(x, column).s, Field(y, column).s);
        LocaleCompareAntisymmetric(Field(x, column).s, Field(y, column).s);
      }
    }
  }

  /** Two sorted permutations of one another, over pairwise comparable rows,
      start with the same row. */
  lemma SameFirst(s1: seq<MarketRow>, s2: seq<MarketRow>, column: string, dir: Direction)
    requires multiset(s1) == multiset(s2)
    requires Sorted(s1, column, dir) && Sorted(s2, column, dir)
    requires Comparable(s1, column, dir)
    requires s1 != []
    ensures s2 != [] && s1[0] == s2[0]
  {
    assert s1[0] in multiset(s2);
    assert s2[0] in multiset(s1);
    var k :| 0 <= k < |s2| && s2[k] == s1[0];
    var l :| 0 <= l < |s1| && s1[l] == s2[0];
    if k > 0 { assert !Precedes(s1[0], s2[0], column, dir); }
    if l > 0 { assert !Precedes(s2[0], s1[0], column, dir); }
  }

  lemma TailsPermutation(s1: seq<MarketRow>, s2: seq<MarketRow>)
    requires s1 != [] && s2 != [] && s1[0] == s2[0]
    requires multiset(s1) == multiset(s2)
    ensures multiset(s1[1..]) == multiset(s2[1..])
  {
    assert s1 == [s1[0]] + s1[1..] && s2 == [s2[0]] + s2[1..];
    var m1, m2 := multiset(s1[1..]), multiset(s2[1..]);
    assert multiset(s1) == multiset{s1[0]} + m1;
    assert multiset(s2) == multiset{s1[0]} + m2;
    forall x ensures m1[x] == m2[x] {
      assert multiset(s1)[x] == multiset{s1[0]}[x] + m1[x];
      assert multiset(s2)[x] == multiset{s1[0]}[x] + m2[x];
    }
  }

  lemma SortedTail(s: seq<MarketRow>, column: string, dir: Direction)
    requires s != [] && Sorted(s, column, dir) && Comparable(s, column, dir)
    ensures Sorted(s[1..], column, dir) && Comparable(s[1..], column, dir)
  {
    var t := s[1..];
    forall i, j | 0 <= i < j < |t| ensures !Precedes(t[j], t[i], column, dir) {
      assert t[i] == s[i + 1] && t[j] == s[j + 1];
    }
    assert forall x :: x in t ==> x in s;
  }

  /** Two sorted permutations of one another, over rows that are pairwise
      comparable, are equal. */
  lemma {:induction false} SortedPermutationUnique(s1: seq<MarketRow>, s2: seq<MarketRow>, column: string, dir: Direction)
    requires multiset(s1) == multiset(s2)
    requires Sorted(s1, column, dir) && Sorted(s2, column, dir)
    requires Comparable(s1, column, dir)
    ensures s1 == s2
  {
    if s1 == [] {
      assert |s2| == |multiset(s2)| == 0;
    } else {
      SameFirst(s1, s2, column, dir);
      TailsPermutation(s1, s2);
      SortedTail(s1, column, dir);
      assert Sorted(s2[1..], column, dir) by {
        forall i, j | 0 <= i < j < |s2[1..]| ensures !Precedes(s2[1..][j], s2[1..][i], column, dir) {
          assert s2[1..][i] == s2[i + 1] && s2[1..][j] == s2[j + 1];
        }
      }
      SortedPermutationUnique(s1[1..], s2[1..], column, dir);
      assert s1 == [s1[0]] + s1[1..] && s2 == [s2[0]] + s2[1..];
    }
  }

  function Reverse<T>(s: seq<T>): (r: seq<T>)
    ensures |r| == |s| && multiset(r) == multiset(s)
    ensures forall i :: 0 <= i < |s| ==> r[i] == s[|s| - 1 - i]
  {
    if s == [] then [] else
      var t := Reverse(s[1..]);
      assert s == [s[0]] + s[1..];
      assert multiset(t + [s[0]]) == multiset(t) + multiset{s[0]};
      t + [s[0]]
  }

  /** With distinct keys in a sortable column, descending order is exactly
      ascending order reversed. */
  lemma DescendingIsReversedAscending(rows: seq<MarketRow>, column: string)
    requires column in TextColumns || column in NumericColumns
    requires DistinctKeys(rows, column)
    ensures SortRows(rows, column, Desc) == Reverse(SortRows(rows, column, Asc))
  {
    var asc, desc := SortRows(rows, column, Asc), SortRows(rows, column, Desc);
    SortRowsSortedPermutation(rows, column, Asc);
    SortRowsSortedPermutation(rows, column, Desc);
    var rev := Reverse(asc);
    forall i, j | 0 <= i < j < |rev| ensures !Precedes(rev[j], rev[i], column, Desc) {
      DescendingSwapsOperands(rev[j], rev[i], column);
    }
    assert forall x :: x in desc <==> x in rows by {
      assert forall x :: x in desc <==> x in multiset(desc);
    }
    assert DistinctKeys(desc, column);
    DistinctKeysComparable(desc, column, Desc);
    SortedPermutationUnique(desc, rev, column, Desc);
  }

  /** Sorting descending, then ascending, then descending again gives the first
      descending order back when the keys are distinct. */
  lemma ResortRestoresOrder(rows: seq<MarketRow>, column: string)
    requires column in TextColumns || column in NumericColumns
    requires DistinctKeys(rows, column)
    ensures SortRows(SortRows(SortRows(rows, column, Desc), column, Asc), column, Desc) == SortRows(rows, column, Desc)
  {
    var first := SortRows(rows, column, Desc);
    var again := SortRows(SortRows(first, column, Asc), column, Desc);
    SortRowsSortedPermutation(rows, column, Desc);
    SortRowsSortedPermutation(first, column, Asc);
    SortRowsSortedPermutation(SortRows(first, column, Asc), column, Desc);
    assert forall x :: x in first <==> x in rows by {
      assert forall x :: x in first <==> x in multiset(first);
    }
    assert DistinctKeys(first, column);
    DistinctKeysComparable(first, column, Desc);
    SortedPermutationUnique(first, again, column, Desc);
  }

  // ---------------------------------------------------------------------------
  // The component

  /** The table's state: the rows, the loading and demo-data flags, and the
      sort column and direction. */
  class CryptoMarketTable {
    var cryptoData: seq<MarketRow>
    var loading: bool
    var sortColumn: string
    var sortDirection: Direction
    var usingMockData: bool

    function State(): SortState
      reads this
    {
      SortState(sortColumn, sortDirection)
    }

    constructor ()
      ensures cryptoData == [] && loading && !usingMockData
      ensures State() == InitialSort
    {
      cryptoData := [];
      loading := true;
      sortColumn := "market_cap";
      sortDirection := Desc;
      usingMockData := false;
    }

    /** `handleSort(column)`. */
    method HandleSort(column: string)
      modifies this
      ensures State() == NextSort(old(State()), column)
      ensures cryptoData == old(cryptoData) && loading == old(loading) && usingMockData == old(usingMockData)
    {
      if sortColumn == column {
        sortDirection := if sortDirection == Asc then Desc else Asc;
      } else {
        sortColumn := column;
        sortDirection := Desc;
      }
    }

    /** `fetchCryptoMarketData` after the request settled. */
    method FetchCryptoMarketData(outcome: Fetch<seq<RawAsset>>, random: nat -> real)
      requires IsRandomStream(random)
      modifies this
      ensures (cryptoData, usingMockData) == MarketData(outcome, random)
      ensures !loading && State() == old(State())
    {
      var formatted := if outcome.Fetched? then FormatAssets(outcome.payload, random) else None;
      if formatted.Some? {
        cryptoData := formatted.value;
        usingMockData := false;
      } else {
        cryptoData := MockCryptoData;
        usingMockData := true;
      }
      loading := false;
    }

    /** `sortedData`: the rows in the current sort order; `cryptoData` itself
        is left as it is. */
    function SortedData(): (rows: seq<MarketRow>)
      reads this
      ensures multiset(rows) == multiset(cryptoData)
      ensures Sorted(rows, sortColumn, sortDirection)
      ensures forall v :: WithValue(rows, sortColumn, v) == WithValue(cryptoData, sortColumn, v)
    {
      SortRowsSortedPermutation(cryptoData, sortColumn, sortDirection);
      forall v ensures WithValue(SortRows(cryptoData, sortColumn, sortDirection), sortColumn, v) == WithValue(cryptoData, sortColumn, v) {
        SortRowsStable(cryptoData, sortColumn, sortDirection, v);
      }
      SortRows(cryptoData, sortColumn, sortDirection)
    }
  }
}
