# Crypto dashboard logic in Dafny

This project models the logic inside four React components of a
cryptocurrency dashboard and proves properties about it.

- **The price chart** (`components/crypto-chart.tsx`):
  - the synthetic series shown when CoinAPI cannot be reached (`generateMockData`): the number of points per range, the offset of each point from the start date, the trend factor and the price formula;
  - the label granularity (`formatDate`) and the candle period requested per range;
  - the loop that down-samples the four live OHLCV series to about 30 points.
- **The market table** (`components/crypto-market-table.tsx`):
  - the formatter that turns CoinAPI asset records into table rows;
  - the mock rows used when the request fails;
  - the `handleSort` state machine over (column, direction);
  - the comparator passed to `sort` on a copy of the rows.
- **The search dialog** (`components/crypto-search.tsx`):
  - the Ctrl/Cmd+K toggle;
  - the reset on an empty term;
  - the API formatter capped at five results;
  - the case-insensitive fallback filter over a four-entry catalogue (`mockSearchResults`, which the component's class holds as its `catalog`).
- **The news panel** (`components/market-news.tsx`):
  - `formatTimeAgo`;
  - the re-dating of the built-in articles from their "N hours ago" / "N days ago" text.

Modules:

- `Builtins` (`builtins.dfy`) states the JavaScript built-ins the components rely on, over Dafny strings and integers:
  - `toLowerCase` on ASCII;
  - `includes`;
  - `Number.parseInt` on decimal text;
  - the decimal rendering of an integer in a template literal;
  - `Math.round(x / y)`.
- `CoinApi` (`coin_api.dfy`) holds:
  - the asset record and the icon table the market table and the search dialog both use;
  - the name, price and icon defaults they both apply.
- `Chart`, `Market`, `Search` and `News` follow the four components. Each ends with a class holding the component's state. The class's methods are the state updates the component performs.

Outside inputs become parameters:

- **`Math.random()`** is a stream `random: nat -> real`. The k-th call in program order returns `random(k)`, and `IsRandomStream` says every value lies in [0, 1). The chart draws four values per point, in the order Bitcoin, Ethereum, XRP, Dogecoin. The formatters draw one value per asset.
- **A fetch** is a `Fetch` outcome: `Fetched(payload)` or `Failed`. `Failed` covers a rejected request, a response that is not OK, and a throw in the `try` block.
- **The clock in the news panel** is a function `clock: nat -> int`. Article k's callback reads `clock(2k)`, and the `formatTimeAgo` call inside it reads `clock(2k + 1)`.

Three details of the code that the model keeps:

- **Price change.** Every CoinAPI record gets the made-up change `Math.random() * 10 - 5`, a bare record with only an id and a price included.
- **Five-result cap.** Only the API path of the search dialog is cut to five results. The fallback filter keeps every match.
- **Placeholder icon.** The placeholder icon URL carries the raw `asset_id`.

## Model

| member | source | states |
|---|---|---|
| Builtins.ToLower | components/crypto-market-table.tsx:177 | lower-casing keeps the length and maps each character to its lower-case form; no upper-case letter remains |
| Builtins.ToLowerIdempotent | components/crypto-search.tsx:149-150 | lower-casing twice is the same as lower-casing once |
| Builtins.ToLowerWithoutUpper | components/crypto-search.tsx:149-150 | text without capitals is unchanged by lower-casing |
| Builtins.ToLowerLacks | components/crypto-search.tsx:149-150 | a lower-case letter absent from the text in both cases is absent from its lower-cased form |
| Builtins.NotIncludesWithoutChar | components/crypto-search.tsx:149-150 | a pattern with a character the text lacks is not included in it |
| Builtins.IncludesInSuffix | components/crypto-market-table.tsx:180 | an occurrence in the second part of a concatenation is an occurrence in the whole |
| Builtins.TrimStart | components/market-news.tsx:125 | `parseInt`'s white-space skipping drops a prefix made only of white space and returns a suffix that starts with a non-space |
| Builtins.LeadingDigits | components/market-news.tsx:125 | the digits `parseInt` reads are a prefix, all digits, followed by a non-digit or the end |
| Builtins.ParseInt | components/market-news.tsx:125 | `Number.parseInt`: white space, an optional sign, then the leading digits, `NaN` when there are none; ParseIntOfIntToString reads back every printed integer |
| Builtins.NatToString | components/market-news.tsx:160-164 | a natural number prints as a non-empty run of digits; DigitsValueOfNatToString shows their value is the number |
| Builtins.IntToString | components/market-news.tsx:160-164 | an integer prints as a non-empty text that starts with '-' exactly when it is negative, with digits everywhere after the first character and at least one digit after a '-' |
| Builtins.DigitsValueOfNatToString | components/market-news.tsx:160-164 | the printed digits of n have value n |
| Builtins.LeadingDigitsOfDigitsThen | components/market-news.tsx:125 | `parseInt` stops at the first non-digit after a run of digits |
| Builtins.ParseIntOfIntToString | components/market-news.tsx:125-128 | `parseInt` reads back a printed integer followed by any text that does not start with a digit |
| Builtins.RoundDiv | components/market-news.tsx:155-157 | `Math.round(x / y)` is the integer r with r - 1/2 <= x / y < r + 1/2 (a half rounds up) |
| CoinApi.IconFor | components/crypto-market-table.tsx:180 | the icon-table entry for the asset id, otherwise a placeholder URL that contains the id |
| CoinApi.DisplayName | components/crypto-market-table.tsx:178 | a present non-empty name is the result; an absent or empty name gives the asset id |
| CoinApi.RandomChange | components/crypto-market-table.tsx:173 | the made-up percentage change lies in [-5, 5) |
| Chart.FormatDate | components/crypto-chart.tsx:113-121 | hour:minute labels exactly for 1DAY, month/day exactly for 7DAY and 1MTH, month/year for every other range |
| Chart.Period | components/crypto-chart.tsx:165-174 | period 1HRS exactly for 1DAY, 6HRS exactly for 7DAY, 1DAY for every other range |
| Chart.DataPoints | components/crypto-chart.tsx:27-38 | 24 points for 1DAY, 7 for 7DAY, 12 for 1YRS and YTD, 30 otherwise |
| Chart.ParseIntOfMonthRanges | components/crypto-chart.tsx:82 | `Number.parseInt` reads 1 from "1MTH" and 3 from "3MTH" |
| Chart.MockPoint | components/crypto-chart.tsx:88-106 | each coin's price at point i is base * (1 + noise + trend), with the noise from that coin's own draw |
| Chart.GenerateMockData | components/crypto-chart.tsx:25-110 | exactly `dataPoints` points, point i built from draws 4i to 4i+3; with draws in [0, 1) every price is positive |
| Chart.MockStart | components/crypto-chart.tsx:40-55 | where `startDate` is placed per range; MockPointsWithinLookBack states the look-back it sets |
| Chart.PointMoment | components/crypto-chart.tsx:74-85 | the instant of mock point i; MockOffsets and MockMomentsOrdered state its offset and order |
| Chart.PointDate | components/crypto-chart.tsx:75-85 | the if-chain over the range dates point i at the offset `MockOffsets` states |
| Chart.MockOffsets | components/crypto-chart.tsx:77-85 | point i is i hours (1DAY), i days (7DAY), 0 days (1MTH), i/10 days (3MTH) or i months (otherwise) after the start |
| Chart.MockMomentsOrdered | components/crypto-chart.tsx:77-85 | points never go back in time, and strictly advance on every range but 1MTH and 3MTH |
| Chart.MockPointsWithinLookBack | components/crypto-chart.tsx:43-85 | on the ranges with a fixed look-back, every point's offset is below the look-back |
| Chart.TrendFactorBounds | components/crypto-chart.tsx:94 | the trend factor i / dataPoints lies in [0, 1) and never decreases with i |
| Chart.YtdTrendSteeper | components/crypto-chart.tsx:95-98 | every coin's YTD trend coefficient exceeds its other coefficient, which is positive |
| Chart.NoiseBounds | components/crypto-chart.tsx:88-91 | each change lies in [-volatility, volatility), and every volatility is at most 0.11 |
| Chart.MockPriceBounds | components/crypto-chart.tsx:100-106 | each mock price lies in [base * (1 - vol), base * (1 + vol + trend coefficient)), so it is positive |
| Chart.MinLength | components/crypto-chart.tsx:197 | the minimum length is at most every series' length and equal to one of them |
| Chart.Interval | components/crypto-chart.tsx:200-201 | the step is at least 1; it is 1 below 30 candles, and otherwise floor(minLength / 30) |
| Chart.LivePoint | components/crypto-chart.tsx:204-214 | the combined point for candle i, dated by its reported start time, with the four closing prices |
| Chart.Samples | components/crypto-chart.tsx:203-216 | the points for candle indices from, from + step, ... below the shortest length; SamplesAt and SamplesLength state them |
| Chart.Downsample | components/crypto-chart.tsx:196-216 | the live chart data; DownsampleShape, DownsampleKeepsShortSeries and DownsampleAtMost59 state its shape |
| Chart.CombineSeries | components/crypto-chart.tsx:196-216 | the loop over i = 0, interval, 2 * interval, ... pushes exactly the down-sampled points |
| Chart.SamplesAt | components/crypto-chart.tsx:203-213 | sample k is the point for candle index from + k * step, an index valid in all four series |
| Chart.SamplesLength | components/crypto-chart.tsx:203 | the number of samples is the ceiling of the remaining length over the step |
| Chart.DownsampleShape | components/crypto-chart.tsx:197-216 | ceil(minLength / interval) points; point k is candle k * interval, valid in every series (so the `i < results[0].length` guard always holds) |
| Chart.DownsampleKeepsShortSeries | components/crypto-chart.tsx:199-216 | below 60 candles every candle is kept, in order |
| Chart.DownsampleAtMost59 | components/crypto-chart.tsx:199-203 | the combined series never has more than 59 points |
| Chart.CeilingAtMost59 | components/crypto-chart.tsx:200-203 | n steps of the chosen interval that stay below minLength number at most 59 |
| Chart.FetchCryptoData | components/crypto-chart.tsx:131-229 | down-sampled live data on success; otherwise the mock series, with the demo flag set exactly then |
| Chart.CryptoChart.constructor | components/crypto-chart.tsx:124-128 | the chart starts on 1MTH, loading, with no data |
| Chart.CryptoChart.SelectRange | components/crypto-chart.tsx:249 | a range button selects its range and changes nothing else |
| Chart.CryptoChart.Refresh | components/crypto-chart.tsx:130-233 | after the requests settle the data is the live or mock series for the selected range and loading is off |
| Market.FormatAsset | components/crypto-market-table.tsx:170-187 | the `map` callback's row for one asset; FormatAssetFields states every field |
| Market.MarketData | components/crypto-market-table.tsx:151-199 | the rows and demo flag after the fetch: the formatted rows without the flag, or the mock rows with it after a failed request or an asset without an id; FetchCryptoMarketData ends in this state |
| Market.FormatAssets | components/crypto-market-table.tsx:170-187 | one row per asset in order, row i from draw i; no rows (the mock path) exactly when an asset has no `asset_id` |
| Market.FormatAssetFields | components/crypto-market-table.tsx:173-185 | id and symbol are the lower-cased `asset_id`; a present non-empty name is kept and otherwise the id stands in; `null` or absent numbers read 0; the change is pct% of the price with pct in [-5, 5), 0 for a `null` price and `NaN` for an absent one |
| Market.FormatBareRecord | components/crypto-market-table.tsx:176-186 | a record with only an id and a price gets the lower-cased id, the id as name, the placeholder icon and zero volumes |
| Market.NextSort | components/crypto-market-table.tsx:204-211 | the same column flips the direction; another column is selected, descending |
| Market.TwoClicksRestore | components/crypto-market-table.tsx:204-211 | two clicks on the current column restore the sort state |
| Market.ClicksOnOneColumn | components/crypto-market-table.tsx:204-211 | r clicks on one column select it, and flip the direction r times, or r - 1 times from descending if it was not selected |
| Market.ClickScenario | components/crypto-market-table.tsx:146-211 | from (market_cap, desc), Price, Price and Market Cap give (price, desc), (price, asc) and (market_cap, desc) |
| Market.Field | components/crypto-market-table.tsx:214-215 | the four text columns yield strings, the numeric columns numbers, "price_change_24h" the absolute change (`NaN` exactly when it is `NaN`), and exactly the other names `undefined` |
| Market.Compare | components/crypto-market-table.tsx:213-227 | the comparator: a difference of numbers, a `localeCompare` of strings, 0 otherwise; DescendingSwapsOperands, PrecedesAsymmetric and PrecedesTransitive state its order |
| Market.SortRows | components/crypto-market-table.tsx:213 | `[...cryptoData].sort(...)` as a stable insertion sort; SortRowsSortedPermutation and SortRowsStable state that it is a sorted, stable permutation |
| Market.LocaleCompare | components/crypto-market-table.tsx:223 | the string comparison returns -1, 0 or 1 |
| Market.LocaleCompareAntisymmetric | components/crypto-market-table.tsx:223 | swapping the operands negates the comparison |
| Market.LocaleCompareZero | components/crypto-market-table.tsx:223 | the comparison is 0 exactly for equal strings |
| Market.LocaleCompareTransitive | components/crypto-market-table.tsx:223 | the comparison is transitive |
| Market.DescendingSwapsOperands | components/crypto-market-table.tsx:217-224 | descending compares with the operands swapped |
| Market.PrecedesAsymmetric | components/crypto-market-table.tsx:213-227 | no two rows each precede the other |
| Market.PrecedesTransitive | components/crypto-market-table.tsx:213-227 | precedence under the comparator is transitive |
| Market.InsertPermutation | components/crypto-market-table.tsx:213 | inserting a row adds exactly that row |
| Market.InsertSorted | components/crypto-market-table.tsx:213 | inserting into a sorted sequence keeps it sorted |
| Market.SortRowsSortedPermutation | components/crypto-market-table.tsx:213-227 | the sorted rows are a permutation of the input with no row after one it precedes |
| Market.InsertWithValue | components/crypto-market-table.tsx:213 | inserting a row into sorted rows places it after every row that shares its value in the column |
| Market.SortRowsStable | components/crypto-market-table.tsx:213-227 | the sort is stable: for every value, the rows with that value in the column keep their input order |
| Market.SortedNumericColumn | components/crypto-market-table.tsx:217-219 | on a numeric column ascending is non-decreasing and descending non-increasing |
| Market.SortedTextColumn | components/crypto-market-table.tsx:222-224 | on a text column ascending follows `localeCompare` and descending its reverse |
| Market.InsertWithoutPrecedence | components/crypto-market-table.tsx:226 | a row the comparator ties with everything is inserted at the end |
| Market.UnknownColumnKeepsOrder | components/crypto-market-table.tsx:226 | on a column that yields no values, sorting keeps the input order |
| Market.DistinctKeysComparable | components/crypto-market-table.tsx:217-224 | on a sortable column with distinct values every two rows are ordered |
| Market.SameFirst | components/crypto-market-table.tsx:213 | two sorted permutations of pairwise ordered rows start with the same row |
| Market.SortedPermutationUnique | components/crypto-market-table.tsx:213 | two sorted permutations of pairwise ordered rows are equal |
| Market.Reverse | components/crypto-market-table.tsx:222-224 | reversal keeps the rows and mirrors their positions |
| Market.DescendingIsReversedAscending | components/crypto-market-table.tsx:222-224 | with distinct values, descending order is exactly ascending order reversed |
| Market.ResortRestoresOrder | components/crypto-market-table.tsx:213-227 | with distinct values, sorting descending, ascending, then descending again gives the first descending order back |
| Market.CryptoMarketTable.constructor | components/crypto-market-table.tsx:144-148 | the table starts empty, loading, sorted by market cap descending |
| Market.CryptoMarketTable.HandleSort | components/crypto-market-table.tsx:204-211 | the sort state moves by `NextSort`; the rows and flags are unchanged |
| Market.CryptoMarketTable.FetchCryptoMarketData | components/crypto-market-table.tsx:150-199 | the formatted rows on success, otherwise the mock rows with the demo flag; the sort state is kept |
| Market.CryptoMarketTable.SortedData | components/crypto-market-table.tsx:213-227 | the displayed rows are a sorted permutation of `cryptoData`, which is not modified, and rows tied on the sort column keep their order |
| Search.FilterCatalog | components/crypto-search.tsx:147-151 | the fallback filter on lower-cased name and symbol; FilterSubsequence, FilterCounts and FilterIgnoresCase state what it keeps |
| Search.FilterSubsequence | components/crypto-search.tsx:147-151 | the filtered entries are a subsequence of the catalogue, so never more than it holds |
| Search.FilterCounts | components/crypto-search.tsx:147-151 | an entry whose lower-cased name or symbol includes the lower-cased term is kept as often as the catalogue holds it; any other entry is dropped |
| Search.FilterNoneMatch | components/crypto-search.tsx:147-151 | a catalogue in which nothing matches filters to no results |
| Search.FilterIgnoresCase | components/crypto-search.tsx:149-150 | terms equal once lower-cased give identical results |
| Search.FilterLowercasedTerm | components/crypto-search.tsx:149-150 | lower-casing the term beforehand does not change the results |
| Search.NoMatchWithoutB | components/crypto-search.tsx:149-150 | an entry with no b or B in its name or symbol does not match "btc" |
| Search.BitcoinMatchesBtc | components/crypto-search.tsx:45-53 | Bitcoin matches "btc" by its symbol |
| Search.EntryMissesBtc | components/crypto-search.tsx:54-78 | no catalogue entry after Bitcoin matches "btc" |
| Search.OthersMissBtc | components/crypto-search.tsx:54-78 | Ethereum, XRP and Dogecoin, every entry after Bitcoin, do not match "btc" |
| Search.FilterKeepsOnlyFirst | components/crypto-search.tsx:147-151 | a catalogue whose first entry alone matches filters down to that entry |
| Search.SearchBtc | components/crypto-search.tsx:147-151 | searching "btc" or "BTC" in the catalogue gives Bitcoin alone |
| Search.FormatSearchAsset | components/crypto-search.tsx:126-138 | the `map` callback's result for one asset; FormatSearchAssetFields states every field |
| Search.FormatSearchAssetFields | components/crypto-search.tsx:130-137 | id and symbol lower-cased from `asset_id`, a present non-empty name kept and otherwise the id, icon or placeholder keyed by it, price defaults to 0, change in [-5, 5) |
| Search.FormatSearchResults | components/crypto-search.tsx:125-139 | the first min(n, 5) formatted assets in response order; nothing (the fallback) exactly when any asset lacks an id |
| Search.SearchResults | components/crypto-search.tsx:122-153 | the results for a non-empty term and the demo flag; SearchResultsBounded bounds them and RunSearch computes them |
| Search.RunSearch | components/crypto-search.tsx:122-152 | the formatted API rows without the demo flag, or, when the request or the formatting fails, the filtered catalogue with it |
| Search.SearchResultsBounded | components/crypto-search.tsx:122-153 | fallback results are a subsequence of the catalogue; API results number at most 5 |
| Search.Toggled | components/crypto-search.tsx:89-93 | `open` changes exactly when the key is "k" with Meta or Ctrl held |
| Search.PressTwiceRestores | components/crypto-search.tsx:89-93 | pressing the same key twice leaves `open` as it was |
| Search.CryptoSearch.constructor | components/crypto-search.tsx:81-85 | the dialog starts closed, with no results, not loading, and falls back to the built-in catalogue |
| Search.CryptoSearch.HandleKeyDown | components/crypto-search.tsx:89-93 | the key handler sets `open` to `Toggled` of its old value and changes nothing else |
| Search.CryptoSearch.OpenDialog | components/crypto-search.tsx:169 | clicking the input opens the dialog |
| Search.CryptoSearch.SelectResult | components/crypto-search.tsx:183-187 | selecting a result closes the dialog |
| Search.CryptoSearch.OnDebouncedTerm | components/crypto-search.tsx:99-160 | an empty term clears the results without a request; otherwise the API or fallback results, with the demo flag |
| News.TimeAgo | components/market-news.tsx:154-165 | the count is the difference rounded to the nearest unit, a half rounding up |
| News.TimeAgoUnits | components/market-news.tsx:155-165 | minutes exactly below 3,570,000 ms, hours exactly from there to below 84,600,000 ms, days beyond; counts 0-59, 1-23 and at least 1 |
| News.Phrase | components/market-news.tsx:160-164 | the template text for a count and unit; PhraseCount, PhrasePlural and PhraseLetters state what it contains |
| News.TimeAgoText | components/market-news.tsx:152-166 | `formatTimeAgo` for a valid date: the phrase for `TimeAgo` of the difference |
| News.FormatTimeAgo | components/market-news.tsx:152-166 | `formatTimeAgo` of a valid or an invalid date; TimeAgoAfterSmallLag states when its text stays the same |
| News.PhraseCount | components/market-news.tsx:160-164 | `parseInt` reads the count back from the text |
| News.PhrasePlural | components/market-news.tsx:160-164 | the unit word has an "s" exactly when the count is not 1 |
| News.PhraseLetters | components/market-news.tsx:160-164 | "h" appears only in hour phrases and "d" only in day phrases |
| News.ShiftOf | components/market-news.tsx:124-130 | the adjustment the `includes` checks select, "hours" before "day", with the count `parseInt` reads; ShiftOfPhrase states it for every phrase |
| News.Backdated | components/market-news.tsx:121-130 | the callback's date after its adjustment, invalid when the count is `NaN`; AdjustDate computes it |
| News.ShiftOfPhrase | components/market-news.tsx:124-130 | re-dating a "formatTimeAgo" text moves back by its count in hours (plural hours) or days, and leaves minutes and "1 hour ago" alone |
| News.TimeAgoAfterSmallLag | components/market-news.tsx:155-165 | 2-23 hours or any number of days plus less than half an hour still format as the same count and unit |
| News.RedatePhraseUnchanged | components/market-news.tsx:120-136 | such an article reads the same after re-dating when the clock moves on less than half an hour |
| News.RedatedItem | components/market-news.tsx:120-136 | the article the callback returns; RedatePhraseUnchanged states when it equals the input |
| News.Redate | components/market-news.tsx:120-136 | re-dating keeps the number of articles |
| News.RedateKeepsOtherFields | components/market-news.tsx:120-136 | re-dating keeps order and every field except `publishedAt`, which is the time since the adjusted date |
| News.AdjustDate | components/market-news.tsx:120-129 | the date is moved back by the parsed hours for "hours" texts, by the parsed days for other "day" texts, and kept otherwise; a count `parseInt` cannot read gives an invalid date |
| News.RedateItem | components/market-news.tsx:120-136 | the callback, adjusting its date in place, returns the re-dated article |
| News.RedateAll | components/market-news.tsx:120-136 | the `map` returns the re-dated articles |
| News.MockPhrases | components/market-news.tsx:38-93 | the built-in texts are the phrases for 2 and 5 hours and 1, 2, 3 and 3 days |
| News.RedateStablePhrases | components/market-news.tsx:120-136 | articles dated 2-23 hours or N days ago survive re-dating under a clock lag below half an hour |
| News.RedateMockNewsUnchanged | components/market-news.tsx:119-136 | under such a lag, re-dating gives the built-in articles back unchanged |
| News.MarketNews.constructor | components/market-news.tsx:96-97 | the panel starts empty and loading |
| News.MarketNews.FetchCryptoNews | components/market-news.tsx:100-146 | an OK response gives the re-dated articles, otherwise the built-in ones; loading is off |

## Left out

- Network access: URLs, API keys, headers, `response.ok` and `console.error`. Each request is an outcome parameter. The API request window for the chart (`components/crypto-chart.tsx:144-162`) only feeds the URL, so it is not modelled.
- In the market table and the search dialog, a response body that is not an array makes `assetsData.map` throw. The code then takes the same failure path as a failed request, so `Failed` covers it, but the model does not represent such a payload.
- Chart.FetchCryptoData: takes four arrays of candles. A body that is an object rather than an array (`components/crypto-chart.tsx:197`) has no `length`, so `minLength` and `interval` are `NaN`. The loop then never runs, and the chart shows no points with the demo flag off. The model does not represent that payload. A `null` body throws and takes the mock path, which `Failed` covers.
- React wiring:
  - `useState`/`useEffect` ordering;
  - re-renders;
  - the 300 ms `useDebounce` hook, which is not part of this model (the debounced term is a parameter);
  - the registration of the `keydown` listener;
  - `preventDefault`;
  - the dialog's `onOpenChange`;
  - all JSX, icons, chart configuration and CSS.
- `Date` arithmetic is abstract:
  - a mock point is its start plus an offset in a unit (`Chart.Moment`);
  - a live point keeps the reported `time_period_start` text;
  - a label is its granularity and that moment, because `toLocaleTimeString`/`toLocaleDateString` depend on the locale.
- News dates are milliseconds, with an hour as 3,600,000 ms and a day as 86,400,000 ms. Local-time `setHours`/`setDate` across a daylight-saving change is not modelled.
- Prices are exact reals. IEEE-754 rounding of the products and of `(n / dataPoints) * i` is not modelled; `Chart.SpreadDays` uses the exact floor. `toFixed` and `toLocaleString` formatting is presentation.
- Market.LocaleCompare: compares strings lexicographically by character code (a total order). It does not model locale collation.
- Builtins.ToLower: maps ASCII letters only. Unicode case mapping is not modelled.
- Builtins.ParseInt: reads decimal digits after ASCII white space and a sign. The "0x" prefix and non-ASCII white space are not modelled, because no text the components parse contains them.
- Builtins.IntToString: prints every integer in plain decimal. JavaScript switches to exponent notation from 1e21; elapsed times never reach that.
- Market.SortRows: Array.prototype.sort is modelled as a stable insertion sort. When the comparator is inconsistent, which happens only when `NaN` price changes are compared, the engine's order may differ; the model's order is still sorted in the `Precedes` sense.
- A text field that is `null` and one that is absent are one case (`None`): the code only reads them through `||` or a method call, which treat the two alike. Numeric fields keep the two apart (`JsonNumber`), because `price_usd * k` is 0 for `null` and `NaN` for an absent price. A field that is present but falsy (0, empty string) is treated like a missing one only where the code uses `||`.
- The YTD mock series advances one month per point from January 1st, so its later points lie after today. This is modelled as written. No property claims those points lie in the past: `Chart.MockPointsWithinLookBack` excludes YTD.
- components/currency-selector.tsx, components/crypto-metrics-card.tsx and app/page.tsx are presentation only and are not part of this model.
