/** The news panel (components/market-news.tsx): `formatTimeAgo`, which turns
    an elapsed time into "N minutes/hours/days ago", and the re-dating of the
    built-in articles, which reads each article's "N hours ago" or "N days ago"
    text, moves a fresh date back by that much and formats it again. */
module News {
  import opened Builtins

  /** One `NewsItem`. */
  datatype NewsItem = NewsItem(
    title: string,
    description: string,
    url: string,
    source: string,
    imageUrl: string,
    publishedAt: string)

  /** `mockNews`. */
  const MockNews: seq<NewsItem> := [
    NewsItem(
      "Bitcoin Surges Past $45,000 as Institutional Adoption Accelerates",
      "Bitcoin has broken through the $45,000 resistance level as major financial institutions announce new cryptocurrency investment products and services.",
      "https://www.coindesk.com", "CoinDesk",
      "https://assets.coingecko.com/coins/images/1/small/bitcoin.png", "2 hours ago"),
    NewsItem(
      "Ethereum Developers Announce Major Update to Scaling Solution",
      "The Ethereum Foundation has revealed plans for a significant upgrade to its layer-2 scaling solutions, promising reduced gas fees and improved transaction throughput.",
      "https://cointelegraph.com", "Cointelegraph",
      "https://assets.coingecko.com/coins/images/279/small/ethereum.png", "5 hours ago"),
    NewsItem(
      "Ripple CEO Optimistic About XRP Case Resolution",
      "Ripple's CEO expressed confidence about a favorable outcome in the ongoing legal battle with the SEC, citing recent court developments and regulatory clarity in other jurisdictions.",
      "https://cryptoslate.com", "CryptoSlate",
      "https://assets.coingecko.com/coins/images/44/small/xrp-symbol-white-128.png", "1 day ago"),
    NewsItem(
      "Dogecoin Community Funds New Development Initiative",
      "The Dogecoin Foundation has announced a community-funded development grant program to enhance the cryptocurrency's utility and adoption in e-commerce and social media tipping.",
      "https://bitcoinmagazine.com", "Bitcoin Magazine",
      "https://assets.coingecko.com/coins/images/5/small/dogecoin.png", "2 days ago"),
    NewsItem(
      "Major Central Banks Explore CBDC Interoperability with Crypto Markets",
      "Several central banks are investigating how their central bank digital currencies (CBDCs) could interact with existing cryptocurrency markets and decentralized finance protocols.",
      "https://www.coindesk.com", "CoinDesk",
      "/placeholder.svg?height=100&width=200&text=CBDC", "3 days ago"),
    NewsItem(
      "New Regulatory Framework for Crypto Exchanges Proposed in EU",
      "European Union lawmakers have introduced a comprehensive regulatory framework aimed at cryptocurrency exchanges, focusing on consumer protection and anti-money laundering measures.",
      "https://cointelegraph.com", "Cointelegraph",
      "/placeholder.svg?height=100&width=200&text=EU", "3 days ago")
  ]

  const MinuteMs := 60000
  const HourMs := 3600000
  const DayMs := 86400000

  // ---------------------------------------------------------------------------
  // formatTimeAgo

  datatype Unit = Minute | Hour | Day

  /** A rounded count of one unit. */
  datatype Elapsed = Elapsed(count: int, unit: Unit)

  function UnitMs(u: Unit): int {
    match u
    case Minute => MinuteMs
    case Hour => HourMs
    case Day => DayMs
  }

  function UnitWord(u: Unit): string {
    match u
    case Minute => "minute"
    case Hour => "hour"
    case Day => "day"
  }

  /** The unit `formatTimeAgo` reports a difference of diffMs milliseconds in:
      minutes while they round below 60, then hours while they round below 24,
      then days; the count is the difference rounded to the nearest unit. */
  function TimeAgo(diffMs: int): (e: Elapsed)
    ensures 2 * e.count * UnitMs(e.unit) - UnitMs(e.unit) <= 2 * diffMs < 2 * e.count * UnitMs(e.unit) + UnitMs(e.unit)
  {
    var diffMins := RoundDiv(diffMs, MinuteMs);
    var diffHours := RoundDiv(diffMs, HourMs);
    var diffDays := RoundDiv(diffMs, DayMs);
    if diffMins < 60 then Elapsed(diffMins, Minute)
    else if diffHours < 24 then Elapsed(diffHours, Hour)
    else Elapsed(diffDays, Day)
  }

  /** Where the unit changes: below 59.5 minutes the unit is minutes, below 23.5
      hours it is hours, and from there on days; for a non-negative difference
      the count is 0 to 59 minutes, 1 to 23 hours or at least one day. */
  lemma TimeAgoUnits(diffMs: int)
    ensures TimeAgo(diffMs).unit == Minute <==> diffMs < 3570000
    ensures TimeAgo(diffMs).unit == Hour <==> 3570000 <= diffMs < 84600000
    ensures TimeAgo(diffMs).unit == Day <==> 84600000 <= diffMs
    ensures diffMs >= 0 ==> match TimeAgo(diffMs).unit
      case Minute => 0 <= TimeAgo(diffMs).count < 60
      case Hour => 1 <= TimeAgo(diffMs).count < 24
      case Day => 1 <= TimeAgo(diffMs).count
  {
    var mins, hours := RoundDiv(diffMs, MinuteMs), RoundDiv(diffMs, HourMs);
    assert mins < 60 <==> diffMs < 3570000;
    assert hours < 24 <==> diffMs < 84600000;
    assert diffMs >= 3570000 ==> hours >= 1;
    assert diffMs >= 84600000 ==> RoundDiv(diffMs, DayMs) >= 1;
  }

  /** The text for a count: the number, the unit word, an "s" unless the count
      is 1, and " ago". */
  function Phrase(e: Elapsed): string {
    IntToString(e.count) + " " + UnitWord(e.unit) + (if e.count != 1 then "s" else "") + " ago"
  }

  /** `formatTimeAgo` for a valid date diffMs milliseconds in the past. */
  function TimeAgoText(diffMs: int): string {
    Phrase(TimeAgo(diffMs))
  }

  /** `parseInt` reads the count back from the text. */
  lemma PhraseCount(e: Elapsed)
    ensures ParseInt(Phrase(e)) == Some(e.count)
  {
    var rest := " " + UnitWord(e.unit) + (if e.count != 1 then "s" else "") + " ago";
    assert Phrase(e) == IntToString(e.count) + rest;
    ParseIntOfIntToString(e.count, rest);
  }

  /** The unit word is plural exactly when the count is not 1. */
  lemma PhrasePlural(e: Elapsed)
    ensures 's' in Phrase(e) <==> e.count != 1
  {
    var num := IntToString(e.count);
    var text := Phrase(e);
    if e.count != 1 {
      assert text[|num| + 1 + |UnitWord(e.unit)|] == 's';
    } else {
      assert num == "1";
      assert text == "1 " + UnitWord(e.unit) + " ago";
    }
  }

  // ---------------------------------------------------------------------------
  // Re-dating the built-in articles

  /** How the callback moves its fresh date, read off the `publishedAt` text:
      back by the text's leading integer in hours when it contains "hours",
      otherwise in days when it contains "day", otherwise not at all. A text
      without a leading integer gives `None` (`NaN`). */
  datatype Shift = NoShift | HoursBack(hours: Option<int>) | DaysBack(days: Option<int>)

  function ShiftOf(publishedAt: string): Shift {
    if Includes(publishedAt, "hours") then HoursBack(ParseInt(publishedAt))
    else if Includes(publishedAt, "day") then DaysBack(ParseInt(publishedAt))
    else NoShift
  }

  /** A `Date`: a time in milliseconds, or the invalid date that `setHours`
      or `setDate` with `NaN` produces. */
  datatype Date = Valid(time: int) | Invalid

  /** The callback's date after its adjustment, from the time `now` it read. */
  function Backdated(now: int, publishedAt: string): Date {
    match ShiftOf(publishedAt)
    case NoShift => Valid(now)
    case HoursBack(h) => if h.Some? then Valid(now - h.value * HourMs) else Invalid
    case DaysBack(d) => if d.Some? then Valid(now - d.value * DayMs) else Invalid
  }

  /** `formatTimeAgo(date)` when the clock reads `now`; an invalid date gives
      a `NaN` difference, which fails both comparisons and prints as "NaN". */
  function FormatTimeAgo(now: int, date: Date): string {
    match date
    case Valid(t) => TimeAgoText(now - t)
    case Invalid => "NaN days ago"
  }

  /** An item as the `mockNews.map` callback returns it, when the callback's
      `new Date()` reads `start` and `formatTimeAgo`'s reads `end`. */
  function RedatedItem(item: NewsItem, start: int, end: int): NewsItem {
    item.(publishedAt := FormatTimeAgo(end, Backdated(start, item.publishedAt)))
  }

  /** The callback, step by step: the statement form of `RedatedItem`, which
      the lemmas reason about; the date is moved in place by `AdjustDate`. */
  method RedateItem(item: NewsItem, start: int, end: int) returns (updated: NewsItem)
    ensures updated == RedatedItem(item, start, end)
  {
    var date := AdjustDate(start, item.publishedAt);
    updated := item.(publishedAt := FormatTimeAgo(end, date));
  }

  /** The callback's `new Date()` read as `now`, then moved back in place by
      `setHours` or `setDate` as the text asks: the statement form of
      `Backdated`, which the lemmas reason about. */
  method AdjustDate(now: int, publishedAt: string) returns (date: Date)
    ensures date == Backdated(now, publishedAt)
  {
    date := Valid(now);
    if Includes(publishedAt, "hours") {
      var hours := ParseInt(publishedAt);
      date := if hours.Some? then Valid(date.time - hours.value * HourMs) else Invalid;
    } else if Includes(publishedAt, "day") {
      var days := ParseInt(publishedAt);
      date := if days.Some? then Valid(date.time - days.value * DayMs) else Invalid;
    }
  }

  /** The letters "h" and "d" only come from the unit word. */
  lemma PhraseLetters(e: Elapsed)
    ensures 'h' in Phrase(e) ==> e.unit == Hour
    ensures 'd' in Phrase(e) ==> e.unit == Day
  {
    var num := IntToString(e.count);
    var tail := " " + UnitWord(e.unit) + (if e.count != 1 then "s" else "") + " ago";
    var text := Phrase(e);
    assert text == num + tail;
    forall i | 0 <= i < |text|
      ensures text[i] == 'h' ==> e.unit == Hour
      ensures text[i] == 'd' ==> e.unit == Day
    {
      if i < |num| {
        assert text[i] == num[i];
      } else {
        assert text[i] == tail[i - |num|];
      }
    }
  }

  /** The re-dating reads back what `formatTimeAgo` wrote: plural hours and
      any number of days move the date back by the count, while minutes, and
      the singular "1 hour ago" (which lacks "hours"), leave it where it is. */
  lemma ShiftOfPhrase(e: Elapsed)
    ensures ShiftOf(Phrase(e)) ==
      if e.unit == Hour && e.count != 1 then HoursBack(Some(e.count))
      else if e.unit == Day then DaysBack(Some(e.count))
      else NoShift
  {
    match e.unit
    case Hour => if e.count != 1 { ShiftOfHours(e); } else { ShiftOfOneHour(e); }
    case Day => ShiftOfDays(e);
    case Minute => ShiftOfMinutes(e);
  }

  lemma ShiftOfHours(e: Elapsed)
    requires e.unit == Hour && e.count != 1
    ensures ShiftOf(Phrase(e)) == HoursBack(Some(e.count))
  {
    var num := IntToString(e.count);
    assert Phrase(e) == num + " " + "hours" + " ago";
    assert IncludesAt(Phrase(e), "hours", |num| + 1);
    PhraseCount(e);
  }

  lemma ShiftOfOneHour(e: Elapsed)
    requires e == Elapsed(1, Hour)
    ensures ShiftOf(Phrase(e)) == NoShift
  {
    assert IntToString(1) == "1";
    assert Phrase(e) == "1 hour ago";
    NotIncludesWithoutChar(Phrase(e), "hours", 4);
    NotIncludesWithoutChar(Phrase(e), "day", 0);
  }

  lemma ShiftOfDays(e: Elapsed)
    requires e.unit == Day
    ensures ShiftOf(Phrase(e)) == DaysBack(Some(e.count))
  {
    var num := IntToString(e.count);
    PhraseLetters(e);
    NotIncludesWithoutChar(Phrase(e), "hours", 0);
    assert Phrase(e) == num + " " + "day" + (if e.count != 1 then "s" else "") + " ago";
    assert IncludesAt(Phrase(e), "day", |num| + 1);
    PhraseCount(e);
  }

  lemma ShiftOfMinutes(e: Elapsed)
    requires e.unit == Minute
    ensures ShiftOf(Phrase(e)) == NoShift
  {
    PhraseLetters(e);
    NotIncludesWithoutChar(Phrase(e), "hours", 0);
    NotIncludesWithoutChar(Phrase(e), "day", 0);
  }

  /** Counts of 2 to 23 hours, or of any positive number of days, survive a
      clock that moves on by less than half an hour between the two reads. */
  lemma TimeAgoAfterSmallLag(e: Elapsed, lag: int)
    requires (e.unit == Hour && 2 <= e.count < 24) || (e.unit == Day && e.count >= 1)
    requires 0 <= lag < 1800000
    ensures TimeAgo(e.count * UnitMs(e.unit) + lag) == e
  {
    var d := e.count * UnitMs(e.unit) + lag;
    TimeAgoUnits(d);
    if e.unit == Hour {
      assert 7200000 <= d < 84600000;
      assert RoundDiv(d, HourMs) == e.count;
    } else {
      assert d >= 86400000;
      assert RoundDiv(d, DayMs) == e.count;
    }
  }

  /** An article dated "N hours ago" (N from 2 to 23) or "N days ago" reads the
      same after re-dating when the clock moves on by less than half an hour. */
  lemma RedatePhraseUnchanged(item: NewsItem, e: Elapsed, start: int, end: int)
    requires (e.unit == Hour && 2 <= e.count < 24) || (e.unit == Day && e.count >= 1)
    requires item.publishedAt == Phrase(e)
    requires 0 <= end - start < 1800000
    ensures RedatedItem(item, start, end) == item
  {
    var past := start - e.count * UnitMs(e.unit);
    BackdatedPhrase(start, e);
    LaggedPhrase(e, past, end);
    RedatedItemFixed(item, start, end, past);
  }

  /** An item whose text names exactly the age of its re-dated date keeps
      its text. */
  lemma RedatedItemFixed(item: NewsItem, start: int, end: int, past: int)
    requires Backdated(start, item.publishedAt) == Valid(past)
    requires FormatTimeAgo(end, Valid(past)) == item.publishedAt
    ensures RedatedItem(item, start, end) == item
  { }

  /** Re-dating an "N hours ago" (N not 1) or "N days ago" text moves the
      date back by exactly N units. */
  lemma BackdatedPhrase(now: int, e: Elapsed)
    requires (e.unit == Hour && e.count != 1) || e.unit == Day
    ensures Backdated(now, Phrase(e)) == Valid(now - e.count * UnitMs(e.unit))
  {
    ShiftOfPhrase(e);
  }

  /** The text for a date N units and less than half an hour in the past is
      "N units ago" again. */
  lemma LaggedPhrase(e: Elapsed, past: int, now: int)
    requires (e.unit == Hour && 2 <= e.count < 24) || (e.unit == Day && e.count >= 1)
    requires 0 <= now - past - e.count * UnitMs(e.unit) < 1800000
    ensures FormatTimeAgo(now, Valid(past)) == Phrase(e)
  {
    TimeAgoAfterSmallLag(e, now - past - e.count * UnitMs(e.unit));
  }

  /** The times each article's callback reads: the k-th article's `new Date()`
      reads `clock(2k)` and its `formatTimeAgo` reads `clock(2k + 1)`. */
  function Lag(clock: nat -> int, k: nat): int {
    clock(2 * k + 1) - clock(2 * k)
  }

  /** `mockNews.map(...)`. */
  function Redate(items: seq<NewsItem>, clock: nat -> int): (r: seq<NewsItem>)
    ensures |r| == |items|
  {
    seq(|items|, k requires 0 <= k < |items| => RedatedItem(items[k], clock(2 * k), clock(2 * k + 1)))
  }

  /** Re-dating keeps the articles in order and changes no field but
      `publishedAt`, which becomes the time since the adjusted date. */
  lemma RedateKeepsOtherFields(items: seq<NewsItem>, clock: nat -> int)
    ensures |Redate(items, clock)| == |items|
    ensures forall k :: 0 <= k < |items| ==>
      var r := Redate(items, clock)[k];
      r.title == items[k].title && r.description == items[k].description && r.url == items[k].url &&
      r.source == items[k].source && r.imageUrl == items[k].imageUrl &&
      r.publishedAt == FormatTimeAgo(clock(2 * k + 1), Backdated(clock(2 * k), items[k].publishedAt))
  {
    var r := Redate(items, clock);
    forall k | 0 <= k < |items|
      ensures r[k].title == items[k].title && r[k].description == items[k].description && r[k].url == items[k].url
      ensures r[k].source == items[k].source && r[k].imageUrl == items[k].imageUrl
      ensures r[k].publishedAt == FormatTimeAgo(clock(2 * k + 1), Backdated(clock(2 * k), items[k].publishedAt))
    {
      var date := Backdated(clock(2 * k), items[k].publishedAt);
      assert r[k] == items[k].(publishedAt := FormatTimeAgo(clock(2 * k + 1), date));
    }
  }

  /** The mock texts are the phrases for 2 and 5 hours and 1, 2, 3 and 3 days. */
  lemma MockPhrases()
    ensures MockNews[0].publishedAt == Phrase(Elapsed(2, Hour))
    ensures MockNews[1].publishedAt == Phrase(Elapsed(5, Hour))
    ensures MockNews[2].publishedAt == Phrase(Elapsed(1, Day))
    ensures MockNews[3].publishedAt == Phrase(Elapsed(2, Day))
    ensures MockNews[4].publishedAt == Phrase(Elapsed(3, Day))
    ensures MockNews[5].publishedAt == Phrase(Elapsed(3, Day))
  {
    PhraseTexts();
  }

  /** The phrases the mock articles carry, spelled out. */
  lemma PhraseTexts()
    ensures Phrase(Elapsed(2, Hour)) == "2 hours ago" && Phrase(Elapsed(5, Hour)) == "5 hours ago"
    ensures Phrase(Elapsed(1, Day)) == "1 day ago" && Phrase(Elapsed(2, Day)) == "2 days ago"
    ensures Phrase(Elapsed(3, Day)) == "3 days ago"
  {
    assert IntToString(1) == "1" && IntToString(2) == "2" && IntToString(3) == "3" && IntToString(5) == "5";
  }

  /** A phrase that re-dating keeps when the clock moves on by less than half
      an hour: 2 to 23 hours, or a positive number of days. */
  predicate Stable(e: Elapsed) {
    (e.unit == Hour && 2 <= e.count < 24) || (e.unit == Day && e.count >= 1)
  }

  /** Articles dated by stable phrases read the same after re-dating. */
  lemma RedateStablePhrases(items: seq<NewsItem>, phrases: seq<Elapsed>, clock: nat -> int)
    requires |phrases| == |items|
    requires forall k :: 0 <= k < |items| ==> items[k].publishedAt == Phrase(phrases[k]) && Stable(phrases[k])
    requires forall k: nat :: 0 <= Lag(clock, k) < 1800000
    ensures Redate(items, clock) == items
  {
    var r := Redate(items, clock);
    forall k | 0 <= k < |items| ensures r[k] == items[k] {
      assert 0 <= Lag(clock, k) < 1800000;
      RedateStableAt(items, phrases[k], clock, k);
    }
  }

  /** One article of the above. */
  lemma RedateStableAt(items: seq<NewsItem>, e: Elapsed, clock: nat -> int, k: nat)
    requires k < |items| && items[k].publishedAt == Phrase(e) && Stable(e)
    requires 0 <= clock(2 * k + 1) - clock(2 * k) < 1800000
    ensures Redate(items, clock)[k] == items[k]
  {
    RedateAt(items, clock, k);
    RedatePhraseUnchanged(items[k], e, clock(2 * k), clock(2 * k + 1));
  }

  /** Article k of the re-dated list is article k re-dated with the k-th
      callback's two clock reads. */
  lemma RedateAt(items: seq<NewsItem>, clock: nat -> int, k: nat)
    requires k < |items|
    ensures Redate(items, clock)[k] == RedatedItem(items[k], clock(2 * k), clock(2 * k + 1))
  { }

  /** When the clock moves on by less than half an hour within each callback,
      re-dating gives the built-in articles back unchanged. */
  lemma RedateMockNewsUnchanged(clock: nat -> int)
    requires forall k: nat :: 0 <= Lag(clock, k) < 1800000
    ensures Redate(MockNews, clock) == MockNews
  {
    MockPhrases();
    var phrases := [Elapsed(2, Hour), Elapsed(5, Hour), Elapsed(1, Day), Elapsed(2, Day), Elapsed(3, Day), Elapsed(3, Day)];
    RedateStablePhrases(MockNews, phrases, clock);
  }

  /** The `map` over the articles, one callback after the other: the loop
      form of `Redate`. */
  method RedateAll(items: seq<NewsItem>, clock: nat -> int) returns (updated: seq<NewsItem>)
    ensures updated == Redate(items, clock)
  {
    updated := [];
    ghost var redated := Redate(items, clock);
    for k := 0 to |items|
      invariant |updated| == k
      invariant updated == redated[..k]
    {
      var item := RedateItem(items[k], clock(2 * k), clock(2 * k + 1));
      assert item == redated[k];
      assert redated[..k + 1] == redated[..k] + [redated[k]];
      updated := updated + [item];
    }
    assert redated[..|items|] == redated;
  }

  // ---------------------------------------------------------------------------
  // The component

  /** The news panel's state. */
  class MarketNews {
    var news: seq<NewsItem>
    var loading: bool

    constructor ()
      ensures news == [] && loading
    {
      news := [];
      loading := true;
    }

    /** `fetchCryptoNews` after its request settled: the re-dated articles
        when the response was OK, otherwise the articles as written. */
    method FetchCryptoNews(responseOk: bool, clock: nat -> int)
      modifies this
      ensures news == if responseOk then Redate(MockNews, clock) else MockNews
      ensures !loading
    {
      loading := true;
      if responseOk {
        news := RedateAll(MockNews, clock);
      } else {
        news := MockNews;
      }
      loading := false;
    }
  }
}
