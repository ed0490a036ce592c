/**
 * The market computations of `src/components/EconomicInsights.tsx`: the
 * price entry of the selected crop and its profit forecast, the trend
 * messages, and the market summary's two lists ("top performers" and
 * "market declines"), each a filter, then a sort, then the first two.
 *
 * Everything here is a pure expression over the fetched prices. The
 * `sort` is JavaScript's stable sort with the comparator the page gives;
 * it is modelled by a stable insertion sort on the filtered copy.
 */
module EconomicInsights {
  import opened Wrappers
  import opened Sequences

  /** `MarketPrice`. */
  datatype MarketPrice = MarketPrice(
    crop: string,
    currentPrice: real,
    previousPrice: real,
    change: real,
    changePercent: real,
    market: string,
    lastUpdated: string)

  /** Tons per hectare the profit forecast assumes. */
  const ForecastYield: real := 8.5

  /** The index of the first entry for `crop`, or the length when there is none. */
  function FirstIndex(prices: seq<MarketPrice>, crop: string): (k: nat)
    ensures k <= |prices|
    ensures forall j :: 0 <= j < k ==> prices[j].crop != crop
    ensures k < |prices| ==> prices[k].crop == crop
  {
    if prices == [] then 0
    else if prices[0].crop == crop then 0
    else 1 + FirstIndex(prices[1..], crop)
  }

  /** `selectedPriceData`: `marketPrices.find(p => p.crop === selectedCrop)`. */
  function FindByCrop(prices: seq<MarketPrice>, crop: string): (r: Option<MarketPrice>)
    ensures r.None? <==> forall p :: p in prices ==> p.crop != crop
    ensures r.Some? ==> exists k ::
      && 0 <= k < |prices| && prices[k] == r.value && r.value.crop == crop
      && forall j :: 0 <= j < k ==> prices[j].crop != crop
  {
    var k := FirstIndex(prices, crop);
    if k < |prices| then Some(prices[k]) else None
  }

  /**
   * `profitForecast`: the selected crop's price times 8.5 t/ha, or 0 when no
   * entry is selected.
   */
  function ProfitForecast(selected: Option<MarketPrice>): (f: real)
    ensures selected.None? ==> f == 0.0
    ensures selected.Some? ==> f / ForecastYield == selected.value.currentPrice
    ensures selected.Some? && selected.value.currentPrice >= 0.0 ==> f >= selected.value.currentPrice
  {
    if selected.Some? then selected.value.currentPrice * ForecastYield else 0.0
  }

  /** The two lists of the market summary. */
  datatype Direction = Up | Down

  /** The entries a list takes: rising prices for the top performers, falling ones for the declines. */
  predicate Moving(p: MarketPrice, d: Direction)
  {
    match d
    case Up => p.change > 0.0
    case Down => p.change < 0.0
  }

  /**
   * `a` may come before `b`: by change percent, largest first for the top
   * performers and smallest first for the declines.
   */
  predicate Before(a: MarketPrice, b: MarketPrice, d: Direction)
  {
    match d
    case Up => a.changePercent >= b.changePercent
    case Down => a.changePercent <= b.changePercent
  }

  ghost predicate Sorted(s: seq<MarketPrice>, d: Direction)
  {
    forall i, j :: 0 <= i < j < |s| ==> Before(s[i], s[j], d)
  }

  /** `.filter(...)` for a direction: the moving entries, in their order, each as often as it occurs. */
  function Movers(prices: seq<MarketPrice>, d: Direction): (r: seq<MarketPrice>)
    ensures IsSubsequence(r, prices)
    ensures forall p :: p in r <==> p in prices && Moving(p, d)
    ensures forall p :: multiset(r)[p] == if Moving(p, d) then multiset(prices)[p] else 0
    ensures |r| <= |prices|
  {
    if prices == [] then []
    else
      var rest := Movers(prices[1..], d);
      assert prices == [prices[0]] + prices[1..];
      assert multiset(prices) == multiset{prices[0]} + multiset(prices[1..]);
      if Moving(prices[0], d) then
        assert ([prices[0]] + rest)[1..] == rest;
        [prices[0]] + rest
      else rest
  }

  /**
   * Puts `x` into a sorted list ahead of the first entry it may precede,
   * which is also ahead of every entry with the same key. The sort inserts
   * each entry into the sorted entries that followed it in the input, so
   * equal keys keep their input order.
   */
  function Insert(x: MarketPrice, s: seq<MarketPrice>, d: Direction): (r: seq<MarketPrice>)
    requires Sorted(s, d)
    ensures Sorted(r, d)
    ensures multiset(r) == multiset(s) + multiset{x}
  {
    if s == [] || Before(x, s[0], d) then
      [x] + s
    else
      var rest := Insert(x, s[1..], d);
      InsertBehindHead(x, s, d, rest);
      [s[0]] + rest
  }

  /**
   * When `x` goes behind the head of `s`, putting the head back in front of
   * `x` inserted into the tail keeps the list sorted and holding `x` and `s`.
   */
  lemma InsertBehindHead(x: MarketPrice, s: seq<MarketPrice>, d: Direction, rest: seq<MarketPrice>)
    requires Sorted(s, d) && s != [] && !Before(x, s[0], d)
    requires Sorted(rest, d) && multiset(rest) == multiset(s[1..]) + multiset{x}
    ensures Sorted([s[0]] + rest, d)
    ensures multiset([s[0]] + rest) == multiset(s) + multiset{x}
  {
    assert s == [s[0]] + s[1..];
    forall y | y in rest
      ensures Before(s[0], y, d)
    {
      assert y in multiset(rest);
      if y != x {
        assert y in multiset(s[1..]);
      }
    }
    var r := [s[0]] + rest;
    forall i, j | 0 <= i < j < |r|
      ensures Before(r[i], r[j], d)
    {
      if i > 0 {
        assert r[i] == rest[i - 1] && r[j] == rest[j - 1];
      } else {
        assert r[j] in rest;
      }
    }
  }

  /** `.sort(comparator)`: stable, by change percent in the direction's order. */
  function Sort(s: seq<MarketPrice>, d: Direction): (r: seq<MarketPrice>)
    ensures Sorted(r, d)
    ensures multiset(r) == multiset(s)
  {
    if s == [] then []
    else
      assert s == [s[0]] + s[1..];
      Insert(s[0], Sort(s[1..], d), d)
  }

  /** The entries of `s` whose change percent is `key`, in their order. */
  function WithKey(s: seq<MarketPrice>, key: real): (r: seq<MarketPrice>)
    ensures forall p :: p in r <==> p in s && p.changePercent == key
  {
    if s == [] then []
    else (if s[0].changePercent == key then [s[0]] else []) + WithKey(s[1..], key)
  }

  /** `WithKey` of a list with a new head. */
  lemma WithKeyCons(x: MarketPrice, s: seq<MarketPrice>, key: real)
    ensures WithKey([x] + s, key) == (if x.changePercent == key then [x] else []) + WithKey(s, key)
  {
    assert ([x] + s)[1..] == s;
  }

  /**
   * Inserting keeps the order among equal keys: `x` lands ahead of every
   * entry with its key, just as if it were put at the head.
   */
  lemma {:induction false} InsertKeepsTies(x: MarketPrice, s: seq<MarketPrice>, d: Direction, key: real)
    requires Sorted(s, d)
    ensures WithKey(Insert(x, s, d), key) == WithKey([x] + s, key)
  {
    if s != [] && !Before(x, s[0], d) {
      var tail := s[1..];
      var rest := Insert(x, tail, d);
      assert Insert(x, s, d) == [s[0]] + rest;
      assert s == [s[0]] + tail;
      InsertKeepsTies(x, tail, d, key);
      var kx := if x.changePercent == key then [x] else [];
      var k0 := if s[0].changePercent == key then [s[0]] else [];
      assert k0 + kx == kx + k0 by {
        assert s[0].changePercent != x.changePercent;
      }
      WithKeyCons(s[0], rest, key);
      WithKeyCons(x, tail, key);
      assert WithKey(Insert(x, s, d), key) == k0 + (kx + WithKey(tail, key));
      WithKeyCons(x, s, key);
      WithKeyCons(s[0], tail, key);
      assert WithKey([x] + s, key) == kx + (k0 + WithKey(tail, key));
    }
  }

  /**
   * The sort is stable: for every change percent, the entries with that
   * change percent come out in the order they went in.
   */
  lemma {:induction false} SortIsStable(s: seq<MarketPrice>, d: Direction, key: real)
    ensures WithKey(Sort(s, d), key) == WithKey(s, key)
  {
    if s != [] {
      var tail := Sort(s[1..], d);
      SortIsStable(s[1..], d, key);
      InsertKeepsTies(s[0], tail, d, key);
      WithKeyCons(s[0], tail, key);
      assert s == [s[0]] + s[1..];
      WithKeyCons(s[0], s[1..], key);
    }
  }

  /** `.slice(0, 2)`. */
  function TakeTwo(s: seq<MarketPrice>): (r: seq<MarketPrice>)
    ensures |r| == if |s| < 2 then |s| else 2
    ensures r == s[..|r|]
  {
    if |s| < 2 then s else s[..2]
  }

  /** A prefix of a list holds no entry more often than the list does. */
  lemma PrefixIsPart<T>(s: seq<T>, k: nat)
    requires k <= |s|
    ensures multiset(s[..k]) <= multiset(s)
  {
    assert s == s[..k] + s[k..];
  }

  /** One list of the market summary: filter, sort, first two. */
  function Summary(prices: seq<MarketPrice>, d: Direction): (r: seq<MarketPrice>)
    ensures |r| <= 2
    ensures forall p :: p in r ==> p in prices && Moving(p, d)
    ensures Sorted(r, d)
    ensures multiset(r) <= multiset(Movers(prices, d))
    ensures |r| == if |Movers(prices, d)| < 2 then |Movers(prices, d)| else 2
  {
    var movers := Movers(prices, d);
    var sorted := Sort(movers, d);
    var r := TakeTwo(sorted);
    PrefixIsPart(sorted, |r|);
    assert |sorted| == |movers| by {
      assert |multiset(sorted)| == |multiset(movers)|;
    }
    assert forall p :: p in r ==> p in sorted;
    assert forall p :: p in sorted ==> p in multiset(Movers(prices, d));
    r
  }

  function TopPerformers(prices: seq<MarketPrice>): (r: seq<MarketPrice>)
    ensures |r| <= 2 && Sorted(r, Up)
    ensures forall p :: p in r ==> p in prices && p.change > 0.0
  {
    Summary(prices, Up)
  }

  function Declines(prices: seq<MarketPrice>): (r: seq<MarketPrice>)
    ensures |r| <= 2 && Sorted(r, Down)
    ensures forall p :: p in r ==> p in prices && p.change < 0.0
  {
    Summary(prices, Down)
  }

  /**
   * The summary lists are the best two: any moving entry left out ranks no
   * higher than every entry shown, and fewer than two are shown only when
   * nothing else qualifies.
   */
  lemma SummaryIsBestTwo(prices: seq<MarketPrice>, d: Direction)
    ensures var r := Summary(prices, d);
      && (forall p, t :: p in prices && Moving(p, d) && p !in r && t in r ==> Before(t, p, d))
      && (|r| < 2 ==> forall p :: p in prices && Moving(p, d) ==> p in r)
  {
    var movers := Movers(prices, d);
    var sorted := Sort(movers, d);
    var r := Summary(prices, d);
    assert r == sorted[..|r|];
    forall p, t | p in prices && Moving(p, d) && p !in r && t in r
      ensures Before(t, p, d)
    {
      assert p in multiset(sorted) by { assert p in multiset(movers); }
      var k :| 0 <= k < |sorted| && sorted[k] == p;
      var i :| 0 <= i < |r| && r[i] == t;
      assert sorted[i] == t;
    }
    if |r| < 2 {
      assert r == sorted;
      forall p | p in prices && Moving(p, d)
        ensures p in r
      {
        assert p in multiset(movers);
      }
    }
  }

  /** An entry is in at most one list, and an unchanged price is in neither. */
  lemma ListsAreDisjoint(prices: seq<MarketPrice>, p: MarketPrice)
    ensures !(p in TopPerformers(prices) && p in Declines(prices))
    ensures p.change == 0.0 ==> p !in TopPerformers(prices) && p !in Declines(prices)
  {
  }

  /** The message pair the insight panel chooses for the selected crop. */
  datatype Trend = Upward | Declining

  /** A price that did not fall counts as trending upward. */
  function TrendOf(p: MarketPrice): (t: Trend)
    ensures t == Upward <==> p.change >= 0.0
  {
    if p.change >= 0.0 then Upward else Declining
  }

  function TrendMessage(t: Trend): string
  {
    match t
    case Upward => "Prices are trending upward"
    case Declining => "Prices are declining"
  }

  function AdviceMessage(t: Trend): string
  {
    match t
    case Upward => "Consider holding harvest for better prices"
    case Declining => "Good time to sell existing inventory"
  }

  /**
   * The panel agrees with the summary: a top performer reads as trending
   * upward with the advice to hold, a decline as declining with the advice to
   * sell, and an unchanged price reads as upward though it is in neither list.
   */
  lemma TrendAgreesWithSummary(prices: seq<MarketPrice>, p: MarketPrice)
    ensures p in TopPerformers(prices) ==>
      TrendMessage(TrendOf(p)) == "Prices are trending upward"
      && AdviceMessage(TrendOf(p)) == "Consider holding harvest for better prices"
    ensures p in Declines(prices) ==>
      TrendMessage(TrendOf(p)) == "Prices are declining"
      && AdviceMessage(TrendOf(p)) == "Good time to sell existing inventory"
    ensures p.change == 0.0 ==> TrendOf(p) == Upward && p !in TopPerformers(prices)
  {
  }
}
