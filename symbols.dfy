/** The symbol catalogue (src/services/symbolService.js): a one-hour cache of the
    exchange's trading pairs, their grouping by quote asset, a text search, the order
    of the categories, a pick of popular pairs and a fallback list used when the
    exchange cannot be reached. The clock reading and the HTTP response are inputs. */
module SymbolService {
  import opened JsText
  import opened Sorting

  /** The six fields kept of a trading pair. */
  datatype SymbolInfo = SymbolInfo(
    symbol: string,
    baseAsset: string,
    quoteAsset: string,
    pricePrecision: int,
    quantityPrecision: int,
    status: string)

  /** An entry of the exchange's `symbols` list; the fields that are not copied are
      kept together in `others`. */
  datatype ExchangeSymbol = ExchangeSymbol(
    symbol: string,
    baseAsset: string,
    quoteAsset: string,
    pricePrecision: int,
    quantityPrecision: int,
    status: string,
    others: seq<(string, string)>)

  /** How `fetch('/api/v3/exchangeInfo')` ends: a status that is not ok, a body that
      is not JSON or has no `symbols` array, or the list of pairs. */
  datatype ExchangeResponse = HttpError(status: int) | Malformed | Listed(symbols: seq<ExchangeSymbol>)

  /** The cache lifetime: one hour. */
  const ExpiresAfterMs: int := 1000 * 60 * 60

  // ---------------------------------------------------------------------------
  // Active pairs

  function Project(x: ExchangeSymbol): SymbolInfo
  {
    SymbolInfo(x.symbol, x.baseAsset, x.quoteAsset, x.pricePrecision, x.quantityPrecision, x.status)
  }

  /** `data.symbols.filter(s => s.status === 'TRADING').map(...)` */
  function ActiveSymbols(raw: seq<ExchangeSymbol>): (r: seq<SymbolInfo>)
    ensures |r| <= |raw|
    ensures forall i :: 0 <= i < |r| ==> r[i].status == "TRADING"
  {
    if raw == [] then []
    else (if raw[0].status == "TRADING" then [Project(raw[0])] else []) + ActiveSymbols(raw[1..])
  }

  /** A pair is listed exactly when it is the projection of a raw entry that is trading. */
  lemma {:induction false} ActiveSymbolsIff(raw: seq<ExchangeSymbol>, s: SymbolInfo)
    ensures s in ActiveSymbols(raw) <==>
      exists i :: 0 <= i < |raw| && raw[i].status == "TRADING" && Project(raw[i]) == s
  {
    if raw != [] {
      ActiveSymbolsIff(raw[1..], s);
      if exists i :: 0 <= i < |raw[1..]| && raw[1..][i].status == "TRADING" && Project(raw[1..][i]) == s {
        var i :| 0 <= i < |raw[1..]| && raw[1..][i].status == "TRADING" && Project(raw[1..][i]) == s;
        assert raw[i + 1] == raw[1..][i];
      }
      if exists i :: 0 <= i < |raw| && raw[i].status == "TRADING" && Project(raw[i]) == s {
        var i :| 0 <= i < |raw| && raw[i].status == "TRADING" && Project(raw[i]) == s;
        if i > 0 {
          assert raw[1..][i - 1] == raw[i];
        }
      }
    }
  }

  // ---------------------------------------------------------------------------
  // Categories

  /** The object built by `processSymbolCategories`: its keys in insertion order and
      the list under each key. */
  datatype Categories = Categories(keys: seq<string>, groups: map<string, seq<SymbolInfo>>)

  /** The quote assets in the order they first occur. */
  function QuoteOrder(s: seq<SymbolInfo>): seq<string>
  {
    if s == [] then []
    else
      var o := QuoteOrder(s[..|s| - 1]);
      if s[|s| - 1].quoteAsset in o then o else o + [s[|s| - 1].quoteAsset]
  }

  /** The pairs quoted in `q`, in input order. */
  function WithQuote(s: seq<SymbolInfo>, q: string): seq<SymbolInfo>
  {
    if s == [] then []
    else WithQuote(s[..|s| - 1], q) + (if s[|s| - 1].quoteAsset == q then [s[|s| - 1]] else [])
  }

  /** `a.baseAsset.localeCompare(b.baseAsset) <= 0`, read as ordinal order. */
  predicate BaseLe(a: SymbolInfo, b: SymbolInfo)
  {
    StrLe(a.baseAsset, b.baseAsset)
  }

  lemma BaseLeTotalPreorder()
    ensures TotalPreorder(BaseLe)
  {
    forall a, b ensures BaseLe(a, b) || BaseLe(b, a) {
      StrLeTotal(a.baseAsset, b.baseAsset);
    }
    forall a, b, c | BaseLe(a, b) && BaseLe(b, c) ensures BaseLe(a, c) {
      StrLeTrans(a.baseAsset, b.baseAsset, c.baseAsset);
    }
  }

  /** What `processSymbolCategories(s)` builds: one key per quote asset, each list
      sorted by base asset. */
  function Categorize(s: seq<SymbolInfo>): Categories
  {
    var keys := QuoteOrder(s);
    Categories(keys, map q | q in keys :: Sort(WithQuote(s, q), BaseLe))
  }

  lemma {:induction false} QuoteOrderIff(s: seq<SymbolInfo>, q: string)
    ensures q in QuoteOrder(s) <==> exists i :: 0 <= i < |s| && s[i].quoteAsset == q
  {
    if s != [] {
      var init := s[..|s| - 1];
      QuoteOrderIff(init, q);
      if exists i :: 0 <= i < |init| && init[i].quoteAsset == q {
        var i :| 0 <= i < |init| && init[i].quoteAsset == q;
        assert s[i] == init[i];
      }
      if exists i :: 0 <= i < |s| && s[i].quoteAsset == q {
        var i :| 0 <= i < |s| && s[i].quoteAsset == q;
        if i < |s| - 1 {
          assert init[i] == s[i];
        }
      }
    }
  }

  lemma {:induction false} QuoteOrderDistinct(s: seq<SymbolInfo>)
    ensures forall i, j :: 0 <= i < j < |QuoteOrder(s)| ==> QuoteOrder(s)[i] != QuoteOrder(s)[j]
  {
    if s != [] {
      QuoteOrderDistinct(s[..|s| - 1]);
    }
  }

  lemma {:induction false} WithQuoteOfAbsent(s: seq<SymbolInfo>, q: string)
    requires q !in QuoteOrder(s)
    ensures WithQuote(s, q) == []
  {
    if s != [] {
      WithQuoteOfAbsent(s[..|s| - 1], q);
    }
  }

  /** A pair occurs in the list of `q` as often as in the input when it is quoted in
      `q`, and not at all otherwise. */
  lemma {:induction false} WithQuoteCount(s: seq<SymbolInfo>, q: string, x: SymbolInfo)
    ensures multiset(WithQuote(s, q))[x] == if x.quoteAsset == q then multiset(s)[x] else 0
  {
    if s != [] {
      var init := s[..|s| - 1];
      WithQuoteCount(init, q, x);
      assert s == init + [s[|s| - 1]];
    }
  }

  /** The keys are the quote assets that occur, each once. */
  lemma CategoryKeys(s: seq<SymbolInfo>, q: string)
    ensures var c := Categorize(s);
      (q in c.keys <==> exists i :: 0 <= i < |s| && s[i].quoteAsset == q) &&
      (q in c.groups <==> q in c.keys) &&
      forall i, j :: 0 <= i < j < |c.keys| ==> c.keys[i] != c.keys[j]
  {
    QuoteOrderIff(s, q);
    QuoteOrderDistinct(s);
  }

  /** Every pair lands in the list of its own quote asset, as often as it occurs in the
      input, and in no other list. */
  lemma CategoryCount(s: seq<SymbolInfo>, q: string, x: SymbolInfo)
    requires q in Categorize(s).groups
    ensures multiset(Categorize(s).groups[q])[x] == if x.quoteAsset == q then multiset(s)[x] else 0
  {
    BaseLeTotalPreorder();
    SortSortsAndPermutes(WithQuote(s, q), BaseLe);
    WithQuoteCount(s, q, x);
  }

  /** Each list is in base-asset order. */
  lemma CategorySorted(s: seq<SymbolInfo>, q: string)
    requires q in Categorize(s).groups
    ensures SortedBy(Categorize(s).groups[q], BaseLe)
  {
    BaseLeTotalPreorder();
    SortSortsAndPermutes(WithQuote(s, q), BaseLe);
  }

  // ---------------------------------------------------------------------------
  // Search

  /** The pair's symbol, base asset or quote asset contains the query. */
  predicate MatchesQuery(x: SymbolInfo, query: string)
  {
    Includes(x.symbol, query) || Includes(x.baseAsset, query) || Includes(x.quoteAsset, query)
  }

  function FilterMatching(xs: seq<SymbolInfo>, query: string): seq<SymbolInfo>
  {
    if xs == [] then []
    else (if MatchesQuery(xs[0], query) then [xs[0]] else []) + FilterMatching(xs[1..], query)
  }

  lemma {:induction false} FilterMatchingCount(xs: seq<SymbolInfo>, query: string, x: SymbolInfo)
    ensures multiset(FilterMatching(xs, query))[x] == if MatchesQuery(x, query) then multiset(xs)[x] else 0
  {
    if xs != [] {
      FilterMatchingCount(xs[1..], query, x);
      assert xs == [xs[0]] + xs[1..];
    }
  }

  /** The filter keeps the input order: filtering a concatenation filters each part in turn. */
  lemma {:induction false} FilterAppend(xs: seq<SymbolInfo>, ys: seq<SymbolInfo>, query: string)
    ensures FilterMatching(xs + ys, query) == FilterMatching(xs, query) + FilterMatching(ys, query)
  {
    if xs != [] {
      assert (xs + ys)[1..] == xs[1..] + ys;
      FilterAppend(xs[1..], ys, query);
    } else {
      assert xs + ys == ys;
    }
  }

  /** `searchSymbols(query)` over the pairs `symbols` that `fetchAllSymbols` gave. A
      falsy query is `None`. */
  function SearchSymbols(symbols: seq<SymbolInfo>, query: Option<string>): (r: seq<SymbolInfo>)
    ensures query.None? || Trim(query.value) == [] ==> r == symbols
  {
    if query.None? || query.value == [] || Trim(query.value) == [] then symbols
    else FilterMatching(symbols, Upper(Trim(query.value)))
  }

  /** A query with something besides white space keeps each pair whose symbol, base or
      quote asset contains the trimmed, upper-cased query, as often as it occurs,
      and drops every other pair; the kept pairs stay in input order, since the
      search of a concatenation is the search of each part in turn. */
  lemma SearchSymbolsCount(symbols: seq<SymbolInfo>, query: string, x: SymbolInfo, more: seq<SymbolInfo>)
    requires Trim(query) != []
    ensures multiset(SearchSymbols(symbols, Some(query)))[x] ==
      if MatchesQuery(x, Upper(Trim(query))) then multiset(symbols)[x] else 0
    ensures SearchSymbols([x], Some(query)) == if MatchesQuery(x, Upper(Trim(query))) then [x] else []
    ensures SearchSymbols(symbols + more, Some(query)) ==
      SearchSymbols(symbols, Some(query)) + SearchSymbols(more, Some(query))
  {
    FilterMatchingCount(symbols, Upper(Trim(query)), x);
    FilterAppend(symbols, more, Upper(Trim(query)));
    assert FilterMatching([x][1..], Upper(Trim(query))) == [];
  }

  // ---------------------------------------------------------------------------
  // Category order

  /** The quote assets listed first, in this order. */
  const Priority: seq<string> := ["USDT", "BUSD", "BTC", "ETH", "BNB"]

  /** `xs.indexOf(a)` */
  function IndexOf(xs: seq<string>, a: string): (r: int)
    ensures -1 <= r < |xs|
    ensures r >= 0 ==> xs[r] == a && forall j :: 0 <= j < r ==> xs[j] != a
    ensures r == -1 <==> a !in xs
  {
    if xs == [] then -1
    else if xs[0] == a then 0
    else var k := IndexOf(xs[1..], a); if k < 0 then -1 else k + 1
  }

  /** The comparator of `getCategories`; `localeCompare` read as ordinal order. */
  function CompareCategories(a: string, b: string): int
  {
    var ia := IndexOf(Priority, a);
    var ib := IndexOf(Priority, b);
    if ia >= 0 && ib >= 0 then ia - ib
    else if ia >= 0 then -1
    else if ib >= 0 then 1
    else if a == b then 0
    else if StrLe(a, b) then -1
    else 1
  }

  predicate CategoryLe(a: string, b: string)
  {
    CompareCategories(a, b) <= 0
  }

  lemma CategoryLeTotalPreorder()
    ensures TotalPreorder(CategoryLe)
  {
    forall a, b ensures CategoryLe(a, b) || CategoryLe(b, a) {
      StrLeTotal(a, b);
    }
    forall a, b, c | CategoryLe(a, b) && CategoryLe(b, c) ensures CategoryLe(a, c) {
      if a !in Priority && b !in Priority && c !in Priority {
        if a != b && b != c && a != c {
          StrLeTrans(a, b, c);
        }
        if a == c {
        }
      }
    }
  }

  /** What the comparator's order means: priority assets before the others and in
      priority order, the others in ordinal order. */
  lemma CategoryLeMeaning(a: string, b: string)
    requires CategoryLe(a, b)
    ensures b in Priority ==> a in Priority && IndexOf(Priority, a) <= IndexOf(Priority, b)
    ensures a !in Priority ==> b !in Priority && StrLe(a, b)
  {
    if a == b {
      StrLeReflexive(a);
    }
  }

  /** `getCategories()`: the category keys, priority assets first in priority order,
      then the others in ordinal order. */
  function OrderCategories(keys: seq<string>): (r: seq<string>)
    ensures multiset(r) == multiset(keys)
    ensures forall i, j :: 0 <= i < j < |r| && r[j] in Priority ==>
      r[i] in Priority && IndexOf(Priority, r[i]) <= IndexOf(Priority, r[j])
    ensures forall i, j :: 0 <= i < j < |r| && r[i] !in Priority ==>
      r[j] !in Priority && StrLe(r[i], r[j])
  {
    CategoryLeTotalPreorder();
    SortSortsAndPermutes(keys, CategoryLe);
    var r := Sort(keys, CategoryLe);
    assert forall i, j :: 0 <= i < j < |r| ==> CategoryLe(r[i], r[j]);
    assert forall a, b :: CategoryLe(a, b) ==>
      (b in Priority ==> a in Priority && IndexOf(Priority, a) <= IndexOf(Priority, b)) &&
      (a !in Priority ==> b !in Priority && StrLe(a, b)) by {
      forall a, b | CategoryLe(a, b)
        ensures (b in Priority ==> a in Priority && IndexOf(Priority, a) <= IndexOf(Priority, b)) &&
                (a !in Priority ==> b !in Priority && StrLe(a, b))
      {
        CategoryLeMeaning(a, b);
      }
    }
    r
  }

  // ---------------------------------------------------------------------------
  // Top symbols

  /** The base assets picked first. */
  const Popular: seq<string> := ["BTC", "ETH", "BNB", "SOL", "XRP", "ADA", "DOGE", "SHIB",
                                 "AVAX", "DOT", "LINK", "MATIC", "LTC", "UNI", "ATOM"]

  lemma PopularDistinct()
    ensures forall i, j :: 0 <= i < j < |Popular| ==> Popular[i] != Popular[j]
  {
  }

  /** `list.find(s => s.baseAsset === b)` */
  function FindBase(xs: seq<SymbolInfo>, b: string): (r: Option<SymbolInfo>)
    ensures r.Some? ==> r.value in xs && r.value.baseAsset == b
    ensures r.None? <==> forall x :: x in xs ==> x.baseAsset != b
    ensures r.Some? ==> exists k :: 0 <= k < |xs| && xs[k] == r.value && FirstWithBase(xs, b, k)
  {
    if xs == [] then None
    else if xs[0].baseAsset == b then
      assert FirstWithBase(xs, b, 0);
      Some(xs[0])
    else
      var r := FindBase(xs[1..], b);
      if r.Some? then
        var k :| 0 <= k < |xs[1..]| && xs[1..][k] == r.value && FirstWithBase(xs[1..], b, k);
        assert FirstWithBase(xs, b, k + 1);
        r
      else r
  }

  /** Position `k` holds the first pair of `xs` with base `b`. */
  predicate FirstWithBase(xs: seq<SymbolInfo>, b: string, k: int)
  {
    0 <= k < |xs| && xs[k].baseAsset == b && forall m :: 0 <= m < k ==> xs[m].baseAsset != b
  }

  /** `list.find(s => s.baseAsset === b && !result.includes(s))` */
  function FindBaseNotIn(xs: seq<SymbolInfo>, b: string, result: seq<SymbolInfo>): Option<SymbolInfo>
  {
    if xs == [] then None
    else if xs[0].baseAsset == b && xs[0] !in result then Some(xs[0])
    else FindBaseNotIn(xs[1..], b, result)
  }

  /** When no pair with base `b` was picked yet, the exclusion changes nothing. */
  lemma {:induction false} FindBaseNotInFresh(xs: seq<SymbolInfo>, b: string, result: seq<SymbolInfo>)
    requires forall x :: x in xs && x.baseAsset == b ==> x !in result
    ensures FindBaseNotIn(xs, b, result) == FindBase(xs, b)
  {
    if xs != [] {
      FindBaseNotInFresh(xs[1..], b, result);
    }
  }

  /** For each base in turn, the first pair of `group` with that base, if any. */
  function Picks(group: seq<SymbolInfo>, bases: seq<string>): (r: seq<SymbolInfo>)
    ensures |r| <= |bases|
    ensures forall x :: x in r ==> x in group && x.baseAsset in bases
  {
    if bases == [] then []
    else
      var f := FindBase(group, bases[|bases| - 1]);
      Picks(group, bases[..|bases| - 1]) + (if f.Some? then [f.value] else [])
  }

  /** Every base of `bases` that has a pair in `group` gets that base's first pair. */
  lemma {:induction false} PicksComplete(group: seq<SymbolInfo>, bases: seq<string>, b: string)
    requires b in bases && FindBase(group, b).Some?
    ensures FindBase(group, b).value in Picks(group, bases)
  {
    if bases[|bases| - 1] != b {
      PicksComplete(group, bases[..|bases| - 1], b);
    }
  }

  lemma IndexOfFirst(xs: seq<string>, a: string, k: int)
    requires 0 <= k < |xs| && xs[k] == a && forall m :: 0 <= m < k ==> xs[m] != a
    ensures IndexOf(xs, a) == k
  {
  }

  /** The picks follow the order of the bases, at most one per base. */
  lemma {:induction false} PicksFollowBases(group: seq<SymbolInfo>, bases: seq<string>)
    requires forall i, j :: 0 <= i < j < |bases| ==> bases[i] != bases[j]
    ensures var r := Picks(group, bases);
      forall i, j :: 0 <= i < j < |r| ==> IndexOf(bases, r[i].baseAsset) < IndexOf(bases, r[j].baseAsset)
  {
    if bases != [] {
      PicksFollowBases(group, bases[..|bases| - 1]);
      var r := Picks(group, bases);
      forall i, j | 0 <= i < j < |r| ensures IndexOf(bases, r[i].baseAsset) < IndexOf(bases, r[j].baseAsset) {
        PicksPairOrder(group, bases, i, j);
      }
    }
  }

  /** The step of `PicksFollowBases` for one pair of picks, given the order of the picks
      of all bases but the last. */
  lemma PicksPairOrder(group: seq<SymbolInfo>, bases: seq<string>, i: int, j: int)
    requires bases != [] && forall i, j :: 0 <= i < j < |bases| ==> bases[i] != bases[j]
    requires var p := Picks(group, bases[..|bases| - 1]);
      forall i, j :: 0 <= i < j < |p| ==> IndexOf(bases[..|bases| - 1], p[i].baseAsset) < IndexOf(bases[..|bases| - 1], p[j].baseAsset)
    requires 0 <= i < j < |Picks(group, bases)|
    ensures IndexOf(bases, Picks(group, bases)[i].baseAsset) < IndexOf(bases, Picks(group, bases)[j].baseAsset)
  {
    var p := Picks(group, bases[..|bases| - 1]);
    var r := Picks(group, bases);
    var f := FindBase(group, bases[|bases| - 1]);
    assert r == p + (if f.Some? then [f.value] else []);
    assert r[i] == p[i];
    PickIndexInPrefix(group, bases, p[i]);
    if j < |p| {
      assert r[j] == p[j];
      PickIndexInPrefix(group, bases, p[j]);
    } else {
      IndexOfFirst(bases, bases[|bases| - 1], |bases| - 1);
    }
  }

  /** A pick made before the last base keeps its position when the last base is added. */
  lemma PickIndexInPrefix(group: seq<SymbolInfo>, bases: seq<string>, x: SymbolInfo)
    requires bases != [] && x in Picks(group, bases[..|bases| - 1])
    requires forall i, j :: 0 <= i < j < |bases| ==> bases[i] != bases[j]
    ensures IndexOf(bases, x.baseAsset) == IndexOf(bases[..|bases| - 1], x.baseAsset) < |bases| - 1
  {
    var init := bases[..|bases| - 1];
    var k := IndexOf(init, x.baseAsset);
    assert bases[k] == init[k];
    IndexOfFirst(bases, x.baseAsset, k);
  }

  /** `result.slice(0, end)` */
  function Slice(xs: seq<SymbolInfo>, end: int): (r: seq<SymbolInfo>)
    ensures end >= 0 ==> |r| <= end
    ensures |r| <= |xs| && r == xs[..|r|]
    ensures end < 0 ==> |r| == if |xs| + end < 0 then 0 else |xs| + end
    ensures end >= 0 ==> |r| == if end < |xs| then end else |xs|
  {
    if end < 0 then (if |xs| + end < 0 then [] else xs[..|xs| + end])
    else if end < |xs| then xs[..end] else xs
  }

  /** The list under key `q`, or none. */
  function Group(c: Categories, q: string): seq<SymbolInfo>
  {
    if q in c.groups then c.groups[q] else []
  }

  /** Every list holds only pairs quoted in its key. */
  ghost predicate Keyed(c: Categories)
  {
    forall q, x :: q in c.groups && x in c.groups[q] ==> x.quoteAsset == q
  }

  lemma CategorizeKeyed(s: seq<SymbolInfo>)
    ensures Keyed(Categorize(s))
  {
    var c := Categorize(s);
    forall q, x | q in c.groups && x in c.groups[q] ensures x.quoteAsset == q {
      CategoryCount(s, q, x);
    }
  }

  /** No pair occurs twice. */
  predicate Distinct(xs: seq<SymbolInfo>)
  {
    forall i, j :: 0 <= i < j < |xs| ==> xs[i] != xs[j]
  }

  /** Two picks of the popular bases come in the order of their bases. */
  lemma PicksIncreasing(group: seq<SymbolInfo>, i: int, j: int)
    requires 0 <= i < j < |Picks(group, Popular)|
    ensures IndexOf(Popular, Picks(group, Popular)[i].baseAsset) < IndexOf(Popular, Picks(group, Popular)[j].baseAsset)
  {
    PopularDistinct();
    PicksFollowBases(group, Popular);
  }

  /** The picks of one group have no repeats. */
  lemma PicksDistinct(group: seq<SymbolInfo>)
    ensures Distinct(Picks(group, Popular))
  {
    var p := Picks(group, Popular);
    forall i, j | 0 <= i < j < |p| ensures p[i] != p[j] {
      PicksIncreasing(group, i, j);
    }
  }

  /** Two lists without repeats, quoted in different assets, have none together. */
  lemma ConcatDistinct(u: seq<SymbolInfo>, b: seq<SymbolInfo>, qu: string, qb: string)
    requires Distinct(u) && Distinct(b) && qu != qb
    requires forall x :: x in u ==> x.quoteAsset == qu
    requires forall x :: x in b ==> x.quoteAsset == qb
    ensures Distinct(u + b)
  {
    var all := u + b;
    forall i, j | 0 <= i < j < |all| ensures all[i] != all[j] {
      if j < |u| {
        assert all[i] == u[i] && all[j] == u[j];
      } else if i >= |u| {
        assert all[i] == b[i - |u|] && all[j] == b[j - |u|];
      } else {
        assert all[i] in u && all[j] in b;
      }
    }
  }

  /** The popular pairs chosen by `getTopSymbols(limit)` have no repeats: USDT pairs and
      BTC pairs differ in quote, and within each quote the bases differ. */
  lemma TopPicksDistinct(c: Categories, limit: int)
    requires Keyed(c)
    ensures Distinct(Slice(Picks(Group(c, "USDT"), Popular) + Picks(Group(c, "BTC"), Popular), limit))
  {
    var u := Picks(Group(c, "USDT"), Popular);
    var b := Picks(Group(c, "BTC"), Popular);
    PicksDistinct(Group(c, "USDT"));
    PicksDistinct(Group(c, "BTC"));
    ConcatDistinct(u, b, "USDT", "BTC");
  }

  // ---------------------------------------------------------------------------
  // Fallback list

  const FallbackNames: seq<string> := [
    "BTCUSDT", "ETHUSDT", "BNBUSDT", "XRPUSDT", "ADAUSDT",
    "DOGEUSDT", "SOLUSDT", "MATICUSDT", "LTCUSDT", "UNIUSDT",
    "DOTUSDT", "AVAXUSDT", "ATOMUSDT", "LINKUSDT", "SHIBUSDT",
    "ETCUSDT", "VETUSDT", "SANDUSDT", "WAVESUSDT", "ONEUSDT"]

  /** The quote suffixes tried, in this order. */
  const QuoteSuffixes: seq<string> := ["USDT", "BTC", "ETH", "BNB", "BUSD"]

  /** Suffix `k` is the first of the list that the symbol ends with. */
  predicate FirstSuffixAt(symbol: string, k: int)
  {
    0 <= k < |QuoteSuffixes| && EndsWith(symbol, QuoteSuffixes[k]) &&
    forall m :: 0 <= m < k ==> !EndsWith(symbol, QuoteSuffixes[m])
  }

  predicate NoQuoteSuffix(symbol: string)
  {
    forall k :: 0 <= k < |QuoteSuffixes| ==> !EndsWith(symbol, QuoteSuffixes[k])
  }

  /** The split of one fallback symbol: the first suffix it ends with is the quote asset
      and the rest the base; without one, the whole symbol is the base and USDT the quote. */
  method SplitSymbol(symbol: string) returns (baseAsset: string, quoteAsset: string)
    ensures NoQuoteSuffix(symbol) ==> baseAsset == symbol && quoteAsset == "USDT"
    ensures !NoQuoteSuffix(symbol) ==>
      exists k :: FirstSuffixAt(symbol, k) && quoteAsset == QuoteSuffixes[k] && baseAsset + quoteAsset == symbol
  {
    baseAsset := symbol;
    quoteAsset := "USDT";
    var k := 0;
    while k < |QuoteSuffixes|
      invariant 0 <= k <= |QuoteSuffixes|
      invariant forall m :: 0 <= m < k ==> !EndsWith(symbol, QuoteSuffixes[m])
      invariant baseAsset == symbol && quoteAsset == "USDT"
    {
      var qa := QuoteSuffixes[k];
      if EndsWith(symbol, qa) {
        quoteAsset := qa;
        baseAsset := symbol[..|symbol| - |qa|];
        assert FirstSuffixAt(symbol, k);
        assert baseAsset + quoteAsset == symbol;
        return;
      }
      k := k + 1;
    }
  }

  /** The entries of `getFallbackSymbols`: each symbol of the list split into base and
      quote, precisions 8 and status TRADING. */
  ghost predicate IsFallbackList(r: seq<SymbolInfo>)
  {
    |r| == |FallbackNames| &&
    forall i :: 0 <= i < |r| ==>
      r[i].symbol == FallbackNames[i] && r[i].quoteAsset == "USDT" &&
      r[i].baseAsset + r[i].quoteAsset == FallbackNames[i] &&
      r[i].pricePrecision == 8 && r[i].quantityPrecision == 8 && r[i].status == "TRADING"
  }

  lemma FallbackNamesEndInUsdt()
    ensures forall i :: 0 <= i < |FallbackNames| ==> FirstSuffixAt(FallbackNames[i], 0)
  {
  }

  /** The `forEach` of `processSymbolCategories`: a key per new quote asset, each pair
      pushed onto the list of its quote asset. */
  method GroupByQuote(symbols: seq<SymbolInfo>) returns (keys: seq<string>, groups: map<string, seq<SymbolInfo>>)
    ensures keys == QuoteOrder(symbols)
    ensures groups == map q | q in keys :: WithQuote(symbols, q)
  {
    keys, groups := [], map[];
    var i := 0;
    while i < |symbols|
      invariant 0 <= i <= |symbols|
      invariant Grouped(symbols[..i], keys, groups)
    {
      var s := symbols[i];
      assert symbols[..i + 1] == symbols[..i] + [s];
      GroupedStep(symbols[..i], s, keys, groups);
      if s.quoteAsset !in groups {
        keys := keys + [s.quoteAsset];
        groups := groups[s.quoteAsset := []];
      }
      groups := groups[s.quoteAsset := groups[s.quoteAsset] + [s]];
      i := i + 1;
    }
    assert symbols[..|symbols|] == symbols;
    GroupedMap(symbols, keys, groups);
  }

  /** The loop invariant of `GroupByQuote`: keys and lists as the function definitions
      give them for the pairs seen so far. */
  ghost predicate Grouped(prefix: seq<SymbolInfo>, keys: seq<string>, groups: map<string, seq<SymbolInfo>>)
  {
    keys == QuoteOrder(prefix) &&
    (forall q :: q in groups <==> q in keys) &&
    forall q :: q in groups ==> groups[q] == WithQuote(prefix, q)
  }

  /** One pair more: a new quote asset is added at the end of the keys, and the pair at
      the end of the list of its quote asset. */
  lemma GroupedStep(prefix: seq<SymbolInfo>, s: SymbolInfo, keys: seq<string>, groups: map<string, seq<SymbolInfo>>)
    requires Grouped(prefix, keys, groups)
    ensures var q := s.quoteAsset;
      Grouped(prefix + [s],
              if q in groups then keys else keys + [q],
              groups[q := (if q in groups then groups[q] else []) + [s]])
  {
    var next := prefix + [s];
    assert next[..|next| - 1] == prefix && next[|next| - 1] == s;
    var q0 := s.quoteAsset;
    var groups' := groups[q0 := (if q0 in groups then groups[q0] else []) + [s]];
    assert q0 in groups <==> q0 in keys;
    if q0 !in groups {
      WithQuoteOfAbsent(prefix, q0);
    }
    forall q | q in groups' ensures groups'[q] == WithQuote(next, q) {
      assert WithQuote(next, q) == WithQuote(prefix, q) + (if q0 == q then [s] else []);
    }
  }

  lemma GroupedMap(symbols: seq<SymbolInfo>, keys: seq<string>, groups: map<string, seq<SymbolInfo>>)
    requires Grouped(symbols, keys, groups)
    ensures groups == map q | q in keys :: WithQuote(symbols, q)
  {
  }

  /** The second `forEach`: each list sorted in place by base asset. */
  method SortGroups(symbols: seq<SymbolInfo>, keys: seq<string>, unsorted: map<string, seq<SymbolInfo>>)
    returns (groups: map<string, seq<SymbolInfo>>)
    requires forall i, j :: 0 <= i < j < |keys| ==> keys[i] != keys[j]
    requires unsorted == map q | q in keys :: WithQuote(symbols, q)
    ensures groups == map q | q in keys :: Sort(WithQuote(symbols, q), BaseLe)
  {
    groups := unsorted;
    var j := 0;
    while j < |keys|
      invariant 0 <= j <= |keys|
      invariant forall q :: q in groups <==> q in keys
      invariant forall k :: 0 <= k < j ==> groups[keys[k]] == Sort(WithQuote(symbols, keys[k]), BaseLe)
      invariant forall k :: j <= k < |keys| ==> groups[keys[k]] == WithQuote(symbols, keys[k])
    {
      var q := keys[j];
      groups := groups[q := Sort(groups[q], BaseLe)];
      j := j + 1;
    }
    forall q | q in keys ensures groups[q] == Sort(WithQuote(symbols, q), BaseLe) {
      var k :| 0 <= k < |keys| && keys[k] == q;
    }
  }

  /** The first `forEach` of `getTopSymbols`: for each popular base, the first pair of
      the list with that base. */
  method PickEach(group: seq<SymbolInfo>, bases: seq<string>) returns (result: seq<SymbolInfo>)
    ensures result == Picks(group, bases)
  {
    result := [];
    var j := 0;
    while j < |bases|
      invariant 0 <= j <= |bases|
      invariant result == Picks(group, bases[..j])
    {
      assert bases[..j + 1][..j] == bases[..j];
      var found := FindBase(group, bases[j]);
      if found.Some? {
        result := result + [found.value];
      }
      j := j + 1;
    }
    assert bases[..|bases|] == bases;
  }

  /** What the top-up loop keeps after `j` bases: the picks so far are a prefix of the
      USDT picks followed by the BTC picks for those bases, and the whole of it while
      the limit is not reached. */
  ghost predicate TopUpInv(u: seq<SymbolInfo>, btc: seq<SymbolInfo>, bases: seq<string>, j: int, result: seq<SymbolInfo>, limit: int)
    requires 0 <= j <= |bases|
  {
    var whole := u + Picks(btc, bases[..j]);
    |result| <= limit && |u| <= |result| <= |whole| && result == whole[..|result|]
    && (|result| < limit ==> result == whole)
  }

  /** One base of the top-up: below the limit the search that skips taken pairs finds
      the BTC pick for the base, and at the limit the picks are still a prefix. */
  lemma TopUpStep(usdt: seq<SymbolInfo>, btc: seq<SymbolInfo>, bases: seq<string>, u: seq<SymbolInfo>, result: seq<SymbolInfo>, limit: int, j: int)
    requires 0 <= j < |bases|
    requires forall i, k :: 0 <= i < k < |bases| ==> bases[i] != bases[k]
    requires u == Picks(usdt, bases)
    requires forall x :: x in usdt ==> x.quoteAsset == "USDT"
    requires forall x :: x in btc ==> x.quoteAsset == "BTC"
    requires TopUpInv(u, btc, bases, j, result, limit)
    ensures var f := FindBaseNotIn(btc, bases[j], result);
      var next := if |result| < limit && f.Some? then result + [f.value] else result;
      TopUpInv(u, btc, bases, j + 1, next, limit)
  {
    var before := u + Picks(btc, bases[..j]);
    var f := FindBase(btc, bases[j]);
    var extra := if f.Some? then [f.value] else [];
    PicksStep(btc, bases, j);
    assert u + Picks(btc, bases[..j + 1]) == before + extra;
    if |result| < limit {
      NotTakenYet(usdt, btc, bases, u, result, j);
      FindBaseNotInFresh(btc, bases[j], result);
      assert (before + extra)[..|before + extra|] == before + extra;
    } else {
      PrefixOfExtension(result, before, extra);
    }
  }

  /** The second `forEach` of `getTopSymbols`: for each popular base in turn, while
      fewer than `limit` pairs are taken, the first BTC pair with that base not taken
      yet. What it builds is a prefix of the USDT picks followed by all BTC picks, and
      all of it unless it reached `limit`. */
  method TopUp(usdt: seq<SymbolInfo>, btc: seq<SymbolInfo>, bases: seq<string>, u: seq<SymbolInfo>, limit: int)
    returns (result: seq<SymbolInfo>)
    requires forall i, k :: 0 <= i < k < |bases| ==> bases[i] != bases[k]
    requires u == Picks(usdt, bases) && |u| < limit
    requires forall x :: x in usdt ==> x.quoteAsset == "USDT"
    requires forall x :: x in btc ==> x.quoteAsset == "BTC"
    ensures |result| <= limit
    ensures |result| <= |u + Picks(btc, bases)| && result == (u + Picks(btc, bases))[..|result|]
    ensures |result| < limit ==> result == u + Picks(btc, bases)
  {
    result := u;
    var j := 0;
    assert bases[..0] == [];
    while j < |bases|
      invariant 0 <= j <= |bases|
      invariant TopUpInv(u, btc, bases, j, result, limit)
    {
      TopUpStep(usdt, btc, bases, u, result, limit, j);
      if |result| < limit {
        var found := FindBaseNotIn(btc, bases[j], result);
        if found.Some? {
          result := result + [found.value];
        }
      }
      j := j + 1;
    }
    assert bases[..|bases|] == bases;
  }

  lemma PrefixOfExtension(a: seq<SymbolInfo>, b: seq<SymbolInfo>, c: seq<SymbolInfo>)
    requires |a| <= |b| && a == b[..|a|]
    ensures |a| <= |b + c| && a == (b + c)[..|a|]
  {
  }

  lemma PicksStep(group: seq<SymbolInfo>, bases: seq<string>, j: int)
    requires 0 <= j < |bases|
    ensures var f := FindBase(group, bases[j]);
      Picks(group, bases[..j + 1]) == Picks(group, bases[..j]) + (if f.Some? then [f.value] else [])
  {
    assert bases[..j + 1][..j] == bases[..j];
  }

  /** No BTC pair with the `j`-th popular base has been taken: taken USDT pairs have
      another quote, taken BTC pairs an earlier base. */
  lemma NotTakenYet(usdt: seq<SymbolInfo>, btc: seq<SymbolInfo>, bases: seq<string>, u: seq<SymbolInfo>, result: seq<SymbolInfo>, j: int)
    requires 0 <= j < |bases|
    requires forall i, k :: 0 <= i < k < |bases| ==> bases[i] != bases[k]
    requires u == Picks(usdt, bases)
    requires result == u + Picks(btc, bases[..j])
    requires forall x :: x in usdt ==> x.quoteAsset == "USDT"
    requires forall x :: x in btc ==> x.quoteAsset == "BTC"
    ensures forall x :: x in btc && x.baseAsset == bases[j] ==> x !in result
  {
    var p := Picks(btc, bases[..j]);
    assert bases[j] !in bases[..j];
    forall x | x in btc && x.baseAsset == bases[j] ensures x !in result {
      forall k | 0 <= k < |result| ensures result[k] != x {
        if k < |u| {
          assert result[k] == u[k] && u[k] in usdt;
        } else {
          assert result[k] == p[k - |u|] && p[k - |u|] in p;
        }
      }
    }
  }

  /** The `map` of `getFallbackSymbols` over its twenty symbols. */
  method FallbackList() returns (r: seq<SymbolInfo>)
    ensures IsFallbackList(r)
  {
    FallbackNamesEndInUsdt();
    r := [];
    var i := 0;
    while i < |FallbackNames|
      invariant 0 <= i <= |FallbackNames|
      invariant |r| == i
      invariant forall k :: 0 <= k < i ==>
        r[k].symbol == FallbackNames[k] && r[k].quoteAsset == "USDT" &&
        r[k].baseAsset + r[k].quoteAsset == FallbackNames[k] &&
        r[k].pricePrecision == 8 && r[k].quantityPrecision == 8 && r[k].status == "TRADING"
    {
      var symbol := FallbackNames[i];
      var baseAsset, quoteAsset := SplitSymbol(symbol);
      assert !NoQuoteSuffix(symbol) by {
        assert FirstSuffixAt(symbol, 0);
      }
      ghost var k :| FirstSuffixAt(symbol, k) && quoteAsset == QuoteSuffixes[k] && baseAsset + quoteAsset == symbol;
      assert k == 0;
      r := r + [SymbolInfo(symbol, baseAsset, quoteAsset, 8, 8, "TRADING")];
      i := i + 1;
    }
  }

  // ---------------------------------------------------------------------------
  // The cache, updated in place

  class SymbolCache {
    var data: Option<seq<SymbolInfo>>
    var timestamp: int
    var categories: Categories

    ghost predicate Valid()
      reads this
    {
      Keyed(categories)
    }

    constructor ()
      ensures Valid()
      ensures data == None && timestamp == 0 && categories == Categories([], map[])
    {
      data := None;
      timestamp := 0;
      categories := Categories([], map[]);
    }

    /** The cached list is used without a request. */
    predicate Fresh(now: int)
      reads this
    {
      data.Some? && now - timestamp < ExpiresAfterMs
    }

    /** `processSymbolCategories(symbols)` */
    method ProcessSymbolCategories(symbols: seq<SymbolInfo>)
      modifies this
      ensures categories == Categorize(symbols)
      ensures data == old(data) && timestamp == old(timestamp)
      ensures Valid()
    {
      var keys, groups := GroupByQuote(symbols);
      QuoteOrderDistinct(symbols);
      groups := SortGroups(symbols, keys, groups);
      categories := Categories(keys, groups);
      CategorizeKeyed(symbols);
    }

    /** `getFallbackSymbols()`: builds the fallback list and files it into categories;
        the cached data and its time are left as they are. */
    method GetFallbackSymbols() returns (r: seq<SymbolInfo>)
      modifies this
      ensures IsFallbackList(r)
      ensures categories == Categorize(r)
      ensures data == old(data) && timestamp == old(timestamp)
      ensures Valid()
    {
      r := FallbackList();
      ProcessSymbolCategories(r);
    }

    /** `fetchAllSymbols()` at time `now`. A fresh cache is returned without a request
        (`response` is then not used). Otherwise a listed response replaces the data,
        stamps it and files it into categories; any failure returns the fallback list,
        which refiles the categories but leaves the data and its time alone. */
    method FetchAllSymbols(now: int, response: ExchangeResponse) returns (r: seq<SymbolInfo>)
      modifies this
      requires Valid()
      ensures Valid()
      ensures old(Fresh(now)) ==>
        r == old(data).value && data == old(data) && timestamp == old(timestamp) && categories == old(categories)
      ensures !old(Fresh(now)) && response.Listed? ==>
        r == ActiveSymbols(response.symbols) && data == Some(r) && timestamp == now && categories == Categorize(r)
      ensures !old(Fresh(now)) && !response.Listed? ==>
        IsFallbackList(r) && data == old(data) && timestamp == old(timestamp) && categories == Categorize(r)
    {
      if data.Some? && now - timestamp < ExpiresAfterMs {
        return data.value;
      }
      if !response.Listed? {
        r := GetFallbackSymbols();
        return;
      }
      r := ActiveSymbols(response.symbols);
      data := Some(r);
      timestamp := now;
      ProcessSymbolCategories(r);
    }

    /** `getTopSymbols(limit)` over the cached categories: for each popular base the
        first USDT pair; then, while fewer than `limit`, the first BTC pair of each
        popular base not already taken; at most `limit` of them (`slice(0, limit)`,
        which counts from the end for a negative limit). */
    method GetTopSymbols(limit: int := 20) returns (r: seq<SymbolInfo>)
      requires Valid()
      ensures limit >= 0 ==> r == Slice(Picks(Group(categories, "USDT"), Popular) + Picks(Group(categories, "BTC"), Popular), limit)
      ensures limit < 0 ==> r == Slice(Picks(Group(categories, "USDT"), Popular), limit)
      ensures limit >= 0 ==> |r| <= limit
    {
      var usdt := Group(categories, "USDT");
      var btc := Group(categories, "BTC");
      var result: seq<SymbolInfo> := [];
      if "USDT" in categories.groups {
        result := PickEach(usdt, Popular);
      } else {
        PicksOfNothing(Popular);
      }
      var whole := result + Picks(btc, Popular);
      if |result| < limit && "BTC" in categories.groups {
        PopularDistinct();
        result := TopUp(usdt, btc, Popular, result, limit);
      }
      r := Slice(result, limit);
      if limit >= 0 {
        if "BTC" !in categories.groups {
          PicksOfNothing(Popular);
        }
        SliceOfLonger(result, whole, limit);
      }
    }

    /** `getSymbolsByCategory(category)`: the list of a known category, otherwise the
        top twenty pairs. A falsy category is `None`. */
    method GetSymbolsByCategory(category: Option<string>) returns (r: seq<SymbolInfo>)
      requires Valid()
      ensures category.Some? && category.value != [] && category.value in categories.groups ==>
        r == categories.groups[category.value]
      ensures category.None? || category.value == [] || category.value !in categories.groups ==>
        r == Slice(Picks(Group(categories, "USDT"), Popular) + Picks(Group(categories, "BTC"), Popular), 20)
    {
      if category.None? || category.value == [] || category.value !in categories.groups {
        r := GetTopSymbols(20);
        return;
      }
      r := categories.groups[category.value];
    }
  }

  lemma {:induction false} PicksOfNothing(bases: seq<string>)
    ensures Picks([], bases) == []
  {
    if bases != [] {
      PicksOfNothing(bases[..|bases| - 1]);
    }
  }

  /** Cutting a prefix of `whole` at `limit` gives the cut of `whole`, when the prefix
      is all of `whole` or reaches `limit`. */
  lemma SliceOfLonger(result: seq<SymbolInfo>, whole: seq<SymbolInfo>, limit: int)
    requires limit >= 0 && |result| <= |whole| && result == whole[..|result|]
    requires result == whole || |result| >= limit
    ensures Slice(result, limit) == Slice(whole, limit)
  {
  }
}
