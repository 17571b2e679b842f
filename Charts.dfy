/**
 * routers/newsapi/charts.py: counting located news per country, with the
 * point-in-polygon test of the country shapes as an oracle, and the bar
 * chart of those counts in descending order.
 */
module Charts {
  import opened Wrappers
  import opened Seqs
  import opened News

  /** One row of the country shapes table: its `NAME` and `COUNTRY` columns, absent when the table lacks them. */
  datatype Region = Region(name: Option<string>, country: Option<string>)

  /** `countries_gdf.contains(Point(lng, lat))` for one row. */
  type Contains = (Region, real, real) -> bool

  /** A posted news item: only its `location` list (empty by default) matters here. */
  datatype NewsItem = NewsItem(location: seq<LocationInfo>)

  /** `row.get('NAME', row.get('COUNTRY', '未知国家'))`. */
  function Label(r: Region): (s: string)
    ensures r.name.Some? ==> s == r.name.value
    ensures r.name.None? && r.country.Some? ==> s == r.country.value
    ensures r.name.None? && r.country.None? ==> s == "未知国家"
  {
    match r.name
    case Some(n) => n
    case None => r.country.GetOr("未知国家")
  }

  /** The first row whose shape contains the point, if any. */
  function FirstContaining(regions: seq<Region>, contains: Contains, lng: real, lat: real): (r: Option<nat>)
    ensures r.Some? ==> r.value < |regions| && contains(regions[r.value], lng, lat)
    ensures r.Some? ==> forall k :: 0 <= k < r.value ==> !contains(regions[k], lng, lat)
    ensures r.None? ==> forall k :: 0 <= k < |regions| ==> !contains(regions[k], lng, lat)
  {
    if regions == [] then None
    else if contains(regions[0], lng, lat) then Some(0)
    else match FirstContaining(regions[1..], contains, lng, lat)
      case None => None
      case Some(k) => Some(k + 1)
  }

  /** The country one location is credited to: the label of the first matching row. */
  function CountryOf(regions: seq<Region>, contains: Contains, loc: LocationInfo): Option<string> {
    match FirstContaining(regions, contains, loc.lng, loc.lat)
    case None => None
    case Some(k) => Some(Label(regions[k]))
  }

  /** The countries credited by one item's locations, in order; unmatched locations credit nothing. */
  function ItemCountries(regions: seq<Region>, contains: Contains, locs: seq<LocationInfo>): (r: seq<string>)
    ensures |r| <= |locs|
  {
    if locs == [] then []
    else
      var init := ItemCountries(regions, contains, locs[..|locs| - 1]);
      match CountryOf(regions, contains, locs[|locs| - 1])
      case None => init
      case Some(c) => init + [c]
  }

  /** Every credit, item by item. */
  function Credits(regions: seq<Region>, contains: Contains, items: seq<NewsItem>): (r: seq<string>)
    ensures |r| <= TotalLocations(items)
  {
    if items == [] then []
    else Credits(regions, contains, items[..|items| - 1]) + ItemCountries(regions, contains, items[|items| - 1].location)
  }

  function TotalLocations(items: seq<NewsItem>): nat {
    if items == [] then 0 else TotalLocations(items[..|items| - 1]) + |items[|items| - 1].location|
  }

  /** A `Dict[str, int]` entry; the dict is kept as its entries in insertion order. */
  datatype Entry = Entry(name: string, count: int)

  function Names(t: seq<Entry>): (r: seq<string>)
    ensures |r| == |t|
    ensures forall k :: 0 <= k < |t| ==> r[k] == t[k].name
  {
    if t == [] then [] else [t[0].name] + Names(t[1..])
  }

  /** `counts.get(name, 0)`. */
  function Get(t: seq<Entry>, name: string): int {
    if t == [] then 0 else if t[0].name == name then t[0].count else Get(t[1..], name)
  }

  /** `counts[name] = counts.get(name, 0) + 1`: an existing key keeps its place, a new one goes last. */
  function Bump(t: seq<Entry>, name: string): (r: seq<Entry>)
    ensures |r| == |t| || |r| == |t| + 1
  {
    if t == [] then [Entry(name, 1)]
    else if t[0].name == name then [t[0].(count := t[0].count + 1)] + t[1..]
    else [t[0]] + Bump(t[1..], name)
  }

  /** The dict after crediting `credits` in order. */
  function Tally(credits: seq<string>): (r: seq<Entry>)
    ensures |r| <= |credits|
  {
    if credits == [] then [] else Bump(Tally(credits[..|credits| - 1]), credits[|credits| - 1])
  }

  function Sum(t: seq<Entry>): int {
    if t == [] then 0 else t[0].count + Sum(t[1..])
  }

  lemma NamesHead(t: seq<Entry>)
    requires t != [] && Distinct(Names(t))
    ensures Names(t) == [t[0].name] + Names(t[1..])
    ensures Distinct(Names(t[1..])) && t[0].name !in Names(t[1..])
  {
    assert Names(t) == [t[0].name] + Names(t[1..]);
    forall i, j | 0 <= i < j < |Names(t[1..])| ensures Names(t[1..])[i] != Names(t[1..])[j] {
      assert Names(t[1..])[i] == Names(t)[i + 1] && Names(t[1..])[j] == Names(t)[j + 1];
    }
    forall k | 0 <= k < |Names(t[1..])| ensures Names(t[1..])[k] != t[0].name {
      assert Names(t)[k + 1] == Names(t[1..])[k];
    }
  }

  lemma {:induction false} BumpNames(t: seq<Entry>, name: string)
    ensures forall m :: m in Names(Bump(t, name)) <==> m in Names(t) || m == name
  {
    if t != [] {
      assert Names(t) == [t[0].name] + Names(t[1..]);
      if t[0].name != name {
        BumpNames(t[1..], name);
        assert Names(Bump(t, name)) == [t[0].name] + Names(Bump(t[1..], name));
      } else {
        assert Bump(t, name)[1..] == t[1..];
        assert Names(Bump(t, name)) == [name] + Names(t[1..]);
      }
    }
  }

  lemma {:induction false} BumpDistinct(t: seq<Entry>, name: string)
    requires Distinct(Names(t))
    ensures Distinct(Names(Bump(t, name)))
  {
    if t != [] {
      NamesHead(t);
      var r := Bump(t, name);
      if t[0].name != name {
        BumpDistinct(t[1..], name);
        BumpNames(t[1..], name);
        assert Names(r) == [t[0].name] + Names(Bump(t[1..], name));
        forall j | 0 < j < |Names(r)| ensures Names(r)[0] != Names(r)[j] {
          assert Names(r)[j] in Names(Bump(t[1..], name));
        }
      } else {
        assert r[1..] == t[1..];
        assert Names(r) == [name] + Names(t[1..]);
      }
    }
  }

  lemma {:induction false} BumpGet(t: seq<Entry>, name: string)
    requires Distinct(Names(t))
    ensures forall m :: Get(Bump(t, name), m) == Get(t, m) + (if m == name then 1 else 0)
  {
    if t != [] {
      NamesHead(t);
      if t[0].name != name {
        BumpGet(t[1..], name);
      } else {
        GetAbsent(t[1..], name);
        assert Bump(t, name)[1..] == t[1..];
      }
    }
  }

  lemma {:induction false} BumpSum(t: seq<Entry>, name: string)
    ensures Sum(Bump(t, name)) == Sum(t) + 1
    ensures (forall e :: e in t ==> e.count >= 1) ==> forall e :: e in Bump(t, name) ==> e.count >= 1
  {
    if t != [] {
      if t[0].name != name {
        BumpSum(t[1..], name);
        assert forall e :: e in t[1..] ==> e in t;
      } else {
        assert Bump(t, name)[1..] == t[1..];
        assert forall e :: e in t[1..] ==> e in t;
      }
    }
  }

  /** One `counts[name] = counts.get(name, 0) + 1`: that count rises by one, no other changes, keys stay distinct. */
  lemma BumpSpec(t: seq<Entry>, name: string)
    requires Distinct(Names(t))
    ensures Distinct(Names(Bump(t, name)))
    ensures forall m :: Get(Bump(t, name), m) == Get(t, m) + (if m == name then 1 else 0)
    ensures forall m :: m in Names(Bump(t, name)) <==> m in Names(t) || m == name
    ensures Sum(Bump(t, name)) == Sum(t) + 1
    ensures (forall e :: e in t ==> e.count >= 1) ==> forall e :: e in Bump(t, name) ==> e.count >= 1
  {
    BumpDistinct(t, name);
    BumpGet(t, name);
    BumpNames(t, name);
    BumpSum(t, name);
  }

  lemma {:induction false} GetAbsent(t: seq<Entry>, name: string)
    requires name !in Names(t)
    ensures Get(t, name) == 0
  {
    if t != [] {
      assert Names(t) == [t[0].name] + Names(t[1..]);
      GetAbsent(t[1..], name);
    }
  }

  /**
   * The counting dict: one entry per credited country, each counting that
   * country's credits, all at least 1, and together no more than the
   * locations of all items.
   */
  lemma {:induction false} TallySpec(credits: seq<string>)
    ensures Distinct(Names(Tally(credits)))
    ensures forall m :: Get(Tally(credits), m) == multiset(credits)[m]
    ensures forall m :: m in Names(Tally(credits)) <==> m in credits
    ensures forall e :: e in Tally(credits) ==> e.count >= 1
    ensures Sum(Tally(credits)) == |credits|
  {
    if credits != [] {
      var init, last := credits[..|credits| - 1], credits[|credits| - 1];
      TallySpec(init);
      BumpSpec(Tally(init), last);
      assert credits == init + [last];
      assert multiset(credits) == multiset(init) + multiset{last};
    }
  }

  lemma ItemCountriesLast(regions: seq<Region>, contains: Contains, locs: seq<LocationInfo>, k: nat)
    requires k < |locs|
    ensures ItemCountries(regions, contains, locs[..k + 1])
            == ItemCountries(regions, contains, locs[..k]) + OptionToSeq(CountryOf(regions, contains, locs[k]))
  {
    assert locs[..k + 1][..k] == locs[..k];
  }

  function OptionToSeq(o: Option<string>): (r: seq<string>)
    ensures o.None? ==> r == []
    ensures o.Some? ==> r == [o.value]
  {
    if o.None? then [] else [o.value]
  }

  /** `counts` with each of `names` bumped in turn. */
  function BumpAll(counts: seq<Entry>, names: seq<string>): seq<Entry> {
    if names == [] then counts else Bump(BumpAll(counts, names[..|names| - 1]), names[|names| - 1])
  }

  lemma BumpAllLast(counts: seq<Entry>, names: seq<string>, c: string)
    ensures BumpAll(counts, names + [c]) == Bump(BumpAll(counts, names), c)
  {
    assert (names + [c])[..|names|] == names;
  }

  /** Tallying more credits is bumping the earlier tally with them. */
  lemma {:induction false} TallyAppend(a: seq<string>, b: seq<string>)
    ensures Tally(a + b) == BumpAll(Tally(a), b)
    decreases |b|
  {
    if b == [] {
      assert a + b == a;
    } else {
      var init := b[..|b| - 1];
      TallyAppend(a, init);
      assert a + b == (a + init) + [b[|b| - 1]];
      assert (a + b)[..|a + b| - 1] == a + init;
    }
  }

  /** The inner loop of `count_news_by_country`: credit one item's locations to the dict. */
  method CreditLocations(counts: seq<Entry>, locs: seq<LocationInfo>, regions: seq<Region>, contains: Contains)
    returns (counts': seq<Entry>)
    ensures counts' == BumpAll(counts, ItemCountries(regions, contains, locs))
  {
    counts' := counts;
    var k := 0;
    while k < |locs|
      invariant 0 <= k <= |locs|
      invariant counts' == BumpAll(counts, ItemCountries(regions, contains, locs[..k]))
    {
      ItemCountriesLast(regions, contains, locs, k);
      var loc := locs[k];
      var found := FirstContaining(regions, contains, loc.lng, loc.lat);
      if found.Some? {
        var countryName := Label(regions[found.value]);
        assert CountryOf(regions, contains, loc) == Some(countryName);
        BumpAllLast(counts, ItemCountries(regions, contains, locs[..k]), countryName);
        counts' := Bump(counts', countryName);
      } else {
        assert CountryOf(regions, contains, loc) == None;
        assert ItemCountries(regions, contains, locs[..k + 1]) == ItemCountries(regions, contains, locs[..k]);
      }
      k := k + 1;
    }
    assert locs[..k] == locs;
  }

  /** `count_news_by_country`. */
  method CountNewsByCountry(items: seq<NewsItem>, regions: seq<Region>, contains: Contains) returns (counts: seq<Entry>)
    ensures counts == Tally(Credits(regions, contains, items))
  {
    counts := [];
    var i := 0;
    while i < |items|
      invariant 0 <= i <= |items|
      invariant counts == Tally(Credits(regions, contains, items[..i]))
    {
      assert items[..i + 1][..i] == items[..i];
      TallyAppend(Credits(regions, contains, items[..i]), ItemCountries(regions, contains, items[i].location));
      counts := CreditLocations(counts, items[i].location, regions, contains);
      i := i + 1;
    }
    assert items[..i] == items;
  }

  /** What the counting promises about the chart's input, for any items and shapes. */
  lemma CountsMeaning(items: seq<NewsItem>, regions: seq<Region>, contains: Contains)
    ensures var counts := Tally(Credits(regions, contains, items));
            && Distinct(Names(counts))
            && (forall e :: e in counts ==> e.count >= 1)
            && Sum(counts) <= TotalLocations(items)
            && forall m :: Get(counts, m) == multiset(Credits(regions, contains, items))[m]
  {
    TallySpec(Credits(regions, contains, items));
  }

  /** A location matching no row credits nothing; one matching rows credits the first row's label. */
  lemma {:induction false} ItemCountriesSpec(regions: seq<Region>, contains: Contains, locs: seq<LocationInfo>)
    ensures forall c :: c in ItemCountries(regions, contains, locs) ==>
              exists loc :: loc in locs && CountryOf(regions, contains, loc) == Some(c)
    ensures forall loc :: loc in locs && CountryOf(regions, contains, loc).Some? ==>
              CountryOf(regions, contains, loc).value in ItemCountries(regions, contains, locs)
  {
    if locs != [] {
      var init := locs[..|locs| - 1];
      ItemCountriesSpec(regions, contains, init);
      assert locs == init + [locs[|locs| - 1]];
    }
  }

  // ---- generate_echarts_bar_chart ----

  predicate SortedDesc(t: seq<Entry>) {
    forall i, j :: 0 <= i < j < |t| ==> t[i].count >= t[j].count
  }

  /** Place `x` after every entry counting at least as much: later entries follow earlier equal ones. */
  function Insert(t: seq<Entry>, x: Entry): (r: seq<Entry>)
    ensures |r| == |t| + 1
  {
    if t == [] then [x]
    else if t[0].count < x.count then [x] + t
    else [t[0]] + Insert(t[1..], x)
  }

  /** `sorted(counts.items(), key=lambda x: x[1], reverse=True)`: Python's sort is stable under `reverse`. */
  function SortByCount(t: seq<Entry>): (r: seq<Entry>)
    ensures |r| == |t|
  {
    if t == [] then [] else Insert(SortByCount(t[..|t| - 1]), t[|t| - 1])
  }

  /** The entries with count `c`, in order. */
  function WithCount(t: seq<Entry>, c: int): seq<Entry> {
    if t == [] then [] else (if t[0].count == c then [t[0]] else []) + WithCount(t[1..], c)
  }

  lemma SortedTail(t: seq<Entry>)
    requires SortedDesc(t) && t != []
    ensures SortedDesc(t[1..])
    ensures forall e :: e in t ==> e.count <= t[0].count
  {
    forall i, j | 0 <= i < j < |t[1..]| ensures t[1..][i].count >= t[1..][j].count {
      assert t[1..][i] == t[i + 1] && t[1..][j] == t[j + 1];
    }
    forall e | e in t ensures e.count <= t[0].count {
      var k :| 0 <= k < |t| && t[k] == e;
      assert k == 0 || t[0].count >= t[k].count;
    }
  }

  lemma {:induction false} InsertPermutes(t: seq<Entry>, x: Entry)
    ensures multiset(Insert(t, x)) == multiset(t) + multiset{x}
  {
    if t != [] && t[0].count >= x.count {
      InsertPermutes(t[1..], x);
      assert Insert(t, x) == [t[0]] + Insert(t[1..], x);
      assert t == [t[0]] + t[1..];
    }
  }

  /** The new entry outcounts the head: it goes first. */
  lemma InsertFront(t: seq<Entry>, x: Entry)
    requires SortedDesc(t) && t != [] && t[0].count < x.count
    ensures SortedDesc([x] + t)
  {
    SortedTail(t);
    var r := [x] + t;
    forall i, j | 0 <= i < j < |r| ensures r[i].count >= r[j].count {
      if i == 0 {
        assert r[j] == t[j - 1] && t[j - 1] in t;
      } else {
        assert r[i] == t[i - 1] && r[j] == t[j - 1];
      }
    }
  }

  /** The head outcounts every entry of the sorted rest, the new one included: it stays first. */
  lemma KeepHead(h: Entry, rest: seq<Entry>)
    requires SortedDesc(rest) && forall e :: e in rest ==> e.count <= h.count
    ensures SortedDesc([h] + rest)
  {
    var r := [h] + rest;
    forall i, j | 0 <= i < j < |r| ensures r[i].count >= r[j].count {
      if i == 0 {
        assert r[j] == rest[j - 1] && rest[j - 1] in rest;
      } else {
        assert r[i] == rest[i - 1] && r[j] == rest[j - 1];
      }
    }
  }

  lemma {:induction false} InsertSorted(t: seq<Entry>, x: Entry)
    requires SortedDesc(t)
    ensures SortedDesc(Insert(t, x))
  {
    if t == [] {
    } else if t[0].count < x.count {
      InsertFront(t, x);
    } else {
      SortedTail(t);
      var rest := Insert(t[1..], x);
      InsertSorted(t[1..], x);
      InsertPermutes(t[1..], x);
      forall e | e in rest ensures e.count <= t[0].count {
        assert e in multiset(rest);
        assert e == x || e in t[1..];
        assert e in t[1..] ==> e in t;
      }
      KeepHead(t[0], rest);
    }
  }

  lemma {:induction false} InsertStable(t: seq<Entry>, x: Entry, c: int)
    requires SortedDesc(t)
    ensures WithCount(Insert(t, x), c) == WithCount(t, c) + (if x.count == c then [x] else [])
  {
    if t == [] {
      assert Insert(t, x) == [x] && [x][1..] == [];
    } else if t[0].count < x.count {
      var r := [x] + t;
      assert Insert(t, x) == r && r[0] == x && r[1..] == t;
      assert WithCount(r, c) == (if x.count == c then [x] else []) + WithCount(t, c);
      if x.count == c {
        SortedTail(t);
        WithCountNone(t, c);
      }
    } else {
      var rest := Insert(t[1..], x);
      SortedTail(t);
      InsertStable(t[1..], x, c);
      var r := [t[0]] + rest;
      assert Insert(t, x) == r && r[0] == t[0] && r[1..] == rest;
      var head := if t[0].count == c then [t[0]] else [];
      assert WithCount(r, c) == head + WithCount(rest, c);
      assert WithCount(t, c) == head + WithCount(t[1..], c);
    }
  }

  lemma {:induction false} WithCountNone(t: seq<Entry>, c: int)
    requires forall e :: e in t ==> e.count < c
    ensures WithCount(t, c) == []
  {
    if t != [] {
      WithCountNone(t[1..], c);
    }
  }

  lemma {:induction false} WithCountAppend(a: seq<Entry>, b: seq<Entry>, c: int)
    ensures WithCount(a + b, c) == WithCount(a, c) + WithCount(b, c)
  {
    if a != [] {
      WithCountAppend(a[1..], b, c);
      assert (a + b)[1..] == a[1..] + b;
    } else {
      assert a + b == b;
    }
  }

  lemma {:induction false} SortByCountSorted(t: seq<Entry>)
    ensures SortedDesc(SortByCount(t))
  {
    if t != [] {
      SortByCountSorted(t[..|t| - 1]);
      InsertSorted(SortByCount(t[..|t| - 1]), t[|t| - 1]);
    }
  }

  lemma {:induction false} SortByCountPermutes(t: seq<Entry>)
    ensures multiset(SortByCount(t)) == multiset(t)
  {
    if t != [] {
      var init, last := t[..|t| - 1], t[|t| - 1];
      SortByCountPermutes(init);
      InsertPermutes(SortByCount(init), last);
      assert t == init + [last];
    }
  }

  lemma {:induction false} SortByCountStable(t: seq<Entry>, c: int)
    ensures WithCount(SortByCount(t), c) == WithCount(t, c)
  {
    if t != [] {
      var init, last := t[..|t| - 1], t[|t| - 1];
      SortByCountStable(init, c);
      SortByCountSorted(init);
      InsertStable(SortByCount(init), last, c);
      assert t == init + [last];
      WithCountAppend(init, [last], c);
      assert [last][1..] == [];
      assert WithCount([last], c) == (if last.count == c then [last] else []);
    }
  }

  /** The chart's order: counts non-increasing, the same entries, and equal counts in dict insertion order. */
  lemma SortByCountSpec(t: seq<Entry>)
    ensures SortedDesc(SortByCount(t))
    ensures multiset(SortByCount(t)) == multiset(t)
    ensures forall c :: WithCount(SortByCount(t), c) == WithCount(t, c)
  {
    SortByCountSorted(t);
    SortByCountPermutes(t);
    forall c ensures WithCount(SortByCount(t), c) == WithCount(t, c) {
      SortByCountStable(t, c);
    }
  }

  /** The ECharts option: its title, the category axis and the one bar series. */
  datatype Chart = Chart(title: string, xAxis: seq<string>, seriesName: string, values: seq<int>)

  /** `generate_echarts_bar_chart`. */
  function BarChart(counts: seq<Entry>): (chart: Chart)
    ensures |chart.xAxis| == |chart.values| == |counts|
  {
    var sorted := SortByCount(counts);
    Chart("新闻数量按国家分布", seq(|sorted|, k requires 0 <= k < |sorted| => sorted[k].name),
          "新闻数量", seq(|sorted|, k requires 0 <= k < |sorted| => sorted[k].count))
  }

  /** Each bar is an entry of the dict, every entry is one bar, and bars never grow from left to right. */
  lemma BarChartSpec(counts: seq<Entry>)
    ensures var chart := BarChart(counts);
            && (forall k :: 0 <= k < |chart.xAxis| ==> Entry(chart.xAxis[k], chart.values[k]) in counts)
            && (forall e :: e in counts ==> exists k :: 0 <= k < |chart.xAxis| && Entry(chart.xAxis[k], chart.values[k]) == e)
            && (forall i, j :: 0 <= i < j < |chart.values| ==> chart.values[i] >= chart.values[j])
  {
    SortByCountSpec(counts);
    var sorted := SortByCount(counts);
    var chart := BarChart(counts);
    forall k | 0 <= k < |chart.xAxis| ensures Entry(chart.xAxis[k], chart.values[k]) in counts {
      assert Entry(chart.xAxis[k], chart.values[k]) == sorted[k];
      assert sorted[k] in multiset(sorted);
    }
    forall e | e in counts ensures exists k :: 0 <= k < |chart.xAxis| && Entry(chart.xAxis[k], chart.values[k]) == e {
      assert e in multiset(sorted);
      var k :| 0 <= k < |sorted| && sorted[k] == e;
      assert Entry(chart.xAxis[k], chart.values[k]) == e;
    }
  }
}
