/**
 * The peer-comparison tab: the ratios of the primary company and of every
 * peer whose fetch succeeded are collected in an insertion-ordered dictionary,
 * and a table with one row per key ratio lists, for each company that has
 * ratios, its value.
 *
 * Fetching is a parameter: `fetch(t)` is what the data fetcher returns for
 * ticker `t`. The fetcher caches by ticker, so within one page run a ticker
 * always fetches to the same result.
 */
module PeerComparison {
  import opened Wrappers
  import opened Ratios

  datatype FetchResult = Fetched(data: StatementSet) | FetchFailed(error: string)

  /** The ratio dictionary of the tab: ticker to ratios (None when they could not be computed), in insertion order. */
  datatype CompanyRatios = CompanyRatios(order: seq<string>, ratios: map<string, Option<RatioSet>>)

  predicate Distinct(s: seq<string>) {
    forall i, j | 0 <= i < j < |s| :: s[i] != s[j]
  }

  /** The position of x in s: its first occurrence. */
  function IndexOf(s: seq<string>, x: string): (k: nat)
    requires x in s
    ensures k < |s| && s[k] == x && forall j | 0 <= j < k :: s[j] != x
  {
    if s[0] == x then 0 else 1 + IndexOf(s[1..], x)
  }

  /** In a sequence without repeats, the element at k is found at k. */
  lemma IndexOfDistinct(s: seq<string>, k: nat)
    requires Distinct(s) && k < |s|
    ensures IndexOf(s, s[k]) == k
  {
  }

  /** The order lists every key exactly once. */
  predicate Valid(d: CompanyRatios) {
    && Distinct(d.order)
    && (forall k | k in d.ratios :: k in d.order)
    && (forall k | k in d.order :: k in d.ratios)
  }

  const NoCompanies: CompanyRatios := CompanyRatios([], map[])

  /**
   * `d[k] = v`: the value of k becomes v; a new key goes last, an existing
   * key keeps its place.
   */
  function Put(d: CompanyRatios, k: string, v: Option<RatioSet>): (e: CompanyRatios)
    ensures Valid(d) ==> Valid(e)
    ensures e.ratios.Keys == d.ratios.Keys + {k}
    ensures e.ratios[k] == v && forall k' | k' in d.ratios && k' != k :: e.ratios[k'] == d.ratios[k']
    ensures |d.order| <= |e.order| <= |d.order| + 1 && e.order[..|d.order|] == d.order
    ensures Valid(d) ==> (|e.order| == |d.order| + 1 <==> k !in d.ratios)
  {
    CompanyRatios(if k in d.ratios then d.order else d.order + [k], d.ratios[k := v])
  }

  /**
   * One pass of the peer loop: a peer whose fetch succeeded gets its ratios
   * stored; a failed fetch leaves the dictionary as it was.
   */
  function Record(d: CompanyRatios, peer: string, fetch: string -> FetchResult): (e: CompanyRatios)
    ensures Valid(d) ==> Valid(e)
    ensures !fetch(peer).Fetched? ==> e == d
    ensures fetch(peer).Fetched? ==>
              && e.ratios.Keys == d.ratios.Keys + {peer}
              && e.ratios[peer] == CalculateRatios(fetch(peer).data)
    ensures forall k | k in d.ratios && k != peer :: e.ratios[k] == d.ratios[k]
    ensures |d.order| <= |e.order| && e.order[..|d.order|] == d.order
  {
    if fetch(peer).Fetched? then Put(d, peer, CalculateRatios(fetch(peer).data)) else d
  }

  /**
   * The ratio dictionary after the primary company and the given peers: the primary
   * company stays first, and there is at most one entry per peer.
   */
  function Gathered(primary: string, peers: seq<string>, fetch: string -> FetchResult): (d: CompanyRatios)
    requires fetch(primary).Fetched?
    ensures Valid(d) && 1 <= |d.order| <= |peers| + 1 && d.order[0] == primary
  {
    if peers == [] then Put(NoCompanies, primary, CalculateRatios(fetch(primary).data))
    else Record(Gathered(primary, peers[..|peers| - 1], fetch), peers[|peers| - 1], fetch)
  }

  /** The companies are the primary one and exactly the peers whose fetch succeeded. */
  lemma {:induction false} GatheredMembers(primary: string, peers: seq<string>, fetch: string -> FetchResult)
    requires fetch(primary).Fetched?
    ensures forall k :: k in Gathered(primary, peers, fetch).ratios <==> k == primary || (k in peers && fetch(k).Fetched?)
  {
    if peers != [] {
      var init := peers[..|peers| - 1];
      GatheredMembers(primary, init, fetch);
      assert peers == init + [peers[|peers| - 1]];
    }
  }

  /** Every company holds the ratios of its own statements. */
  lemma {:induction false} GatheredValues(primary: string, peers: seq<string>, fetch: string -> FetchResult)
    requires fetch(primary).Fetched?
    ensures var d := Gathered(primary, peers, fetch);
            forall k | k in d.ratios :: fetch(k).Fetched? && d.ratios[k] == CalculateRatios(fetch(k).data)
  {
    if peers != [] {
      GatheredValues(primary, peers[..|peers| - 1], fetch);
    }
  }

  /** The peer loop: the primary company's ratios, then each peer's in turn. */
  method GatherPeerRatios(primary: string, peers: seq<string>, fetch: string -> FetchResult)
    returns (d: CompanyRatios)
    requires fetch(primary).Fetched?
    ensures d == Gathered(primary, peers, fetch)
  {
    d := NoCompanies;
    d := Put(d, primary, CalculateRatios(fetch(primary).data));
    for i := 0 to |peers|
      invariant d == Gathered(primary, peers[..i], fetch)
    {
      assert peers[..i + 1][..i] == peers[..i];
      var peerData := fetch(peers[i]);
      if peerData.Fetched? {
        d := Put(d, peers[i], CalculateRatios(peerData.data));
      }
    }
    assert peers[..|peers|] == peers;
  }

  // ---------------------------------------------------------------------------
  // The comparison table

  /** The rows of the comparison table, in this order. */
  const KeyRatios: seq<string> := ["Net Profit Margin", "ROE", "ROA", "Current Ratio", "Debt to Equity"]

  datatype Row = Row(ratio: string, cells: seq<(string, real)>)

  /**
   * The cells of one row over the first n companies: those with ratios, in
   * dictionary order, each holding that company's value of the ratio.
   */
  function Cells(d: CompanyRatios, name: string, n: nat): (cells: seq<(string, real)>)
    requires Valid(d) && n <= |d.order| && name in RatioNames
    ensures |cells| <= n
    ensures forall i | 0 <= i < |cells| ::
              var (c, v) := cells[i];
              c in d.ratios && d.ratios[c].Some? && Lookup(d.ratios[c].value, name) == Some(v)
  {
    if n == 0 then [] else Cells(d, name, n - 1) + CellOf(d, name, d.order[n - 1])
  }

  /** The cell of company c in a row: its value of the ratio, or none when it has no ratios. */
  function CellOf(d: CompanyRatios, name: string, c: string): (cell: seq<(string, real)>)
    requires c in d.ratios && name in RatioNames
    ensures Firsts(cell) == if d.ratios[c].Some? then [c] else []
    ensures forall i | 0 <= i < |cell| ::
              cell[i].0 == c && d.ratios[c].Some? && Lookup(d.ratios[c].value, name) == Some(cell[i].1)
  {
    match d.ratios[c]
    case Some(r) => [(c, Lookup(r, name).value)]
    case None => []
  }

  /**
   * The companies among the first n that have ratios, in dictionary order: their
   * positions in the order are below n and strictly increasing, so none repeats.
   */
  function Listed(d: CompanyRatios, n: nat): (listed: seq<string>)
    requires Valid(d) && n <= |d.order|
    ensures |listed| <= n
    ensures forall i | 0 <= i < |listed| ::
              && listed[i] in d.ratios && d.ratios[listed[i]].Some?
              && listed[i] in d.order && IndexOf(d.order, listed[i]) < n
    ensures forall i, j | 0 <= i < j < |listed| :: IndexOf(d.order, listed[i]) < IndexOf(d.order, listed[j])
  {
    if n == 0 then []
    else
      var c := d.order[n - 1];
      IndexOfDistinct(d.order, n - 1);
      Listed(d, n - 1) + if d.ratios[c].Some? then [c] else []
  }

  function Firsts(cells: seq<(string, real)>): (s: seq<string>)
    ensures |s| == |cells| && forall i | 0 <= i < |cells| :: s[i] == cells[i].0
  {
    seq(|cells|, i requires 0 <= i < |cells| => cells[i].0)
  }

  /**
   * Every row names the same companies, the listed ones: a company without
   * ratios is skipped in every row, and each cell holds the company's own value.
   */
  lemma {:induction false} CellsOfListed(d: CompanyRatios, name: string, n: nat)
    requires Valid(d) && n <= |d.order| && name in RatioNames
    ensures Firsts(Cells(d, name, n)) == Listed(d, n)
  {
    if n > 0 {
      CellsOfListed(d, name, n - 1);
      CellsOfListedStep(d, name, n);
    }
  }

  lemma CellsOfListedStep(d: CompanyRatios, name: string, n: nat)
    requires Valid(d) && 0 < n <= |d.order| && name in RatioNames
    requires Firsts(Cells(d, name, n - 1)) == Listed(d, n - 1)
    ensures Firsts(Cells(d, name, n)) == Listed(d, n)
  {
    FirstsAppend(Cells(d, name, n - 1), CellOf(d, name, d.order[n - 1]));
  }

  lemma FirstsAppend(a: seq<(string, real)>, b: seq<(string, real)>)
    ensures Firsts(a + b) == Firsts(a) + Firsts(b)
  {
  }

  /** A company is listed exactly when it is in the dictionary with ratios. */
  lemma {:induction false} ListedMembers(d: CompanyRatios, n: nat)
    requires Valid(d) && n <= |d.order|
    ensures forall c :: c in Listed(d, n) <==> c in d.order[..n] && d.ratios[c].Some?
  {
    if n > 0 {
      ListedMembers(d, n - 1);
      assert d.order[..n] == d.order[..n - 1] + [d.order[n - 1]];
    }
  }

  /** The comparison table: one row per key ratio, each over the companies in dictionary order. */
  method BuildComparisonTable(d: CompanyRatios) returns (table: seq<Row>)
    requires Valid(d)
    ensures |table| == |KeyRatios|
    ensures forall i | 0 <= i < |table| :: table[i] == Row(KeyRatios[i], Cells(d, KeyRatios[i], |d.order|))
  {
    table := [];
    for i := 0 to |KeyRatios|
      invariant |table| == i
      invariant forall j | 0 <= j < i :: table[j] == Row(KeyRatios[j], Cells(d, KeyRatios[j], |d.order|))
    {
      var name := KeyRatios[i];
      var cells := BuildRow(d, name);
      table := table + [Row(name, cells)];
    }
  }

  /** One row of the table: each company with ratios, in dictionary order, with its value of the ratio. */
  method BuildRow(d: CompanyRatios, name: string) returns (cells: seq<(string, real)>)
    requires Valid(d) && name in RatioNames
    ensures cells == Cells(d, name, |d.order|)
  {
    cells := [];
    for k := 0 to |d.order|
      invariant cells == Cells(d, name, k)
    {
      var company := d.order[k];
      assert Cells(d, name, k + 1) == cells + CellOf(d, name, company);
      match d.ratios[company]
      case Some(r) =>
        assert CellOf(d, name, company) == [(company, Lookup(r, name).value)];
        cells := cells + [(company, Lookup(r, name).value)];
      case None =>
        assert CellOf(d, name, company) == [];
    }
  }

  /** The comparison table, shown when a peer was given and some other company fetched. */
  method ComparePeers(primary: string, peers: seq<string>, fetch: string -> FetchResult)
    returns (table: Option<seq<Row>>)
    requires fetch(primary).Fetched?
    ensures table.Some? <==> exists p | p in peers :: p != primary && fetch(p).Fetched?
    ensures table.Some? ==>
              var d := Gathered(primary, peers, fetch);
              |table.value| == |KeyRatios|
              && forall i | 0 <= i < |KeyRatios| ::
                   table.value[i] == Row(KeyRatios[i], Cells(d, KeyRatios[i], |d.order|))
  {
    table := None;
    if peers != [] {
      var d := GatherPeerRatios(primary, peers, fetch);
      GatheredMembers(primary, peers, fetch);
      if |d.order| > 1 {
        assert d.order[1] in peers && d.order[1] != primary && fetch(d.order[1]).Fetched?;
        var rows := BuildComparisonTable(d);
        table := Some(rows);
      } else {
        assert forall k | k in d.order :: k == primary;
      }
    }
  }

  // ---------------------------------------------------------------------------
  // The ROE chart

  /** A one-period statement holding a single line item. */
  function OneItem(name: string, amount: real): Statement {
    [map[name := amount]]
  }

  /**
   * As written: the bars' names are every company, but their values only those
   * of companies with ratios, paired by position.
   */
  function RoeBarsAsWritten(d: CompanyRatios): (bars: (seq<string>, seq<real>))
    requires Valid(d)
    ensures bars.0 == d.order && |bars.1| == |Listed(d, |d.order|)|
    ensures forall i | 0 <= i < |bars.1| ::
              bars.1[i] == d.ratios[Listed(d, |d.order|)[i]].value.roe
  {
    (d.order, RoeValuesOf(d, |d.order|))
  }

  /** The ROE of each company with ratios among the first n, in dictionary order. */
  function RoeValuesOf(d: CompanyRatios, n: nat): (v: seq<real>)
    requires Valid(d) && n <= |d.order|
    ensures |v| == |Listed(d, n)|
    ensures forall i | 0 <= i < |v| :: v[i] == d.ratios[Listed(d, n)[i]].value.roe
  {
    if n == 0 then []
    else RoeValuesOf(d, n - 1) + match d.ratios[d.order[n - 1]]
                                 case Some(r) => [r.roe]
                                 case None => []
  }

  /**
   * With a peer whose statements are empty fetched between two companies with
   * ratios, the chart has three names but two values: the empty peer's bar
   * carries the later company's ROE, and the later company has no value.
   */
  lemma RoeBarsMisaligned(primary: string, empty: string, other: string, fetch: string -> FetchResult)
    requires primary != empty && primary != other && empty != other
    requires fetch(primary).Fetched? && CalculateRatios(fetch(primary).data).Some?
    requires fetch(empty).Fetched? && IsEmpty(fetch(empty).data.balanceSheet)
    requires fetch(other).Fetched? && CalculateRatios(fetch(other).data).Some?
    ensures var d := Gathered(primary, [empty, other], fetch);
            && d.order == [primary, empty, other] && d.ratios[empty].None?
            && RoeBarsAsWritten(d)
               == ([primary, empty, other],
                   [CalculateRatios(fetch(primary).data).value.roe, CalculateRatios(fetch(other).data).value.roe])
  {
    GatheredThree(primary, empty, other, fetch);
    RoeValuesOfThree(Gathered(primary, [empty, other], fetch), CalculateRatios(fetch(primary).data).value,
                     CalculateRatios(fetch(other).data).value);
  }

  /** Over three companies, the middle one without ratios, the values are the outer two companies' ROE. */
  lemma RoeValuesOfThree(d: CompanyRatios, r1: RatioSet, r3: RatioSet)
    requires Valid(d) && |d.order| == 3
    requires d.ratios[d.order[0]] == Some(r1) && d.ratios[d.order[1]] == None && d.ratios[d.order[2]] == Some(r3)
    ensures RoeValuesOf(d, 3) == [r1.roe, r3.roe]
  {
    assert RoeValuesOf(d, 1) == [r1.roe];
    assert RoeValuesOf(d, 2) == [r1.roe];
  }

  /** The peer loop over a primary company and two peers that all fetch, the first with empty statements. */
  lemma GatheredThree(primary: string, empty: string, other: string, fetch: string -> FetchResult)
    requires primary != empty && primary != other && empty != other
    requires fetch(primary).Fetched?
    requires fetch(empty).Fetched? && IsEmpty(fetch(empty).data.balanceSheet)
    requires fetch(other).Fetched?
    ensures var d := Gathered(primary, [empty, other], fetch);
            && d.order == [primary, empty, other]
            && d.ratios[primary] == CalculateRatios(fetch(primary).data)
            && d.ratios[empty] == None
            && d.ratios[other] == CalculateRatios(fetch(other).data)
  {
    GatheredTwo(primary, empty, fetch);
    var d := Gathered(primary, [empty], fetch);
    assert [empty, other][..1] == [empty];
    assert other !in d.ratios;
    assert Gathered(primary, [empty, other], fetch) == Put(d, other, CalculateRatios(fetch(other).data));
  }

  /** The peer loop over a primary company and one peer with empty statements. */
  lemma GatheredTwo(primary: string, empty: string, fetch: string -> FetchResult)
    requires primary != empty
    requires fetch(primary).Fetched?
    requires fetch(empty).Fetched? && IsEmpty(fetch(empty).data.balanceSheet)
    ensures var d := Gathered(primary, [empty], fetch);
            && d.order == [primary, empty]
            && d.ratios[primary] == CalculateRatios(fetch(primary).data)
            && d.ratios[empty] == None
  {
    assert [empty][..0] == [];
  }

  /** For instance: AAPL with ROE 5, then NONE with empty statements, then MSFT with ROE 7. */
  lemma RoeBarsMisalignedExample(fetch: string -> FetchResult)
    requires fetch("AAPL") == Fetched(StatementSet(OneItem(NetIncomeItem, 0.05), OneItem(TotalEquityItem, 1.0), []))
    requires fetch("NONE") == Fetched(StatementSet([], [], []))
    requires fetch("MSFT") == Fetched(StatementSet(OneItem(NetIncomeItem, 0.07), OneItem(TotalEquityItem, 1.0), []))
    ensures RoeBarsAsWritten(Gathered("AAPL", ["NONE", "MSFT"], fetch)) == (["AAPL", "NONE", "MSFT"], [5.0, 7.0])
  {
    RoeBarsMisaligned("AAPL", "NONE", "MSFT", fetch);
  }

  /** Corrected: one bar per company with ratios, carrying that company's own ROE. */
  function RoeBars(d: CompanyRatios): (bars: seq<(string, real)>)
    requires Valid(d)
    ensures Firsts(bars) == Listed(d, |d.order|)
    ensures forall i | 0 <= i < |bars| ::
              bars[i].0 in d.ratios && d.ratios[bars[i].0].Some? && bars[i].1 == d.ratios[bars[i].0].value.roe
    ensures forall i, j | 0 <= i < j < |bars| :: bars[i].0 != bars[j].0
  {
    CellsOfListed(d, "ROE", |d.order|);
    Cells(d, "ROE", |d.order|)
  }
}
