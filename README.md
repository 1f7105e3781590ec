# Financial statement dashboard: a Dafny model of its ratio logic

The dashboard is a single Streamlit page. It fetches a company's income
statement, balance sheet and cash-flow statement, derives financial ratios
from the latest period, and annotates and charts them. It can also compare
the same ratios across a list of peer tickers. This project models the parts
of that page that compute values:

- `Ratios` (`ratios.dfy`) models `calculate_ratios`. A statement is a sequence
  of periods, most recent first. Each period maps a line-item name to a
  `real`, and all periods share one set of line items, as the columns of a
  data frame share its row index. The engine reads eleven line items from the
  latest period. A missing numerator item defaults to 0. A missing
  denominator item (revenue, total assets, equity, current liabilities)
  defaults to 1. It then returns the eleven ratios as a `RatioSet`, or `None`
  when the balance sheet or the income statement is empty. Each ratio is
  specified by a relation rather than by its formula: the ratio `q` of `n` over
  `d` satisfies `q * d == n`, or `q == 0` when `d == 0`. The lemmas prove that
  this relation fixes every ratio uniquely.
- `PeerInput` (`peer_input.dfy`) models the peer-ticker comprehension. It
  covers Python's `str.split(",")`, `str.strip()` (with Python's own whitespace
  set) and `str.upper()`, and the filter that drops blank pieces. The lemmas
  prove the round trips between split and join, between parsing and joining
  tickers, and that parsing is idempotent.
- `Interpretation` (`interpretation.dfy`) models the liquidity and leverage
  bands and the 0-100 radar scores.
- `Trends` (`trends.dfy`) models the year-over-year revenue growth list. The
  growth rates and the oldest value rebuild the whole revenue series.
- `PeerComparison` (`peer_comparison.dfy`) models the peer loop and the
  comparison table as methods with loops. The dictionary `peer_ratios` keeps
  insertion order. Storing a ticker that is already present (a repeated peer,
  or a peer equal to the primary ticker) updates its value in place. Fetching
  is a parameter `fetch: string -> FetchResult`. Because the fetcher caches by
  ticker, a ticker fetches to the same result within one run of the page.
- `Wrappers` (`wrappers.dfy`) holds the `Option` type that stands for
  Python's `None`.

A data frame's `.empty` is true when either axis has length 0. So a statement
counts as empty when it has no periods, or when its latest period has no line
items (`Ratios.IsEmpty`), and not only when it has no periods.

## Model

| member | source | states |
|---|---|---|
| `Ratios.IsEmpty` | financial_statement_dashboard.py:104 | `DataFrame.empty`: a statement is empty exactly when no period holds any line item (no periods, or periods without line items) |
| `Ratios.Get` | financial_statement_dashboard.py:112-115 | `Series.get`: a present line item gives its amount, a missing one the given default |
| `Ratios.LatestItems` | financial_statement_dashboard.py:111-143 | each of the eleven line items is the latest period's amount when present; when missing it is 0 for net income, current assets, cash, inventory, total debt, total liabilities and operating income, and 1 for revenue, total assets, total equity and current liabilities |
| `Ratios.Lookup` | financial_statement_dashboard.py:101-146 | looking up a ratio name succeeds exactly for the eleven keys the engine inserts, and each key gives the ratio it names (for example "ROA" gives the return on assets, "Debt to Equity" the debt-to-equity ratio) |
| `Ratios.GuardedRatio` | financial_statement_dashboard.py:127-129 | `n / d if d != 0 else 0` is the quotient of n by d (`q * d == n`), and exactly 0 when d is 0 |
| `Ratios.GuardedPercent` | financial_statement_dashboard.py:117-119 | `n / d * 100 if d != 0 else 0` satisfies `p * d == n * 100`, and is exactly 0 when d is 0 |
| `Ratios.RatiosOf` | financial_statement_dashboard.py:117-144 | the eleven ratios meet their defining relations: NPM = NI/Rev×100, ROA = NI/TA×100, ROE = NI/TE×100, CR = CA/CL, QR = (CA−Inv)/CL, Cash = Cash/CL, D/E = Debt/TE, D/A = Debt/TA, EM = TA/TE, AT = Rev/TA, OM = OI/Rev×100, each 0 over a zero denominator |
| `Ratios.CalculateRatios` | financial_statement_dashboard.py:95-146 | None exactly when the balance sheet or the income statement is empty; otherwise the ratios of the latest periods' line items, with defaults for missing items |
| `Ratios.DerivesUnique` | financial_statement_dashboard.py:117-144 | the ratio relations leave no freedom: two ratio sets that meet them for the same line items are equal |
| `Ratios.RatioKeys` | financial_statement_dashboard.py:101-146 | the result has exactly eleven distinct keys |
| `Ratios.CashFlowIrrelevant` | financial_statement_dashboard.py:99-109 | the cash-flow statement never changes the result, and an empty cash flow alone never gives None |
| `Ratios.MissingEquity` | financial_statement_dashboard.py:115-137 | without an equity item, ROE = NI×100, the equity multiplier = total assets and D/E = total debt |
| `Ratios.MissingRevenue` | financial_statement_dashboard.py:113-144 | without a revenue item, both margins are their numerator ×100 and asset turnover is 1/TA (0 when TA is 0) |
| `Ratios.MissingCurrentLiabilities` | financial_statement_dashboard.py:122-129 | without a current-liabilities item, the three liquidity ratios are their numerators |
| `Ratios.MissingTotalAssets` | financial_statement_dashboard.py:114-140 | without a total-assets item, ROA = NI×100, D/A = total debt and asset turnover = revenue |
| `Ratios.MissingNetIncome` | financial_statement_dashboard.py:112-119 | without a net-income item, NPM, ROA and ROE are 0 |
| `Ratios.ZeroDenominators` | financial_statement_dashboard.py:117-144 | every ratio whose denominator (revenue, total assets, equity or current liabilities) is 0 is exactly 0 |
| `Ratios.QuickAtMostCurrent` | financial_statement_dashboard.py:127-128 | with positive current liabilities, quick ratio ≤ current ratio if and only if inventory ≥ 0 |
| `Ratios.DuPontReturnOnEquity` | financial_statement_dashboard.py:118-137 | with non-zero total assets, ROE = ROA × equity multiplier |
| `Ratios.DuPontReturnOnAssets` | financial_statement_dashboard.py:117-140 | with non-zero revenue and assets, ROA = net profit margin × asset turnover |
| `Ratios.LeverageIdentity` | financial_statement_dashboard.py:135-137 | with non-zero total assets, D/E = D/A × equity multiplier |
| `Ratios.NetMarginExample` | financial_statement_dashboard.py:117 | revenue 1e9 and net income 1e8 give a net profit margin of 10 |
| `Ratios.LiquidityExample` | financial_statement_dashboard.py:127-128 | CA 500, inventory 200, CL 250 give current ratio 2.0 and quick ratio 1.2 |
| `PeerInput.Split` | financial_statement_dashboard.py:63 | `split(",")` gives one piece more than there are commas, and no piece contains a comma |
| `PeerInput.JoinSplit` | financial_statement_dashboard.py:63 | joining the pieces with the separator restores the input |
| `PeerInput.SplitJoin` | financial_statement_dashboard.py:63 | splitting a join of separator-free pieces restores the pieces |
| `PeerInput.SplitAround` | financial_statement_dashboard.py:63 | the pieces of `a,b` are the pieces of `a` followed by those of `b` |
| `PeerInput.SplitSingle` | financial_statement_dashboard.py:63 | text without a comma is a single piece |
| `PeerInput.LeadingSpaces` | financial_statement_dashboard.py:63 | the count of leading whitespace: every character before it is whitespace, and the one at it (if any) is not |
| `PeerInput.TrailingSpaces` | financial_statement_dashboard.py:63 | the count of trailing whitespace: every character in that run is whitespace, and the one before it (if any) is not |
| `PeerInput.Strip` | financial_statement_dashboard.py:63 | `strip()` is the input's slice that starts right after the leading whitespace and is followed only by whitespace; it has no surrounding whitespace; it is empty exactly when the input is all whitespace; it leaves already-stripped text unchanged |
| `PeerInput.UpperChar` | financial_statement_dashboard.py:63 | a lower-case letter becomes the capital at the same alphabet position; no lower-case letter is left; whitespace and commas are kept, and every other character is unchanged |
| `PeerInput.Upper` | financial_statement_dashboard.py:63 | `upper()` keeps the length and upper-cases character by character |
| `PeerInput.Clean` | financial_statement_dashboard.py:63 | one piece of the comprehension gives at most one peer, and none exactly when the piece is all whitespace (the `if p.strip()` filter); a kept peer is the upper-cased stripped piece |
| `PeerInput.CleanShape` | financial_statement_dashboard.py:63 | a comma-free piece is dropped exactly when it is blank, and otherwise gives one ticker |
| `PeerInput.ParsePeers` | financial_statement_dashboard.py:63 | every parsed peer is non-empty, has no surrounding whitespace, no comma and no lower-case letter; there are at most commas + 1 of them |
| `PeerInput.ParsePeersAround` | financial_statement_dashboard.py:63 | peers keep input order: the peers of `a,b` are those of `a` followed by those of `b` |
| `PeerInput.BlankInputNoPeers` | financial_statement_dashboard.py:63 | an all-whitespace input gives no peers |
| `PeerInput.ParsePeersOfJoin` | financial_statement_dashboard.py:63 | parsing comma-joined tickers gives back the same tickers |
| `PeerInput.ParsePeersIdempotent` | financial_statement_dashboard.py:63 | re-parsing the comma-joined peer list gives the same list |
| `PeerInput.ParsePeersExample` | financial_statement_dashboard.py:63 | `" msft, googl"` parses to `["MSFT", "GOOGL"]` |
| `Interpretation.ClassifyLiquidity` | financial_statement_dashboard.py:428-433 | strong iff CR ≥ 1.5, adequate iff 1.0 ≤ CR < 1.5, concern iff CR < 1.0 |
| `Interpretation.ClassifyLeverage` | financial_statement_dashboard.py:442-447 | conservative iff D/E ≤ 1.0, moderate iff 1.0 < D/E ≤ 2.0, high iff D/E > 2.0 |
| `Interpretation.LiquidityMonotone` | financial_statement_dashboard.py:428-433 | a larger current ratio never gets a worse band |
| `Interpretation.LeverageMonotone` | financial_statement_dashboard.py:442-447 | a larger D/E never gets a safer band |
| `Interpretation.CappedScore` | financial_statement_dashboard.py:462-464 | `min(x, cap) / cap * 100` is ≤ 100; it equals 100 iff x ≥ cap; it is ≥ 0 iff x ≥ 0; below the cap it is x as a percentage of the cap |
| `Interpretation.LeverageScore` | financial_statement_dashboard.py:465 | the D/E score is ≥ 0; it is ≤ 100 when D/E ≥ 0; it is 0 iff D/E ≥ 2; up to 2 it is 100 − 50·D/E |
| `Interpretation.NormalizedRatios` | financial_statement_dashboard.py:461-466 | the ROE score is 100 exactly when ROE ≥ 50 and is ROE·100/50 up to it; likewise ROA against 25 and the current ratio against 3; all three are ≤ 100 and ≥ 0 iff their ratio is; the D/E score is 100 − 50·D/E up to D/E = 2 and 0 exactly from 2 on, always ≥ 0 and ≤ 100 when D/E ≥ 0 |
| `Interpretation.CappedScoreMonotone` | financial_statement_dashboard.py:462-464 | a capped score never decreases as its ratio grows |
| `Interpretation.LeverageScoreAntitone` | financial_statement_dashboard.py:465 | the leverage score never increases as D/E grows |
| `Interpretation.StrongLiquidityUpperHalf` | financial_statement_dashboard.py:428-464 | the strong liquidity band holds exactly when the current-ratio score is at least 50 |
| `Interpretation.LeverageBandScore` | financial_statement_dashboard.py:442-465 | conservative leverage holds exactly when the D/E score is at least 50; the high band always scores 0 |
| `Trends.RevenueValues` | financial_statement_dashboard.py:500 | the revenue of the first `periods` periods (fewer if the statement has fewer), in order |
| `Trends.RevenueGrowth` | financial_statement_dashboard.py:501-502 | one rate per value; the last rate is 0; each other rate g satisfies g·v[i+1] = (v[i] − v[i+1])·100 |
| `Trends.RevenueTrend` | financial_statement_dashboard.py:495-502 | a growth list exists exactly when the income statement has at least two periods and a revenue row; its length is min(periods, number of periods), and it is the growth list of the revenue values, so each rate is the change over the next older period in percent and the oldest rate is 0 |
| `Trends.RebuildRevenue` | financial_statement_dashboard.py:501-502 | the growth rates and the oldest revenue rebuild the whole revenue series |
| `Trends.GrowthSign` | financial_statement_dashboard.py:509 | over a positive prior year, growth is positive (a green bar) iff revenue rose |
| `PeerComparison.Put` | financial_statement_dashboard.py:561 | `d[k] = v` keeps the dictionary well formed; it sets k to v and leaves other keys unchanged; a new key goes last and an existing key keeps its place |
| `PeerComparison.Record` | financial_statement_dashboard.py:559-561 | one pass of the peer loop: a failed fetch changes nothing; a successful one stores the peer's own ratios under its ticker and leaves the other entries and the order of earlier keys unchanged |
| `PeerComparison.Gathered` | financial_statement_dashboard.py:554-561 | `peer_ratios` is well formed, has the primary ticker first, and has at most one entry per peer plus the primary one |
| `PeerComparison.GatheredMembers` | financial_statement_dashboard.py:554-561 | the companies are the primary ticker and exactly the peers whose fetch succeeded |
| `PeerComparison.GatheredValues` | financial_statement_dashboard.py:555-561 | every company holds the ratios computed from its own fetched statements |
| `PeerComparison.GatherPeerRatios` | financial_statement_dashboard.py:554-561 | the loop builds exactly `Gathered` of the primary ticker and the peers |
| `PeerComparison.Cells` | financial_statement_dashboard.py:569-573 | a row over the first n companies has at most n cells, and each cell names a company with ratios and holds that company's `Lookup` value of the row's ratio, which is the ratio the row is named after |
| `PeerComparison.CellOf` | financial_statement_dashboard.py:571-573 | one company's cell: none when its ratios are None, otherwise exactly one cell naming it with its `Lookup` value of the row's ratio |
| `PeerComparison.Listed` | financial_statement_dashboard.py:571-573 | the companies with ratios among the first n, with strictly increasing positions in the dictionary order (so in that order and none twice) |
| `PeerComparison.CellsOfListed` | financial_statement_dashboard.py:569-574 | the companies of every row are exactly `Listed`: the ones with ratios, in dictionary order, none twice |
| `PeerComparison.ListedMembers` | financial_statement_dashboard.py:571-573 | a company is listed exactly when it is in the dictionary with ratios, so a company without ratios is skipped in every row |
| `PeerComparison.BuildComparisonTable` | financial_statement_dashboard.py:565-574 | one row per key ratio in the fixed order (NPM, ROE, ROA, CR, D/E), each row being `Cells` over all companies, whose companies `CellsOfListed` shows are the listed ones in dictionary order |
| `PeerComparison.BuildRow` | financial_statement_dashboard.py:569-573 | the loop over the dictionary builds exactly `Cells` over all companies |
| `PeerComparison.ComparePeers` | financial_statement_dashboard.py:550-574 | a table is produced exactly when some peer other than the primary ticker fetched successfully, and then it is the table of `Gathered` |
| `PeerComparison.RoeBarsAsWritten` | financial_statement_dashboard.py:585-586 | the chart's names are every company, while its values are the ROEs of the companies with ratios only, the i-th value being the i-th such company's ROE |
| `PeerComparison.RoeValuesOf` | financial_statement_dashboard.py:586 | the i-th value is the ROE of the i-th company of `Listed`, that is, one value per company with ratios, in dictionary order |
| `PeerComparison.RoeBarsMisaligned` | financial_statement_dashboard.py:554-592 | for any primary company with ratios, then a fetched peer with an empty balance sheet, then a peer with ratios, the peer loop gives three names but two values, so the empty peer's bar carries the later peer's ROE |
| `PeerComparison.RoeBarsMisalignedExample` | financial_statement_dashboard.py:554-592 | AAPL with ROE 5, NONE with empty statements and MSFT with ROE 7 give names `[AAPL, NONE, MSFT]` and values `[5, 7]` |
| `PeerComparison.RoeBars` | financial_statement_dashboard.py:585-592 | corrected pairing: the bars' companies are `Listed` (those with ratios, in dictionary order), no company has two bars, and each bar carries that company's own ROE |

## Left out

- Page setup, sidebar widgets, CSS, tabs, metrics, the statement excerpt
  tables, the margin, balance-sheet, cash-flow and net-income charts, and the
  footer: these are rendering only.
- `fetch_financial_data` and its one-hour cache: network access through the
  data provider. It is a parameter of the peer loop. The model assumes a
  ticker fetches to the same result throughout one run of the page. Cache
  expiry in the middle of a run is not modelled. The company metadata record
  (name, sector, market cap, price) is not modelled.
- The primary ticker's `.upper()` at line 54: the primary ticker is an input to
  `PeerComparison.ComparePeers`.
- Floating point and NaN: amounts are `real`. A present line item is assumed
  never to be NaN. So no division can fail, and the exception handler of
  `calculate_ratios` (lines 147-149) cannot be reached in the model.
- `Trends.RevenueGrowth`: requires every growth denominator to be non-zero.
  With numpy floats, a zero prior-year revenue gives an infinite or NaN rate
  rather than an error, and that case is not modelled.
- `Trends.RevenueTrend`: has the same requirement for the revenue values it
  computes growth over, for the same reason.
- `PeerInput.Upper`: upper-cases the ASCII letters a-z only. Python's
  `str.upper()` also maps letters of other scripts and can lengthen text
  (`ß` becomes `SS`).
- `PeerInput.UpperChar`: same restriction as `PeerInput.Upper`.
- The `.2f` and `$…B` number formatting, and the building of data frames from
  the table rows: decimal rendering and library mechanics. A table row is the
  ratio name with a list of (company, value) cells.
- The total-liabilities line item is read (line 133). It is
  kept in `Ratios.LineItems`, feeds no ratio, and appears in no contract other
  than that of `Ratios.LatestItems`.

## Findings

| source | as written | input that shows it | evidently intended | confidence | as-written member | corrected member |
|---|---|---|---|---|---|---|
| financial_statement_dashboard.py:585-592 | the ROE chart takes every company in `peer_ratios` as its names, but only the companies whose ratios are not None as its values, so names and values are paired by position across lists of different lengths | primary company AAPL with ROE 5, then peer NONE whose statements are empty (ratios None), then peer MSFT with ROE 7: the names are `[AAPL, NONE, MSFT]` and the values `[5, 7]`, so NONE is drawn with MSFT's ROE | one bar per company with ratios, carrying its own ROE, which is the ROE row of the comparison table | not executed; high | `PeerComparison.RoeBarsAsWritten` (shown by `PeerComparison.RoeBarsMisaligned` and `PeerComparison.RoeBarsMisalignedExample`) | `PeerComparison.RoeBars` |
