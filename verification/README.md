# Pipefy card ingestion, filtering and aggregation — a Dafny model

This project models the part of the support-dashboard backend that reads the cards of a Pipefy
pipe and turns them into counts. It covers the following pieces:

- **`PipefyService.fetch_all_cards`.** Cursor pagination over the GraphQL `cards` connection,
  then an optional field filter.
- **`PipefyService.filter_cards`.** Keeps the cards that have every requested field
  name/value pair.
- **`PipefyService.get_monthly_data`.** Selects the cards created in a `"YYYY-MM"` month that
  belong to the "Componente -> Suporte a Sistemas" category ("Meu RH" or "TOTVS Datasul"). It
  then counts them per category value and per phase, and lists the titles of the concluded ones.
  Finally it builds the two chart descriptions.
- **The `/cards` handler (`get_pipefy_cards`).** Keeps the open support cards of the category.
  It counts them per category value and in four fixed phase buckets.
- **The `/cards_by_month` handler (`get_pipefy_cards_by_month`).** Selects the cards by month
  number. It counts them per category value, for all of them (`totals`) and for the concluded
  ones (`completed`).

The service method and the two handlers each contain the same pagination loop:
`app/services/pipefy_service.py:43-61`, `app/routes.py:62-80` and `app/routes.py:162-180`.
`PagedFetcher.FetchPages` models all three. The `== True` test of the dashboard loop is the same
test on a boolean `hasNextPage`.

## Modules

| file | module | contents |
|---|---|---|
| `wrappers.dfy` | `Wrappers` | `Option`, `Result` |
| `seqs.dfy` | `Seqs` | order-preserving `Filter`, `SubsequenceOf`, `Distinct` |
| `cards.dfy` | `Cards` | `Card`, `Field`, the pipe's `Config` (`Pipefy`), the field matchers and counters |
| `tallies.dfy` | `Tallies` | a Python dict of counts as an insertion-ordered association list (`Get` is `d.get(k, 0)`, `Bump` is `d[k] = d.get(k, 0) + 1`) |
| `months.dfy` | `Months` | `strftime("%Y-%m")` of a parsed (year, month); Python's `int()` on decimal strings |
| `fetcher.dfy` | `PagedFetcher` | the pagination loop against an abstract endpoint |
| `aggregates.dfy` | `Aggregates` | the category counting loop, the phase histogram, titles, the cards in one phase |
| `pipefy_service.dfy` | `PipefyService` | `filter_cards`, `fetch_all_cards`, `get_monthly_data` |
| `routes.dfy` | `Routes` | `get_pipefy_cards`, `get_pipefy_cards_by_month` |

The GraphQL endpoint is the parameter `api: Api`, a total function from (pipe id, cursor) to a
page or a `FetchError`. A `FetchError` stands for any exception a request can raise:

- `TransportError`: the transport raised, or `response.json()` raised on a body that is not JSON;
- `HttpError`: `raise_for_status` rejected the status;
- `MalformedEnvelope`: the body lacked `data`, `data.cards`, `edges`, `pageInfo`,
  `hasNextPage` or `endCursor`, or `data` was `null`.

The source loops for as long as the endpoint answers `hasNextPage = true`. The model asks
instead for a ghost bound `EndsWithin(api, pipeId, None, bound)`, and `Collect` is the
specification of the loop. `datetime.strptime(s, "%Y-%m-%dT%H:%M:%S%z")` is the parameter
`parse: TimestampParser`, a partial function to a valid (year, month). The `strftime("%Y-%m")`
re-formatting and `int(month)` are modelled concretely.

## Model

| member | source | states |
|---|---|---|
| PagedFetcher.FetchPages | app/services/pipefy_service.py:43-61 | the loop returns exactly `Collect`: the edges of every page in request order, up to the first page without a next page, or the first request failure with no partial list; its recorded requests are `Exchanges`: the first uses `after = null`, each later one uses the previous page's `endCursor` and is made only after `hasNextPage`, there are at most `bound` of them, the last one failed or had no next page, and the result is that failure or the concatenation of all edges |
| PagedFetcher.ProtocolFrom | app/services/pipefy_service.py:47-61 | request by request, from any cursor: the first request uses that cursor, each later one uses the previous page's `endCursor` and is made only after `hasNextPage`, the run stops at a failure or at `hasNextPage = false`, and the result is that failure or the concatenation of every page's edges |
| PagedFetcher.ExchangesStep | app/services/pipefy_service.py:48-61 | one request of the run is followed by the rest of the run from the `endCursor` it received, if and only if its page has a next page |
| PagedFetcher.CollectBoundIrrelevant | app/services/pipefy_service.py:47 | the fetched result does not depend on which termination bound was used |
| PipefyService.FilterCards | app/services/pipefy_service.py:67-90 | the nested loop with early `break` returns exactly the cards that carry every criterion's (name, value) field, in input order |
| PipefyService.KeptMeaning | app/services/pipefy_service.py:67-90 | a card is kept iff it is an input card satisfying every criterion; the output is a subsequence of the input; no criteria keeps every card |
| PipefyService.FetchAllCards | app/services/pipefy_service.py:12-65 | a fetch failure propagates unchanged; otherwise the result is the fetched cards filtered by the criteria, and no criteria returns them untouched |
| PipefyService.SelectMonthCards | app/services/pipefy_service.py:105-128 | the loop with its `continue`s returns exactly the cards with a non-empty, parsable `created_at` whose `"%Y-%m"` form equals `month` and that carry an allowed category value, in input order |
| PipefyService.CardMonth | app/services/pipefy_service.py:108-117 | a card has a month exactly when its `created_at` is present, non-empty and accepted by `strptime`; the month is then `strftime("%Y-%m")` of the parsed (year, month), a seven-character `"YYYY-MM"` string |
| PipefyService.MonthlySelection | app/services/pipefy_service.py:105-128 | a card is in the report iff it is an input card of that month and category; the report's cards are a subsequence of the input; `total_cards` is their number |
| PipefyService.SelectionByYearMonth | app/services/pipefy_service.py:114-119 | a card is of month `"YYYY-MM"` iff its non-empty `created_at` parses to exactly that (year, month) |
| PipefyService.SkipNotAbort | app/services/pipefy_service.py:108-117 | a card whose `created_at` is absent, empty or unparsable is skipped: removing it leaves the whole report unchanged |
| PipefyService.SelectMonthAppend | app/services/pipefy_service.py:107-128 | selection distributes over concatenation of the fetched cards |
| PipefyService.EmptyMonth | app/services/pipefy_service.py:119-120 | when no card is of `month` the report is empty: zero total, zero counts for both categories, no phases, no titles, no cards |
| PipefyService.MalformedMonthSelectsNothing | app/services/pipefy_service.py:99-120 | a `month` argument that is not seven characters long selects nothing and gives that empty report |
| PipefyService.SummarizeMonth | app/services/pipefy_service.py:130-153 | the counting loop yields the category counts `CountsFor`, the phase histogram in first-seen order, and the titles of the concluded cards of the category, in order |
| PipefyService.CategoryRecheckRedundant | app/services/pipefy_service.py:143-147 | on selected cards, which all match the category already, the category re-check for concluded titles keeps exactly the cards in the terminal phase |
| PipefyService.ConcludedStep | app/services/pipefy_service.py:143-148 | one more selected card appends its title to the concluded titles iff it is concluded and in the category |
| PipefyService.MonthlyCounts | app/services/pipefy_service.py:130-153 | `counts` has exactly the configured keys, each counting the matching fields of the selected cards; as one card may carry several values, the counts add up to at least `total_cards`; `phases_count[p]` counts the selected cards in phase `p`, has a key iff some selected card is in that phase, and adds up to `total_cards` |
| PipefyService.ConcludedTitlesMeaning | app/services/pipefy_service.py:143-148 | the concluded titles are, in order, the titles of the cards in the terminal phase, and as many as the phase histogram counts for that phase |
| PipefyService.MonthlyConcluded | app/services/pipefy_service.py:143-148 | the report's `concluded_titles` are the titles of its concluded cards, in selection order, and their number is the `phases_count` entry of the terminal phase ("Concluído" for the pipe) |
| PipefyService.TitleMembers | app/services/pipefy_service.py:148 | a title is listed iff some card has it |
| PipefyService.TitlesOfSubsequence | app/services/pipefy_service.py:148 | titles of a subsequence of cards are a subsequence of their titles |
| PipefyService.ChartOf | app/services/pipefy_service.py:156-173 | a chart's labels are `list(d.keys())` and its values `list(d.values())`, both in dict order, so each value is the count of the label at the same position and the colours are assigned to keys in that order; the colours are as given |
| PipefyService.MonthlyCharts | app/services/pipefy_service.py:156-173 | two charts: category counts with two colours and phase counts with five colours; labels are `list(d.keys())` and values agree with them position by position |
| PipefyService.GetMonthlyData | app/services/pipefy_service.py:92-181 | a fetch failure propagates; otherwise the report is `MonthlyReportOf` the fetched cards, both dicts are well formed and the charts are `MonthlyCharts` of them |
| PipefyService.PipefyMonthlyReport | app/services/pipefy_service.py:102-153 | with the pipe's constants the category keys are "Meu RH" and "TOTVS Datasul" in that order, the counts add up to at least `total_cards` (which the phase counts add up to), and there are as many concluded titles as `phases_count["Concluído"]` |
| PipefyService.SingleCardSummary | app/services/pipefy_service.py:136-153 | one card with one field counts once under its value and once under its phase, and its title is concluded iff it is in the terminal phase |
| PipefyService.MarchExample | app/services/pipefy_service.py:105-181 | of two cards of March and April 2024, only the March one makes up the `"2024-03"` report |
| PipefyService.FanOutCounts | app/services/pipefy_service.py:151-153 | one card carrying both category values counts once under each, so the counts add up to 2 |
| PipefyService.FanOutExample | app/services/pipefy_service.py:105-153 | that card, created in March 2024, makes a `"2024-03"` report of one card whose category counts add up to 2 |
| Cards.HasFieldIffCounted | app/services/pipefy_service.py:79-82 | the `any(...)` field test holds iff the (name, value) field occurs at least once |
| Cards.HasField | app/services/pipefy_service.py:79-82 | the `any(...)` criterion test holds iff the field list contains exactly that (name, value) field |
| Cards.MatchesCategory | app/services/pipefy_service.py:123-127 | the category test holds iff for some allowed value the card carries the category field with exactly that value (the same test at app/routes.py:85-89 and app/services/pipefy_service.py:143-147) |
| Cards.MatchingCardIsCounted | app/services/pipefy_service.py:151-153 | a card in the category contributes at least one category count |
| Cards.CategoryHitsCoverCards | app/services/pipefy_service.py:151-153 | when every card is in the category, the category hits are at least the number of cards |
| Cards.AllowedHitsSplit | app/services/pipefy_service.py:151-153 | with distinct allowed values, the hits on allowed values are the sum of the hits per value |
| Tallies.Zeros | app/services/pipefy_service.py:131 | the dict literal has exactly the given keys, in order, each reading 0, summing to 0 |
| Tallies.Bump | app/services/pipefy_service.py:140 | `d[k] = d.get(k, 0) + 1` raises `k` by one and leaves every other key alone; a new key goes last; the total grows by one |
| Tallies.BumpWellFormed | app/services/pipefy_service.py:140 | bumping keeps the keys distinct |
| Tallies.TallyExt | app/services/pipefy_service.py:131-153 | two dicts with the same key order and the same lookups are equal |
| Months.FormatYearMonth | app/services/pipefy_service.py:114 | `strftime("%Y-%m")` is seven characters: four digits, a dash, two digits |
| Months.FixedRoundTrip | app/services/pipefy_service.py:114 | reading back a zero-padded field gives the number |
| Months.FormatYearMonthInjective | app/services/pipefy_service.py:114-119 | two (year, month) pairs format the same iff they are equal |
| Months.FormatMarch2024 | app/services/pipefy_service.py:114 | March 2024 formats as `"2024-03"` |
| Months.ParseIntFixed | app/routes.py:185 | `int()` reads a zero-padded number back, e.g. `int("03") == 3` |
| Months.ParseIntRejectsYearMonth | app/routes.py:185 | `int()` raises on every `"YYYY-MM"` string |
| Months.ParseInt | app/routes.py:185 | `int(month)` succeeds exactly on a non-empty string of ASCII digits, optionally behind one `+` or `-` sign; the value is the decimal number those digits denote, negated for `-` |
| Aggregates.TallyFields | app/services/pipefy_service.py:151-153 | the inner loop adds, for every key already present, the number of the card's fields naming the category with that value, and leaves the keys unchanged |
| Aggregates.CountsFor | app/services/pipefy_service.py:131-153 | the category counts have exactly the configured keys, in order |
| Aggregates.CountsForGet | app/services/pipefy_service.py:151-153 | `counts[v]` is the number of category fields with value `v` over all cards, and only configured values are keys |
| Aggregates.CountsForNoCards | app/services/pipefy_service.py:131 | with no cards the counts are the zero-initialised dict |
| Aggregates.CountsForSum | app/services/pipefy_service.py:151-153 | the counts add up to the number of category fields with an allowed value |
| Aggregates.CountsStep | app/services/pipefy_service.py:150-153 | counting one more card adds exactly its matching fields to each key |
| Aggregates.FirstSeenMeaning | app/services/pipefy_service.py:140 | `phases_count` keys are distinct, are exactly the phases that occur, and are ordered by the position of each phase's first occurrence among the cards |
| Aggregates.PhaseHistogramGet | app/services/pipefy_service.py:137-140 | `phases_count` is well formed and `phases_count.get(p, 0)` is the number of cards in phase `p` |
| Aggregates.PhaseHistogramStep | app/services/pipefy_service.py:140 | one more card bumps its phase |
| Aggregates.PhaseHistogramSum | app/services/pipefy_service.py:140 | the phase counts add up to the number of cards |
| Aggregates.CardsInPhaseMeaning | app/services/pipefy_service.py:143 | the cards in a phase are the cards with that phase, in order, as many as `CountPhase` counts |
| Routes.CountCategories | app/routes.py:94-98 | the dashboard's counting loop yields the category counts `CountsFor` of the support cards |
| Routes.SupportCards | app/routes.py:83-91 | the `suporte_cards` comprehension keeps exactly the fetched cards that are in the category and not concluded, in fetch order |
| Routes.DashboardPhases | app/routes.py:100-113 | the `phases_count` literal has exactly the keys "triagem", "pendente", "em_atendimento", "escalar_chamado", in that order |
| Routes.GetPipefyCards | app/routes.py:28-122 | any fetch failure becomes a 500 response; otherwise the body is the dashboard of the fetched cards |
| Routes.DashboardMeaning | app/routes.py:82-118 | the dashboard's cards are the fetched cards of the category that are not concluded, in order; the counts have the configured keys and count matching fields, together at least the number of cards; `phases_count` has the four keys and each of the four buckets counts its phase among the dashboard's cards; the buckets add up to at most the number of cards |
| Routes.DashboardHasNoConcluded | app/routes.py:90 | no dashboard card is in the terminal phase |
| Routes.DashboardPhasesGet | app/routes.py:100-113 | `phases_count` has four distinct keys, each the number of support cards in its phase |
| Routes.DashboardPhasesSum | app/routes.py:100-113 | the four buckets add up to at most the number of support cards |
| Routes.OpenPhasesBound | app/routes.py:100-113 | as the four phases are distinct, their card counts add up to at most the number of cards |
| Routes.SelectByMonthNumber | app/routes.py:183-191 | the `selected_month_cards` comprehension, card by card in order, fails only with 500 and otherwise keeps no more cards than it was given |
| Routes.SelectByMonthNumberFails | app/routes.py:183-191 | the comprehension fails, with a 500, iff there is a card and either `month` is not an integer or some card's `created_at` is missing, empty or unparsable |
| Routes.SelectByMonthNumberValue | app/routes.py:183-191 | when it succeeds it keeps, in order, the cards in the category whose parsed month number equals `int(month)`, whatever the year |
| Routes.BadTimestampAborts | app/routes.py:185 | one card with an unparsable `created_at` anywhere aborts the whole request with 500 |
| Routes.YearMonthArgumentFails | app/routes.py:185 | the `"YYYY-MM"` form the service takes makes this handler answer 500 once there is a card |
| Routes.YearIgnoredExample | app/routes.py:185 | a March 2023 card of the category is selected by `month=03` |
| Routes.TallyTotalsCompleted | app/routes.py:196-200 | the inner loop adds a card's matching fields to `totals`, and to `completed` as well when the card is concluded |
| Routes.TotalsCompletedStep | app/routes.py:195-200 | one more selected card keeps `totals` and `completed` equal to the counts of the selected and of the concluded selected cards |
| Routes.CountTotalsCompleted | app/routes.py:193-200 | `totals` are the category counts of the selected cards and `completed` those of the selected concluded cards |
| Routes.GetPipefyCardsByMonth | app/routes.py:124-209 | a missing or empty `month` gives 400 before any request; otherwise a fetch failure or a failed selection gives 500, and success gives `totals` and `completed` as above |
| Routes.ByMonthCompletedBounded | app/routes.py:193-200 | `totals` and `completed` have exactly the configured keys, and `completed[v] <= totals[v]` for every value |
| Routes.CardHitsOfSubsequence | app/routes.py:196-200 | the category hits of a subsequence of cards are at most those of the whole |

## Left out

- HTTP, JSON and Flask framing: `jsonify`, the `error` message bodies, request parsing beyond the `month` argument, and the URL rules. The handlers return a `Result` whose error is the status.
- The GraphQL query text, the API URL, the bearer token and `Config.PIPEFY_KEY`. The query is represented only by what it returns, one `Page`.
- Page size (`first: 300`). It plays no part in the loop.
- Termination of pagination. The source loops as long as the endpoint says `hasNextPage`. The model requires a ghost bound on the number of requests and proves the result independent of it.
- A changing endpoint. `api` is a function, so the same cursor always gets the same answer.
- `ParsedCreatedAt` and `CardMonth` do not model the calendar and timezone semantics of `strptime` with `%z`. Parsing is the parameter `parse`, which either yields a valid (year, month) or fails.
- `Months.FormatYearMonth` always pads the year to four digits, assuming `strftime` does. Some C libraries do not pad years below 1000.
- `Months.ParseInt` accepts only an optional sign followed by ASCII digits. Python's `int` also accepts surrounding whitespace, underscores between digits and non-ASCII digits.
- The diagnostic `print` calls. They have no effect on the results.
- Exceptions other than the modelled ones: a card without `fields` or `current_phase`, or a field without `name`/`value`. Every card in the model has them.
- `PipefyService.FilterCards` takes the criteria as a sequence. A Python dict's keys would be distinct; the model does not require that, and the result does not depend on it. Both `filters=None` and `{}` are the empty sequence.
- The service's constructor, the PDF, Google Sheets, controller, model and app-start-up modules. These are not part of this model.

The main differences between the two month-based paths, each proved above, are these:

- The service compares the full `"YYYY-MM"`.
- The service skips a card whose timestamp it cannot parse.
- The by-month handler compares only the month number with `int(month)`, and one unparsable timestamp aborts it with 500.
