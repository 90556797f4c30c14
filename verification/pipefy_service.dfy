/** `PipefyService`: `fetch_all_cards` (pagination plus optional filtering), `filter_cards`, and
    `get_monthly_data` (month and category selection, counts, phase histogram, concluded titles,
    chart descriptors). The service object holds only the endpoint URL and the headers, which
    the page source stands for. */
module PipefyService {
  import opened Wrappers
  import opened Seqs
  import opened Cards
  import opened Tallies
  import opened Months
  import opened PagedFetcher
  import opened Aggregates

  // ---------------------------------------------------------------- filter_cards

  /** One `(field_name, field_value)` item of the `filters` dict. */
  datatype Criterion = Criterion(name: string, value: string)

  /** The card meets every criterion: for each, some field has exactly that name and value. */
  predicate Satisfies(card: Card, filters: seq<Criterion>)
  {
    forall i :: 0 <= i < |filters| ==> HasField(card.fields, filters[i].name, filters[i].value)
  }

  /** The cards that meet every criterion, in input order. */
  function Kept(cards: seq<Card>, filters: seq<Criterion>): seq<Card>
  {
    Filter(cards, c => Satisfies(c, filters))
  }

  /** `filter_cards`: the outer loop appends a card when the inner loop over the criteria ends
      without finding one that no field meets (it breaks on the first such criterion). */
  method FilterCards(cards: seq<Card>, filters: seq<Criterion>) returns (filtered: seq<Card>)
    ensures filtered == Kept(cards, filters)
  {
    filtered := [];
    for i := 0 to |cards|
      invariant filtered == Kept(cards[..i], filters)
    {
      var card := cards[i];
      var matched := true;
      var j := 0;
      while j < |filters|
        invariant 0 <= j <= |filters|
        invariant matched
        invariant forall k :: 0 <= k < j ==> HasField(card.fields, filters[k].name, filters[k].value)
      {
        var fieldMatch := HasField(card.fields, filters[j].name, filters[j].value);
        if !fieldMatch {
          matched := false;
          break;
        }
        j := j + 1;
      }
      FilterStep(cards, i, c => Satisfies(c, filters));
      if matched {
        filtered := filtered + [card];
      }
    }
    assert cards[..|cards|] == cards;
  }

  /** What `filter_cards` promises: exactly the cards meeting every criterion, in their
      original order; no criteria keep every card. */
  lemma KeptMeaning(cards: seq<Card>, filters: seq<Criterion>)
    ensures forall c :: c in Kept(cards, filters) <==> c in cards && Satisfies(c, filters)
    ensures SubsequenceOf(Kept(cards, filters), cards)
    ensures filters == [] ==> Kept(cards, filters) == cards
  {
    FilterMembers(cards, c => Satisfies(c, filters));
    FilterIsSubsequence(cards, c => Satisfies(c, filters));
    if filters == [] {
      FilterKeepsAll(cards, c => Satisfies(c, filters));
    }
  }

  // ---------------------------------------------------------------- fetch_all_cards

  /** `fetch_all_cards(pipe_id, filters)`: all pages, then `filter_cards` when `filters` is
      truthy. An empty `filters` (as `None` or `{}`) returns the fetched list unchanged; a failed
      request returns its failure and no cards. */
  method FetchAllCards(api: Api, pipeId: int, filters: seq<Criterion>, ghost bound: nat)
    returns (r: Result<seq<Card>, FetchError>)
    requires EndsWithin(api, pipeId, None, bound)
    ensures Collect(api, pipeId, None, bound).Failure? ==> r == Collect(api, pipeId, None, bound)
    ensures Collect(api, pipeId, None, bound).Success? ==> r.Success?
    ensures r.Success? && filters == [] ==> r == Collect(api, pipeId, None, bound)
    ensures r.Success? ==> r.value == Kept(Collect(api, pipeId, None, bound).value, filters)
  {
    var fetched, trace := FetchPages(api, pipeId, bound);
    if fetched.Failure? {
      return fetched;
    }
    var allCards := fetched.value;
    KeptMeaning(allCards, filters);
    if filters != [] {
      allCards := FilterCards(allCards, filters);
    }
    return Success(allCards);
  }

  // ---------------------------------------------------------------- get_monthly_data

  /** `datetime.strptime(s, "%Y-%m-%dT%H:%M:%S%z")` reduced to the (year, month) written in `s`
      (no time-zone conversion), or `None` where it raises `ValueError`. */
  type TimestampParser = string -> Option<ValidYearMonth>

  /** The (year, month) of a card's `created_at`, or `None` when there is none to compare: a
      missing or empty `created_at` (skipped by `get_monthly_data`, an exception in the
      `get_pipefy_cards_by_month` comprehension; the empty string never matches the format) or
      a timestamp the parser refuses. */
  function ParsedCreatedAt(card: Card, parse: TimestampParser): Option<ValidYearMonth>
  {
    match card.createdAt
    case None => None
    case Some(s) => if s == "" then None else parse(s)
  }

  /** `card_month`: the `"YYYY-MM"` of the card's `created_at`, or `None` when the card is
      skipped before the comparison (no or empty `created_at`, or a parse failure). */
  function CardMonth(card: Card, parse: TimestampParser): (m: Option<string>)
    ensures m.Some? <==> card.createdAt.Some? && card.createdAt.value != "" && parse(card.createdAt.value).Some?
    ensures m.Some? ==> m.value == FormatYearMonth(parse(card.createdAt.value).value)
    ensures m.Some? ==> |m.value| == 7 && m.value[4] == '-'
  {
    match ParsedCreatedAt(card, parse)
    case None => None
    case Some(ym) => Some(FormatYearMonth(ym))
  }

  /** The selection test of `get_monthly_data`. */
  predicate InMonthAndCategory(card: Card, parse: TimestampParser, cfg: Config, month: string)
  {
    CardMonth(card, parse) == Some(month) && MatchesCategory(card.fields, cfg.categoryField, cfg.categories)
  }

  /** `selected_month_cards`. */
  function SelectMonth(cards: seq<Card>, parse: TimestampParser, cfg: Config, month: string): seq<Card>
  {
    Filter(cards, c => InMonthAndCategory(c, parse, cfg, month))
  }

  /** The first loop of `get_monthly_data`: skip cards without a usable `created_at` (a failed
      parse only prints a diagnostic and continues), then keep those of `month` and the category. */
  method SelectMonthCards(cards: seq<Card>, parse: TimestampParser, cfg: Config, month: string)
    returns (selected: seq<Card>)
    ensures selected == SelectMonth(cards, parse, cfg, month)
  {
    selected := [];
    for i := 0 to |cards|
      invariant selected == SelectMonth(cards[..i], parse, cfg, month)
    {
      var card := cards[i];
      FilterStep(cards, i, c => InMonthAndCategory(c, parse, cfg, month));
      if card.createdAt.None? || card.createdAt.value == "" {
        continue;
      }
      var parsed := parse(card.createdAt.value);
      if parsed.None? {
        continue;
      }
      var cardMonth := FormatYearMonth(parsed.value);
      if cardMonth != month {
        continue;
      }
      if MatchesCategory(card.fields, cfg.categoryField, cfg.categories) {
        selected := selected + [card];
      }
    }
    assert cards[..|cards|] == cards;
  }

  /** The concluded test of the second loop, which repeats the category test. */
  predicate ConcludedInCategory(card: Card, cfg: Config)
  {
    card.phase == cfg.terminalPhase && MatchesCategory(card.fields, cfg.categoryField, cfg.categories)
  }

  /** Titles of the cards in the terminal phase, in order. */
  function ConcludedTitles(cards: seq<Card>, terminalPhase: string): seq<string>
  {
    Titles(CardsInPhase(cards, terminalPhase))
  }

  /** On selected cards the second category test of the concluded check changes nothing. */
  lemma {:induction false} CategoryRecheckRedundant(cards: seq<Card>, cfg: Config)
    requires forall i :: 0 <= i < |cards| ==> MatchesCategory(cards[i].fields, cfg.categoryField, cfg.categories)
    ensures Filter(cards, c => ConcludedInCategory(c, cfg)) == CardsInPhase(cards, cfg.terminalPhase)
  {
    if cards != [] {
      CategoryRecheckRedundant(cards[..|cards| - 1], cfg);
    }
  }

  /** One step of the concluded list. */
  lemma ConcludedStep(selected: seq<Card>, i: nat, cfg: Config)
    requires i < |selected|
    ensures Titles(Filter(selected[..i + 1], c => ConcludedInCategory(c, cfg)))
         == Titles(Filter(selected[..i], c => ConcludedInCategory(c, cfg)))
            + (if ConcludedInCategory(selected[i], cfg) then [selected[i].title] else [])
  {
    FilterStep(selected, i, c => ConcludedInCategory(c, cfg));
    TitlesAppend(Filter(selected[..i], c => ConcludedInCategory(c, cfg)), [selected[i]]);
  }

  /** The second loop of `get_monthly_data`: phase histogram, concluded titles and category
      counts, all filled card by card. */
  method SummarizeMonth(selected: seq<Card>, cfg: Config)
    returns (counts: Tally, phases: Tally, concluded: seq<string>)
    requires Distinct(cfg.categories)
    ensures counts == CountsFor(selected, cfg.categoryField, cfg.categories)
    ensures phases == PhaseHistogram(selected)
    ensures concluded == Titles(Filter(selected, c => ConcludedInCategory(c, cfg)))
  {
    counts := Zeros(cfg.categories);
    CountsForNoCards(cfg.categoryField, cfg.categories);
    phases := [];
    concluded := [];
    for i := 0 to |selected|
      invariant counts == CountsFor(selected[..i], cfg.categoryField, cfg.categories)
      invariant phases == PhaseHistogram(selected[..i])
      invariant concluded == Titles(Filter(selected[..i], c => ConcludedInCategory(c, cfg)))
    {
      var card := selected[i];
      assert selected[..i + 1] == selected[..i] + [card];
      var phaseName := card.phase;

      PhaseHistogramStep(selected[..i], card);
      phases := Bump(phases, phaseName);

      ConcludedStep(selected, i, cfg);
      if phaseName == cfg.terminalPhase && MatchesCategory(card.fields, cfg.categoryField, cfg.categories) {
        concluded := concluded + [card.title];
      }

      CountsForGet(selected[..i], cfg.categoryField, cfg.categories);
      var counts' := TallyFields(counts, card.fields, cfg.categoryField);
      CountsStep(selected[..i], card, cfg.categoryField, cfg.categories, counts');
      counts := counts';
    }
    assert selected[..|selected|] == selected;
  }

  /** The first element of the returned pair. */
  datatype MonthlyReport = MonthlyReport(
    totalCards: nat,
    counts: Tally,
    phasesCount: Tally,
    concludedTitles: seq<string>,
    cards: seq<Card>)

  /** One entry of `graphs`. */
  datatype Chart = Chart(
    title: string,
    labels: seq<string>,
    values: seq<nat>,
    colors: seq<string>,
    xlabel: string,
    ylabel: string)

  /** The report `get_monthly_data` returns for `cards`. */
  function MonthlyReportOf(cards: seq<Card>, parse: TimestampParser, cfg: Config, month: string): MonthlyReport
  {
    var selected := SelectMonth(cards, parse, cfg, month);
    MonthlyReport(
      |selected|,
      CountsFor(selected, cfg.categoryField, cfg.categories),
      PhaseHistogram(selected),
      ConcludedTitles(selected, cfg.terminalPhase),
      selected)
  }

  /** The chart descriptor of one dict: its keys as labels, its values as values. */
  function ChartOf(title: string, t: Tally, colors: seq<string>, xlabel: string): (c: Chart)
    requires WellFormed(t)
    ensures c.labels == Keys(t) && c.values == Values(t)
    ensures |c.labels| == |c.values| == |t|
    ensures forall k :: k in c.labels <==> k in Keys(t)
    ensures forall i :: 0 <= i < |c.labels| ==> Get(t, c.labels[i]) == c.values[i]
    ensures c.colors == colors
  {
    var chart := Chart(title, Keys(t), Values(t), colors, xlabel, "Quantidade");
    assert forall i :: 0 <= i < |t| ==> Get(t, chart.labels[i]) == chart.values[i] by {
      forall i | 0 <= i < |t| ensures Get(t, chart.labels[i]) == chart.values[i] {
        GetAt(t, i);
      }
    }
    chart
  }

  /** `graphs`: the category chart and the phase chart; the colour lists are fixed. */
  function MonthlyCharts(counts: Tally, phases: Tally): (graphs: seq<Chart>)
    requires WellFormed(counts) && WellFormed(phases)
    ensures |graphs| == 2
    ensures graphs[0].labels == Keys(counts) && graphs[1].labels == Keys(phases)
    ensures |graphs[0].values| == |graphs[0].labels| && |graphs[1].values| == |graphs[1].labels|
    ensures forall i :: 0 <= i < |graphs[0].labels| ==> graphs[0].values[i] == Get(counts, graphs[0].labels[i])
    ensures forall i :: 0 <= i < |graphs[1].labels| ==> graphs[1].values[i] == Get(phases, graphs[1].labels[i])
    ensures |graphs[0].colors| == 2 && |graphs[1].colors| == 5
  {
    [ ChartOf("Distribuição por Tipo", counts, ["blue", "green"], "Tipo"),
      ChartOf("Cards por Fase", phases, ["purple", "orange", "cyan", "red", "yellow"], "Fase") ]
  }

  /** `get_monthly_data(month)`: fetch every card of the configured pipe, select, summarize and
      describe the charts. A fetch failure propagates; nothing else fails. */
  method GetMonthlyData(api: Api, parse: TimestampParser, cfg: Config, month: string, ghost bound: nat)
    returns (r: Result<(MonthlyReport, seq<Chart>), FetchError>)
    requires Distinct(cfg.categories)
    requires EndsWithin(api, cfg.pipeId, None, bound)
    ensures Collect(api, cfg.pipeId, None, bound).Failure? ==> r == Failure(Collect(api, cfg.pipeId, None, bound).error)
    ensures Collect(api, cfg.pipeId, None, bound).Success? ==>
      r.Success? && r.value.0 == MonthlyReportOf(Collect(api, cfg.pipeId, None, bound).value, parse, cfg, month)
    ensures r.Success? ==>
      && WellFormed(r.value.0.counts) && WellFormed(r.value.0.phasesCount)
      && r.value.1 == MonthlyCharts(r.value.0.counts, r.value.0.phasesCount)
  {
    var fetched := FetchAllCards(api, cfg.pipeId, [], bound);
    if fetched.Failure? {
      return Failure(fetched.error);
    }
    var allCards := fetched.value;
    var selected := SelectMonthCards(allCards, parse, cfg, month);
    var counts, phases, concluded := SummarizeMonth(selected, cfg);

    FilterMembers(allCards, c => InMonthAndCategory(c, parse, cfg, month));
    assert forall i :: 0 <= i < |selected| ==> selected[i] in selected;
    CategoryRecheckRedundant(selected, cfg);
    CountsForGet(selected, cfg.categoryField, cfg.categories);
    PhaseHistogramGet(selected);

    var graphs := MonthlyCharts(counts, phases);
    var report := MonthlyReport(|selected|, counts, phases, concluded, selected);
    return Success((report, graphs));
  }

  // ---------------------------------------------------------------- what the report promises

  /** The selected cards are exactly the input cards of `month` and the category, in input order. */
  lemma MonthlySelection(cards: seq<Card>, parse: TimestampParser, cfg: Config, month: string)
    ensures var r := MonthlyReportOf(cards, parse, cfg, month);
      && (forall c :: c in r.cards <==> c in cards && InMonthAndCategory(c, parse, cfg, month))
      && SubsequenceOf(r.cards, cards)
      && r.totalCards == |r.cards|
  {
    FilterMembers(cards, c => InMonthAndCategory(c, parse, cfg, month));
    FilterIsSubsequence(cards, c => InMonthAndCategory(c, parse, cfg, month));
  }

  /** The counts of the report: the category dict has exactly the configured keys, each counting
      one per matching field (fan-out), so together they are at least `total_cards`; the phase
      dict counts each selected card once under its phase, so its values add up to `total_cards`. */
  lemma {:induction false} MonthlyCounts(cards: seq<Card>, parse: TimestampParser, cfg: Config, month: string)
    requires Distinct(cfg.categories)
    ensures var r := MonthlyReportOf(cards, parse, cfg, month);
      && Keys(r.counts) == cfg.categories
      && (forall v :: v in cfg.categories ==> Get(r.counts, v) == CardHits(r.cards, cfg.categoryField, v))
      && Sum(r.counts) == AllowedCardHits(r.cards, cfg.categoryField, cfg.categories) >= r.totalCards
      && (forall p :: Get(r.phasesCount, p) == CountPhase(r.cards, p))
      && (forall p :: p in Keys(r.phasesCount) <==> p in PhasesOf(r.cards))
      && Sum(r.phasesCount) == r.totalCards
  {
    var selected := SelectMonth(cards, parse, cfg, month);
    FilterMembers(cards, c => InMonthAndCategory(c, parse, cfg, month));
    assert forall i :: 0 <= i < |selected| ==> selected[i] in selected;
    CountsForGet(selected, cfg.categoryField, cfg.categories);
    CountsForSum(selected, cfg.categoryField, cfg.categories);
    CategoryHitsCoverCards(selected, cfg.categoryField, cfg.categories);
    PhaseHistogramGet(selected);
    FirstSeenMeaning(PhasesOf(selected));
    PhaseHistogramSum(selected);
  }

  /** `t` is a title of `cards` iff some card has that title. */
  lemma TitleMembers(cards: seq<Card>)
    ensures forall t :: t in Titles(cards) <==> exists c :: c in cards && c.title == t
  {
    forall t | t in Titles(cards)
      ensures exists c :: c in cards && c.title == t
    {
      var i :| 0 <= i < |cards| && Titles(cards)[i] == t;
      assert cards[i] in cards;
    }
    forall t | exists c :: c in cards && c.title == t
      ensures t in Titles(cards)
    {
      var c :| c in cards && c.title == t;
      var i :| 0 <= i < |cards| && cards[i] == c;
      assert Titles(cards)[i] == t;
    }
  }

  /** The concluded titles of a card sequence: the titles of its cards in the terminal phase, in
      order, as many as the phase histogram counts for that phase. */
  lemma ConcludedTitlesMeaning(cards: seq<Card>, terminalPhase: string)
    ensures SubsequenceOf(ConcludedTitles(cards, terminalPhase), Titles(cards))
    ensures |ConcludedTitles(cards, terminalPhase)| == Get(PhaseHistogram(cards), terminalPhase)
    ensures forall t :: t in ConcludedTitles(cards, terminalPhase)
                    <==> exists c :: c in cards && c.phase == terminalPhase && c.title == t
  {
    var done := CardsInPhase(cards, terminalPhase);
    CardsInPhaseMeaning(cards, terminalPhase);
    TitlesOfSubsequence(done, cards);
    PhaseHistogramGet(cards);
    TitleMembers(done);
  }

  /** The concluded titles of the report: the selected cards in the terminal phase, in
      selection order, as many as `phases_count` has for that phase. */
  lemma MonthlyConcluded(cards: seq<Card>, parse: TimestampParser, cfg: Config, month: string)
    ensures var r := MonthlyReportOf(cards, parse, cfg, month);
      && SubsequenceOf(r.concludedTitles, Titles(r.cards))
      && |r.concludedTitles| == Get(r.phasesCount, cfg.terminalPhase)
      && forall t :: t in r.concludedTitles <==> exists c :: c in r.cards && c.phase == cfg.terminalPhase && c.title == t
  {
    ConcludedTitlesMeaning(SelectMonth(cards, parse, cfg, month), cfg.terminalPhase);
  }

  lemma {:induction false} TitlesOfSubsequence(xs: seq<Card>, ys: seq<Card>)
    requires SubsequenceOf(xs, ys)
    ensures SubsequenceOf(Titles(xs), Titles(ys))
    decreases |ys|
  {
    if xs != [] && ys != [] {
      assert Titles(xs)[..|xs| - 1] == Titles(xs[..|xs| - 1]);
      assert Titles(ys)[..|ys| - 1] == Titles(ys[..|ys| - 1]);
      if xs[|xs| - 1] == ys[|ys| - 1] && SubsequenceOf(xs[..|xs| - 1], ys[..|ys| - 1]) {
        TitlesOfSubsequence(xs[..|xs| - 1], ys[..|ys| - 1]);
      } else {
        TitlesOfSubsequence(xs, ys[..|ys| - 1]);
      }
    }
  }

  /** No card of `month` (a month nobody validated may match none): a normal, empty report. */
  lemma EmptyMonth(cards: seq<Card>, parse: TimestampParser, cfg: Config, month: string)
    requires Distinct(cfg.categories)
    requires forall i :: 0 <= i < |cards| ==> CardMonth(cards[i], parse) != Some(month)
    ensures MonthlyReportOf(cards, parse, cfg, month)
         == MonthlyReport(0, Zeros(cfg.categories), [], [], [])
  {
    var selected := SelectMonth(cards, parse, cfg, month);
    FilterKeepsNone(cards, c => InMonthAndCategory(c, parse, cfg, month));
    CountsForNoCards(cfg.categoryField, cfg.categories);
  }

  /** A `month` argument that is not seven characters long, as `"YYYY-MM"` is, selects nothing. */
  lemma MalformedMonthSelectsNothing(cards: seq<Card>, parse: TimestampParser, cfg: Config, month: string)
    requires Distinct(cfg.categories)
    requires |month| != 7
    ensures MonthlyReportOf(cards, parse, cfg, month) == MonthlyReport(0, Zeros(cfg.categories), [], [], [])
  {
    EmptyMonth(cards, parse, cfg, month);
  }

  lemma SelectMonthAppend(xs: seq<Card>, ys: seq<Card>, parse: TimestampParser, cfg: Config, month: string)
    ensures SelectMonth(xs + ys, parse, cfg, month) == SelectMonth(xs, parse, cfg, month) + SelectMonth(ys, parse, cfg, month)
  {
    FilterAppend(xs, ys, c => InMonthAndCategory(c, parse, cfg, month));
  }

  /** A card skipped for its `created_at` (absent, empty or unparsable) leaves the report of the
      other cards unchanged: skip, not abort. */
  lemma SkipNotAbort(xs: seq<Card>, bad: Card, ys: seq<Card>, parse: TimestampParser, cfg: Config, month: string)
    requires CardMonth(bad, parse) == None
    ensures MonthlyReportOf(xs + [bad] + ys, parse, cfg, month) == MonthlyReportOf(xs + ys, parse, cfg, month)
  {
    SelectMonthAppend(xs + [bad], ys, parse, cfg, month);
    SelectMonthAppend(xs, [bad], parse, cfg, month);
    SelectMonthAppend(xs, ys, parse, cfg, month);
    assert SelectMonth([bad], parse, cfg, month) == [] by {
      assert [bad][..0] == [];
    }
    assert SelectMonth(xs + [bad] + ys, parse, cfg, month) == SelectMonth(xs + ys, parse, cfg, month);
  }

  /** Comparing `"YYYY-MM"` strings is comparing parsed (year, month) pairs: a card is of the
      month `FormatYearMonth(target)` iff its non-empty `created_at` parses to `target`. */
  lemma SelectionByYearMonth(card: Card, parse: TimestampParser, target: ValidYearMonth)
    ensures CardMonth(card, parse) == Some(FormatYearMonth(target))
        <==> card.createdAt.Some? && card.createdAt.value != "" && parse(card.createdAt.value) == Some(target)
  {
    if card.createdAt.Some? && card.createdAt.value != "" && parse(card.createdAt.value).Some? {
      FormatYearMonthInjective(parse(card.createdAt.value).value, target);
    }
  }

  /** With the pipe's own constants the category dict has the keys "Meu RH" and
      "TOTVS Datasul", in that order. */
  lemma PipefyMonthlyReport(cards: seq<Card>, parse: TimestampParser, month: string)
    ensures var r := MonthlyReportOf(cards, parse, Pipefy, month);
      && Keys(r.counts) == ["Meu RH", "TOTVS Datasul"]
      && Sum(r.counts) >= r.totalCards == Sum(r.phasesCount)
      && |r.concludedTitles| == Get(r.phasesCount, "Concluído")
  {
    MonthlyCounts(cards, parse, Pipefy, month);
    MonthlyConcluded(cards, parse, Pipefy, month);
  }

  /** A report over one selected card: one card in total, its category values counted, its
      phase counted once, its title concluded when its phase is the terminal one. */
  lemma SingleCardSummary(card: Card, name: string, value: string, terminalPhase: string)
    requires card.fields == [Field(name, value)]
    ensures CountsFor([card], name, [value]) == [Entry(value, 1)]
    ensures PhaseHistogram([card]) == [Entry(card.phase, 1)]
    ensures ConcludedTitles([card], terminalPhase) == if card.phase == terminalPhase then [card.title] else []
  {
    assert [card][..0] == [];
    assert card.fields[..0] == [];
    assert [value][1..] == [];
    assert FieldHits(card.fields, name, value) == 1;
    assert CardHits([card], name, value) == 1;
    assert PhasesOf([card]) == [card.phase];
    assert FirstSeen([card.phase]) == [card.phase] by {
      assert [card.phase][..0] == [];
    }
    assert CountPhase([card], card.phase) == 1;
  }

  /** A worked example: of two cards in category "A" and phase "Done", the one created in
      March 2024 makes up the report for "2024-03"; the April one is left out. */
  lemma MarchExample(parse: TimestampParser, first: Card, second: Card)
    requires parse("2024-03-05T10:00:00-03:00") == Some(YearMonth(2024, 3))
    requires parse("2024-04-01T00:00:00-03:00") == Some(YearMonth(2024, 4))
    requires first == Card("1", "first", [Field("Cat", "A")], "Done", Some("2024-03-05T10:00:00-03:00"))
    requires second == Card("2", "second", [Field("Cat", "A")], "Done", Some("2024-04-01T00:00:00-03:00"))
    ensures var r := MonthlyReportOf([first, second], parse, Config(1, "Cat", ["A"], "Done"), "2024-03");
      && r.totalCards == 1
      && r.counts == [Entry("A", 1)]
      && r.phasesCount == [Entry("Done", 1)]
      && r.concludedTitles == ["first"]
  {
    var cards := [first, second];
    var cfg := Config(1, "Cat", ["A"], "Done");
    FormatMarch2024();
    FormatYearMonthInjective(YearMonth(2024, 3), YearMonth(2024, 4));
    assert Field("Cat", "A") in first.fields;
    assert InMonthAndCategory(first, parse, cfg, "2024-03");
    assert !InMonthAndCategory(second, parse, cfg, "2024-03");
    var p := c => InMonthAndCategory(c, parse, cfg, "2024-03");
    FilterStep(cards, 0, p);
    FilterStep(cards, 1, p);
    assert cards[..0] == [] && cards[..2] == cards;
    assert SelectMonth(cards, parse, cfg, "2024-03") == [first];
    SingleCardSummary(first, "Cat", "A", "Done");
  }

  /** Fan-out: a card carrying both category values counts once under each, so the category
      counts add up to 2 for a single card. */
  lemma FanOutCounts(card: Card)
    requires card.fields == [Field("Componente -> Suporte a Sistemas", "Meu RH"),
                             Field("Componente -> Suporte a Sistemas", "TOTVS Datasul")]
    ensures CountsFor([card], Pipefy.categoryField, Pipefy.categories) == [Entry("Meu RH", 1), Entry("TOTVS Datasul", 1)]
    ensures Sum(CountsFor([card], Pipefy.categoryField, Pipefy.categories)) == 2
  {
    var name := Pipefy.categoryField;
    var expected := [Entry("Meu RH", 1), Entry("TOTVS Datasul", 1)];
    assert card.fields[..1] == [card.fields[0]];
    assert card.fields[..1][..0] == [];
    assert FieldHits(card.fields[..1], name, "Meu RH") == 1;
    assert FieldHits(card.fields, name, "Meu RH") == 1;
    assert FieldHits(card.fields[..1], name, "TOTVS Datasul") == 0;
    assert FieldHits(card.fields, name, "TOTVS Datasul") == 1;
    assert [card][..0] == [];
    assert CardHits([card], name, "Meu RH") == 1;
    assert CardHits([card], name, "TOTVS Datasul") == 1;
    CountsForGet([card], name, Pipefy.categories);
    assert Keys(expected) == Pipefy.categories;
    assert Get(expected, "Meu RH") == 1;
    assert Get(expected[1..], "TOTVS Datasul") == 1;
    assert Get(expected, "TOTVS Datasul") == 1;
    forall k ensures Get(CountsFor([card], name, Pipefy.categories), k) == Get(expected, k) {
      if k !in Pipefy.categories {
        GetAbsent(expected, k);
      }
    }
    TallyExt(CountsFor([card], name, Pipefy.categories), expected);
    assert Sum(expected[1..]) == 1;
  }

  /** The same card, created in March 2024 and in phase "Triagem", in the `"2024-03"` report:
      one card in total, two category counts. */
  lemma FanOutExample(parse: TimestampParser, card: Card)
    requires parse("2024-03-05T10:00:00-03:00") == Some(YearMonth(2024, 3))
    requires card == Card("7", "Acesso", [Field("Componente -> Suporte a Sistemas", "Meu RH"),
                                         Field("Componente -> Suporte a Sistemas", "TOTVS Datasul")],
                          "Triagem", Some("2024-03-05T10:00:00-03:00"))
    ensures var r := MonthlyReportOf([card], parse, Pipefy, "2024-03");
      && r.totalCards == 1
      && r.counts == [Entry("Meu RH", 1), Entry("TOTVS Datasul", 1)]
      && Sum(r.counts) == 2
  {
    FormatMarch2024();
    assert card.fields[0] in card.fields;
    assert InMonthAndCategory(card, parse, Pipefy, "2024-03");
    FilterStep([card], 0, c => InMonthAndCategory(c, parse, Pipefy, "2024-03"));
    assert [card][..0] == [] && [card][..1] == [card];
    assert SelectMonth([card], parse, Pipefy, "2024-03") == [card];
    FanOutCounts(card);
  }
}
