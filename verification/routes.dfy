/** The two dashboard handlers of app/routes.py, `get_pipefy_cards` and
    `get_pipefy_cards_by_month`, without their Flask framing: each returns its JSON payload or
    the status of its error response. Their inline pagination loops are the same loop as the
    service's, and are modelled by `PagedFetcher.FetchPages`. */
module Routes {
  import opened Wrappers
  import opened Seqs
  import opened Cards
  import opened Tallies
  import opened Months
  import opened PagedFetcher
  import opened Aggregates
  import opened PipefyService

  /** The error responses: 400 for a missing `month`, 500 for any exception. */
  datatype HandlerError = BadRequest | ServerError

  // ---------------------------------------------------------------- get_pipefy_cards

  /** The `suporte_cards` test: in the category and not concluded. */
  predicate OpenSupportCard(card: Card, cfg: Config)
  {
    MatchesCategory(card.fields, cfg.categoryField, cfg.categories) && card.phase != cfg.terminalPhase
  }

  /** `suporte_cards`. */
  function SupportCards(cards: seq<Card>, cfg: Config): (r: seq<Card>)
    ensures forall c :: c in r <==> c in cards && OpenSupportCard(c, cfg)
    ensures SubsequenceOf(r, cards)
  {
    FilterMembers(cards, c => OpenSupportCard(c, cfg));
    FilterIsSubsequence(cards, c => OpenSupportCard(c, cfg));
    Filter(cards, c => OpenSupportCard(c, cfg))
  }

  /** The dashboard's `phases_count`: four fixed keys, each the number of cards in one phase. */
  function DashboardPhases(cards: seq<Card>): (t: Tally)
    ensures Keys(t) == ["triagem", "pendente", "em_atendimento", "escalar_chamado"]
  {
    var t := [
      Entry("triagem", CountPhase(cards, "Triagem")),
      Entry("pendente", CountPhase(cards, "Pendente")),
      Entry("em_atendimento", CountPhase(cards, "Em atendimento")),
      Entry("escalar_chamado", CountPhase(cards, "Escalar o Chamado"))];
    assert Keys(t) == [t[0].key, t[1].key, t[2].key, t[3].key];
    t
  }

  /** A card is in at most one of the four dashboard phases, so the four counts add up to at
      most the number of cards (cards in other phases are in no bucket). */
  lemma {:induction false} OpenPhasesBound(cards: seq<Card>)
    ensures CountPhase(cards, "Triagem") + CountPhase(cards, "Pendente")
            + CountPhase(cards, "Em atendimento") + CountPhase(cards, "Escalar o Chamado") <= |cards|
  {
    if cards != [] {
      OpenPhasesBound(cards[..|cards| - 1]);
    }
  }

  /** `phases_count` is a dict with the four keys, each mapped to the number of cards in its
      phase. */
  lemma DashboardPhasesGet(cards: seq<Card>)
    ensures var t := DashboardPhases(cards);
      && WellFormed(t)
      && Get(t, "triagem") == CountPhase(cards, "Triagem")
      && Get(t, "pendente") == CountPhase(cards, "Pendente")
      && Get(t, "em_atendimento") == CountPhase(cards, "Em atendimento")
      && Get(t, "escalar_chamado") == CountPhase(cards, "Escalar o Chamado")
  {
    var t := DashboardPhases(cards);
    assert WellFormed(t);
    GetAt(t, 0);
    GetAt(t, 1);
    GetAt(t, 2);
    GetAt(t, 3);
  }

  /** The buckets of `phases_count` add up to at most the number of cards. */
  lemma DashboardPhasesSum(cards: seq<Card>)
    ensures Sum(DashboardPhases(cards)) <= |cards|
  {
    var t := DashboardPhases(cards);
    assert t[4..] == [];
    assert t[3..][1..] == t[4..];
    assert t[2..][1..] == t[3..];
    assert t[1..][1..] == t[2..];
    assert Sum(t[3..]) == t[3].count + Sum(t[4..]) == t[3].count;
    assert Sum(t[2..]) == t[2].count + Sum(t[3..]);
    assert Sum(t[1..]) == t[1].count + Sum(t[2..]);
    OpenPhasesBound(cards);
  }

  /** The JSON body of `get_pipefy_cards`. */
  datatype Dashboard = Dashboard(counts: Tally, phasesCount: Tally, cards: seq<Card>)

  /** The dashboard built from the fetched cards. */
  function DashboardOf(cards: seq<Card>, cfg: Config): Dashboard
  {
    var support := SupportCards(cards, cfg);
    Dashboard(CountsFor(support, cfg.categoryField, cfg.categories), DashboardPhases(support), support)
  }

  /** The counting loop of `get_pipefy_cards` over `suporte_cards`. */
  method CountCategories(cards: seq<Card>, cfg: Config) returns (counts: Tally)
    requires Distinct(cfg.categories)
    ensures counts == CountsFor(cards, cfg.categoryField, cfg.categories)
  {
    counts := Zeros(cfg.categories);
    CountsForNoCards(cfg.categoryField, cfg.categories);
    for i := 0 to |cards|
      invariant counts == CountsFor(cards[..i], cfg.categoryField, cfg.categories)
    {
      var card := cards[i];
      assert cards[..i + 1] == cards[..i] + [card];
      CountsForGet(cards[..i], cfg.categoryField, cfg.categories);
      var counts' := TallyFields(counts, card.fields, cfg.categoryField);
      CountsStep(cards[..i], card, cfg.categoryField, cfg.categories, counts');
      counts := counts';
    }
    assert cards[..|cards|] == cards;
  }

  /** `get_pipefy_cards`: any failure of the fetch becomes a 500 response. */
  method GetPipefyCards(api: Api, cfg: Config, ghost bound: nat) returns (r: Result<Dashboard, HandlerError>)
    requires Distinct(cfg.categories)
    requires EndsWithin(api, cfg.pipeId, None, bound)
    ensures Collect(api, cfg.pipeId, None, bound).Failure? ==> r == Failure(ServerError)
    ensures Collect(api, cfg.pipeId, None, bound).Success? ==>
      r == Success(DashboardOf(Collect(api, cfg.pipeId, None, bound).value, cfg))
  {
    var fetched, trace := FetchPages(api, cfg.pipeId, bound);
    if fetched.Failure? {
      return Failure(ServerError);
    }
    var support := SupportCards(fetched.value, cfg);
    var counts := CountCategories(support, cfg);
    var phases := DashboardPhases(support);
    return Success(Dashboard(counts, phases, support));
  }

  /** What the dashboard promises: the open cards of the category in fetch order; one count per
      matching field for exactly the configured categories; four phase buckets that count their
      phase and together at most the number of cards. */
  lemma DashboardMeaning(cards: seq<Card>, cfg: Config)
    requires Distinct(cfg.categories)
    ensures var d := DashboardOf(cards, cfg);
      && (forall c :: c in d.cards <==> c in cards && OpenSupportCard(c, cfg))
      && SubsequenceOf(d.cards, cards)
      && Keys(d.counts) == cfg.categories
      && (forall v :: v in cfg.categories ==> Get(d.counts, v) == CardHits(d.cards, cfg.categoryField, v))
      && Sum(d.counts) >= |d.cards|
      && Keys(d.phasesCount) == ["triagem", "pendente", "em_atendimento", "escalar_chamado"]
      && Get(d.phasesCount, "triagem") == CountPhase(d.cards, "Triagem")
      && Get(d.phasesCount, "pendente") == CountPhase(d.cards, "Pendente")
      && Get(d.phasesCount, "em_atendimento") == CountPhase(d.cards, "Em atendimento")
      && Get(d.phasesCount, "escalar_chamado") == CountPhase(d.cards, "Escalar o Chamado")
      && Sum(d.phasesCount) <= |d.cards|
  {
    var support := SupportCards(cards, cfg);
    FilterMembers(cards, c => OpenSupportCard(c, cfg));
    FilterIsSubsequence(cards, c => OpenSupportCard(c, cfg));
    assert forall i :: 0 <= i < |support| ==> support[i] in support;
    CountsForGet(support, cfg.categoryField, cfg.categories);
    CountsForSum(support, cfg.categoryField, cfg.categories);
    CategoryHitsCoverCards(support, cfg.categoryField, cfg.categories);
    DashboardPhasesGet(support);
    DashboardPhasesSum(support);
  }

  /** No card of the dashboard is concluded, so a concluded bucket would always be 0. */
  lemma DashboardHasNoConcluded(cards: seq<Card>, cfg: Config)
    ensures CountPhase(DashboardOf(cards, cfg).cards, cfg.terminalPhase) == 0
  {
    var support := SupportCards(cards, cfg);
    FilterMembers(cards, c => OpenSupportCard(c, cfg));
    CardsInPhaseMeaning(support, cfg.terminalPhase);
    assert forall i :: 0 <= i < |support| ==> support[i] in support;
    FilterKeepsNone(support, (c: Card) => c.phase == cfg.terminalPhase);
  }

  // ---------------------------------------------------------------- get_pipefy_cards_by_month

  /** The comprehension's test once both sides parsed: the month number only, and the category. */
  predicate InMonthNumber(card: Card, parse: TimestampParser, m: int, cfg: Config)
  {
    ParsedCreatedAt(card, parse).Some? && ParsedCreatedAt(card, parse).value.month == m
    && MatchesCategory(card.fields, cfg.categoryField, cfg.categories)
  }

  /** The `selected_month_cards` comprehension, evaluated card by card in order: `strptime`, then
      `int(month)`, then the category test; the first exception aborts the request. */
  function SelectByMonthNumber(cards: seq<Card>, parse: TimestampParser, month: string, cfg: Config)
    : (r: Result<seq<Card>, HandlerError>)
    ensures r.Failure? ==> r.error == ServerError
    ensures r.Success? ==> |r.value| <= |cards|
  {
    if cards == [] then Success([])
    else
      match ParsedCreatedAt(cards[0], parse)
      case None => Failure(ServerError)
      case Some(ym) =>
        match ParseInt(month)
        case None => Failure(ServerError)
        case Some(m) =>
          var keep := ym.month == m && MatchesCategory(cards[0].fields, cfg.categoryField, cfg.categories);
          match SelectByMonthNumber(cards[1..], parse, month, cfg)
          case Failure(e) => Failure(e)
          case Success(rest) => Success(if keep then [cards[0]] + rest else rest)
  }

  /** The selection fails exactly when some card's `created_at` does not parse, or when there
      is a card at all and `month` is not an integer; every failure is a 500. */
  lemma {:induction false} SelectByMonthNumberFails(cards: seq<Card>, parse: TimestampParser, month: string, cfg: Config)
    ensures SelectByMonthNumber(cards, parse, month, cfg).Success?
        <==> cards == [] || (ParseInt(month).Some? && forall i :: 0 <= i < |cards| ==> ParsedCreatedAt(cards[i], parse).Some?)
    ensures SelectByMonthNumber(cards, parse, month, cfg).Failure? ==> SelectByMonthNumber(cards, parse, month, cfg).error == ServerError
  {
    if cards != [] {
      var rest := cards[1..];
      SelectByMonthNumberFails(rest, parse, month, cfg);
      assert forall i :: 0 <= i < |rest| ==> rest[i] == cards[i + 1];
      if ParsedCreatedAt(cards[0], parse).Some? && ParseInt(month).Some? && rest != []
         && forall i :: 0 <= i < |rest| ==> ParsedCreatedAt(rest[i], parse).Some?
      {
        forall i | 0 <= i < |cards| ensures ParsedCreatedAt(cards[i], parse).Some? {
          if i > 0 {
            assert cards[i] == rest[i - 1];
          }
        }
      }
    }
  }

  /** On success the selection keeps, in order, the cards whose month number, whatever the year,
      is `int(month)` and that are in the category. */
  lemma {:induction false} SelectByMonthNumberValue(cards: seq<Card>, parse: TimestampParser, month: string, cfg: Config)
    requires SelectByMonthNumber(cards, parse, month, cfg).Success?
    requires ParseInt(month).Some?
    ensures SelectByMonthNumber(cards, parse, month, cfg).value == Filter(cards, c => InMonthNumber(c, parse, ParseInt(month).value, cfg))
  {
    if cards != [] {
      var rest := cards[1..];
      SelectByMonthNumberValue(rest, parse, month, cfg);
      assert cards == [cards[0]] + rest;
      FilterAppend([cards[0]], rest, c => InMonthNumber(c, parse, ParseInt(month).value, cfg));
      assert [cards[0]][..0] == [];
    }
  }

  /** An unparsable `created_at` anywhere aborts the whole request with 500 (where the service
      skips the card). */
  lemma BadTimestampAborts(xs: seq<Card>, bad: Card, ys: seq<Card>, parse: TimestampParser, month: string, cfg: Config)
    requires ParsedCreatedAt(bad, parse).None?
    ensures SelectByMonthNumber(xs + [bad] + ys, parse, month, cfg) == Failure(ServerError)
  {
    var cards := xs + [bad] + ys;
    SelectByMonthNumberFails(cards, parse, month, cfg);
    assert cards[|xs|] == bad;
  }

  /** The `"YYYY-MM"` month the service takes is not an integer: once a card parses, the
      handler answers 500 for it. */
  lemma YearMonthArgumentFails(cards: seq<Card>, parse: TimestampParser, ym: ValidYearMonth, cfg: Config)
    requires cards != []
    ensures SelectByMonthNumber(cards, parse, FormatYearMonth(ym), cfg) == Failure(ServerError)
  {
    ParseIntRejectsYearMonth(ym);
    SelectByMonthNumberFails(cards, parse, FormatYearMonth(ym), cfg);
  }

  /** The year plays no part: a card of March 2023 in the category is selected by
      `month=03`, as it would be by `month=3`. */
  lemma YearIgnoredExample(parse: TimestampParser, card: Card)
    requires card.createdAt == Some("2023-03-10T09:00:00-03:00")
    requires parse("2023-03-10T09:00:00-03:00") == Some(YearMonth(2023, 3))
    requires card.fields == [Field("Componente -> Suporte a Sistemas", "TOTVS Datasul")]
    ensures SelectByMonthNumber([card], parse, "03", Pipefy) == Success([card])
  {
    assert Fixed(3, 2) == "03";
    ParseIntFixed(3, 2);
    assert card.fields[0] in card.fields;
    assert MatchesCategory(card.fields, Pipefy.categoryField, Pipefy.categories);
    assert ParsedCreatedAt(card, parse) == Some(YearMonth(2023, 3));
    assert ParseInt("03") == Some(3);
    assert [card][1..] == [];
    assert SelectByMonthNumber([card][1..], parse, "03", Pipefy) == Success([]);
    assert [card][0] == card && [card] != [];
    assert [card] + [] == [card];
  }

  /** The JSON body of `get_pipefy_cards_by_month`. */
  datatype MonthTotals = MonthTotals(totals: Tally, completed: Tally)

  /** The inner loop over one card's fields: `totals[v] += 1`, and `completed[v] += 1` too when
      the card is concluded. */
  method TallyTotalsCompleted(totals: Tally, completed: Tally, card: Card, cfg: Config)
    returns (totals': Tally, completed': Tally)
    requires WellFormed(totals) && Keys(completed) == Keys(totals)
    ensures WellFormed(totals') && Keys(totals') == Keys(totals) && Keys(completed') == Keys(totals)
    ensures forall k :: Get(totals', k) == Get(totals, k) + (if k in Keys(totals) then FieldHits(card.fields, cfg.categoryField, k) else 0)
    ensures forall k :: Get(completed', k)
                     == Get(completed, k) + (if k in Keys(totals) && card.phase == cfg.terminalPhase then FieldHits(card.fields, cfg.categoryField, k) else 0)
  {
    totals', completed' := totals, completed;
    var fields := card.fields;
    for j := 0 to |fields|
      invariant WellFormed(totals') && Keys(totals') == Keys(totals) && Keys(completed') == Keys(totals)
      invariant forall k :: Get(totals', k) == Get(totals, k) + (if k in Keys(totals) then FieldHits(fields[..j], cfg.categoryField, k) else 0)
      invariant forall k :: Get(completed', k)
                         == Get(completed, k) + (if k in Keys(totals) && card.phase == cfg.terminalPhase then FieldHits(fields[..j], cfg.categoryField, k) else 0)
    {
      var field := fields[j];
      assert fields[..j + 1][..j] == fields[..j];
      if field.name == cfg.categoryField && field.value in Keys(totals') {
        BumpWellFormed(totals', field.value);
        totals' := Bump(totals', field.value);
        if card.phase == cfg.terminalPhase {
          completed' := Bump(completed', field.value);
        }
      }
    }
    assert fields[..|fields|] == fields;
  }

  /** One selected card, counted into both dicts, keeps them equal to their specifications. */
  lemma TotalsCompletedStep(prefix: seq<Card>, card: Card, cfg: Config, completed: Tally, totals': Tally, completed': Tally)
    requires Distinct(cfg.categories)
    requires completed == CountsFor(CardsInPhase(prefix, cfg.terminalPhase), cfg.categoryField, cfg.categories)
    requires Keys(totals') == cfg.categories && Keys(completed') == cfg.categories
    requires forall k :: Get(totals', k) == Get(CountsFor(prefix, cfg.categoryField, cfg.categories), k)
                         + (if k in cfg.categories then FieldHits(card.fields, cfg.categoryField, k) else 0)
    requires forall k :: Get(completed', k)
                         == Get(completed, k) + (if k in cfg.categories && card.phase == cfg.terminalPhase then FieldHits(card.fields, cfg.categoryField, k) else 0)
    ensures totals' == CountsFor(prefix + [card], cfg.categoryField, cfg.categories)
    ensures completed' == CountsFor(CardsInPhase(prefix + [card], cfg.terminalPhase), cfg.categoryField, cfg.categories)
  {
    CountsStep(prefix, card, cfg.categoryField, cfg.categories, totals');
    var cards := prefix + [card];
    assert cards[..|prefix|] == prefix;
    FilterStep(cards, |prefix|, (c: Card) => c.phase == cfg.terminalPhase);
    assert cards[..|prefix| + 1] == cards;
    if card.phase == cfg.terminalPhase {
      CountsStep(CardsInPhase(prefix, cfg.terminalPhase), card, cfg.categoryField, cfg.categories, completed');
    } else {
      assert CardsInPhase(cards, cfg.terminalPhase) == CardsInPhase(prefix, cfg.terminalPhase);
      CountsForGet(CardsInPhase(prefix, cfg.terminalPhase), cfg.categoryField, cfg.categories);
      TallyExt(completed', completed);
    }
  }

  /** The counting loop of `get_pipefy_cards_by_month`: `totals` counts the matching fields of
      every selected card, `completed` those of the concluded ones. */
  method CountTotalsCompleted(selected: seq<Card>, cfg: Config) returns (result: MonthTotals)
    requires Distinct(cfg.categories)
    ensures result.totals == CountsFor(selected, cfg.categoryField, cfg.categories)
    ensures result.completed == CountsFor(CardsInPhase(selected, cfg.terminalPhase), cfg.categoryField, cfg.categories)
  {
    var totals := Zeros(cfg.categories);
    var completed := Zeros(cfg.categories);
    CountsForNoCards(cfg.categoryField, cfg.categories);
    for i := 0 to |selected|
      invariant totals == CountsFor(selected[..i], cfg.categoryField, cfg.categories)
      invariant completed == CountsFor(CardsInPhase(selected[..i], cfg.terminalPhase), cfg.categoryField, cfg.categories)
    {
      var card := selected[i];
      assert selected[..i + 1] == selected[..i] + [card];
      CountsForGet(selected[..i], cfg.categoryField, cfg.categories);
      var totals', completed' := TallyTotalsCompleted(totals, completed, card, cfg);
      TotalsCompletedStep(selected[..i], card, cfg, completed, totals', completed');
      totals, completed := totals', completed';
    }
    assert selected[..|selected|] == selected;
    return MonthTotals(totals, completed);
  }

  /** The response of `get_pipefy_cards_by_month` once `month` was given, from the fetch result. */
  function ByMonthOf(fetched: Result<seq<Card>, FetchError>, parse: TimestampParser, month: string, cfg: Config)
    : Result<MonthTotals, HandlerError>
  {
    match fetched
    case Failure(_) => Failure(ServerError)
    case Success(cards) =>
      match SelectByMonthNumber(cards, parse, month, cfg)
      case Failure(e) => Failure(e)
      case Success(selected) =>
        Success(MonthTotals(
          CountsFor(selected, cfg.categoryField, cfg.categories),
          CountsFor(CardsInPhase(selected, cfg.terminalPhase), cfg.categoryField, cfg.categories)))
  }

  /** `request.args.get('month')` is present and non-empty. */
  predicate MonthGiven(month: Option<string>)
  {
    month.Some? && month.value != ""
  }

  /** `get_pipefy_cards_by_month`: a missing or empty `month` is answered 400 before anything is
      fetched (the page source need not even terminate); otherwise fetch, select, count. */
  method GetPipefyCardsByMonth(api: Api, parse: TimestampParser, cfg: Config, month: Option<string>, ghost bound: nat)
    returns (r: Result<MonthTotals, HandlerError>)
    requires Distinct(cfg.categories)
    requires MonthGiven(month) ==> EndsWithin(api, cfg.pipeId, None, bound)
    ensures !MonthGiven(month) ==> r == Failure(BadRequest)
    ensures MonthGiven(month) ==> r == ByMonthOf(Collect(api, cfg.pipeId, None, bound), parse, month.value, cfg)
  {
    if month.None? || month.value == "" {
      return Failure(BadRequest);
    }
    var fetched, trace := FetchPages(api, cfg.pipeId, bound);
    if fetched.Failure? {
      return Failure(ServerError);
    }
    var selection := SelectByMonthNumber(fetched.value, parse, month.value, cfg);
    if selection.Failure? {
      return Failure(selection.error);
    }
    var counted := CountTotalsCompleted(selection.value, cfg);
    return Success(counted);
  }

  lemma {:induction false} CardHitsOfSubsequence(xs: seq<Card>, ys: seq<Card>, name: string, value: string)
    requires SubsequenceOf(xs, ys)
    ensures CardHits(xs, name, value) <= CardHits(ys, name, value)
    decreases |ys|
  {
    if xs != [] && ys != [] {
      if xs[|xs| - 1] == ys[|ys| - 1] && SubsequenceOf(xs[..|xs| - 1], ys[..|ys| - 1]) {
        CardHitsOfSubsequence(xs[..|xs| - 1], ys[..|ys| - 1], name, value);
      } else {
        CardHitsOfSubsequence(xs, ys[..|ys| - 1], name, value);
      }
    }
  }

  /** Both dicts have exactly the configured keys, and for every category `completed` never
      exceeds `totals`. */
  lemma ByMonthCompletedBounded(selected: seq<Card>, cfg: Config)
    requires Distinct(cfg.categories)
    ensures var totals := CountsFor(selected, cfg.categoryField, cfg.categories);
      var completed := CountsFor(CardsInPhase(selected, cfg.terminalPhase), cfg.categoryField, cfg.categories);
      && Keys(totals) == Keys(completed) == cfg.categories
      && forall v :: Get(completed, v) <= Get(totals, v)
  {
    var done := CardsInPhase(selected, cfg.terminalPhase);
    CardsInPhaseMeaning(selected, cfg.terminalPhase);
    CountsForGet(selected, cfg.categoryField, cfg.categories);
    CountsForGet(done, cfg.categoryField, cfg.categories);
    forall v | v in cfg.categories
      ensures CardHits(done, cfg.categoryField, v) <= CardHits(selected, cfg.categoryField, v)
    {
      CardHitsOfSubsequence(done, selected, cfg.categoryField, v);
    }
  }
}
