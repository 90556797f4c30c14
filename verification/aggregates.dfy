/** The counters both the service and the dashboard handlers build over a card sequence:
    per-category counts (one increment per matching field), the phase histogram with keys in
    first-seen order, and the titles of a card sequence. */
module Aggregates {
  import opened Seqs
  import opened Cards
  import opened Tallies

  /** The inner loop `for field in fields: if field["name"] == name and field["value"] in counts:
      counts[field["value"]] += 1`, shared by both counting loops. */
  method TallyFields(counts: Tally, fields: seq<Field>, name: string) returns (r: Tally)
    requires WellFormed(counts)
    ensures WellFormed(r) && Keys(r) == Keys(counts)
    ensures forall k :: Get(r, k) == Get(counts, k) + (if k in Keys(counts) then FieldHits(fields, name, k) else 0)
  {
    r := counts;
    for j := 0 to |fields|
      invariant WellFormed(r) && Keys(r) == Keys(counts)
      invariant forall k :: Get(r, k) == Get(counts, k) + (if k in Keys(counts) then FieldHits(fields[..j], name, k) else 0)
    {
      var field := fields[j];
      assert fields[..j + 1][..j] == fields[..j];
      if field.name == name && field.value in Keys(r) {
        BumpWellFormed(r, field.value);
        r := Bump(r, field.value);
      }
    }
    assert fields[..|fields|] == fields;
  }

  /** The category counts the source reports: for each value, in order, the number of fields
      of `cards` carrying that value under `name`. */
  function CountsFor(cards: seq<Card>, name: string, values: seq<string>): (t: Tally)
    ensures Keys(t) == values
  {
    if values == [] then []
    else
      var rest := CountsFor(cards, name, values[1..]);
      assert Keys([Entry(values[0], CardHits(cards, name, values[0]))] + rest) == [values[0]] + Keys(rest);
      [Entry(values[0], CardHits(cards, name, values[0]))] + rest
  }

  /** Looking up a category count. */
  lemma {:induction false} CountsForGet(cards: seq<Card>, name: string, values: seq<string>)
    requires Distinct(values)
    ensures WellFormed(CountsFor(cards, name, values))
    ensures forall k :: Get(CountsFor(cards, name, values), k) == if k in values then CardHits(cards, name, k) else 0
  {
    if values != [] {
      assert Distinct(values[1..]);
      CountsForGet(cards, name, values[1..]);
    }
  }

  /** Before any card, every category count is 0: `{v: 0 for v in values}`. */
  lemma CountsForNoCards(name: string, values: seq<string>)
    requires Distinct(values)
    ensures CountsFor([], name, values) == Zeros(values)
  {
    CountsForGet([], name, values);
    TallyExt(CountsFor([], name, values), Zeros(values));
  }

  /** One more card adds its matching fields to the counts. */
  lemma CountsForStep(cards: seq<Card>, c: Card, name: string, values: seq<string>)
    requires Distinct(values)
    ensures forall k :: Get(CountsFor(cards + [c], name, values), k)
                     == Get(CountsFor(cards, name, values), k) + (if k in values then FieldHits(c.fields, name, k) else 0)
  {
    assert (cards + [c])[..|cards|] == cards;
    CountsForGet(cards, name, values);
    CountsForGet(cards + [c], name, values);
  }

  /** The counts add up to the number of fields whose value is one of the categories. */
  lemma {:induction false} CountsForSum(cards: seq<Card>, name: string, values: seq<string>)
    requires Distinct(values)
    ensures Sum(CountsFor(cards, name, values)) == AllowedCardHits(cards, name, values)
  {
    if cards == [] {
      CountsForNoCards(name, values);
    } else {
      var init, c := cards[..|cards| - 1], cards[|cards| - 1];
      assert cards == init + [c];
      CountsForSum(init, name, values);
      CountsForSumStep(init, c, name, values);
      AllowedHitsSplit(c.fields, name, values);
    }
  }

  lemma {:induction false} CountsForSumStep(cards: seq<Card>, c: Card, name: string, values: seq<string>)
    ensures Sum(CountsFor(cards + [c], name, values)) == Sum(CountsFor(cards, name, values)) + SumHits(c.fields, name, values)
  {
    assert (cards + [c])[..|cards|] == cards;
    if values != [] {
      CountsForSumStep(cards, c, name, values[1..]);
    }
  }

  /** One step of the category counts: the counts after the inner field loop over `card` are
      the counts of the longer prefix. */
  lemma CountsStep(prefix: seq<Card>, card: Card, name: string, values: seq<string>, r: Tally)
    requires Distinct(values)
    requires Keys(r) == values
    requires forall k ::
               Get(r, k) == Get(CountsFor(prefix, name, values), k)
                            + (if k in values then FieldHits(card.fields, name, k) else 0)
    ensures r == CountsFor(prefix + [card], name, values)
  {
    CountsForStep(prefix, card, name, values);
    TallyExt(r, CountsFor(prefix + [card], name, values));
  }

  /** `current_phase.name` of each card. */
  function PhasesOf(cards: seq<Card>): seq<string>
  {
    seq(|cards|, i requires 0 <= i < |cards| => cards[i].phase)
  }

  /** The distinct elements of `xs` in the order of their first occurrence: the key order of a
      dict filled by `d[x] = d.get(x, 0) + 1` over `xs`. */
  function FirstSeen(xs: seq<string>): seq<string>
  {
    if xs == [] then []
    else
      var seen := FirstSeen(xs[..|xs| - 1]);
      if xs[|xs| - 1] in seen then seen else seen + [xs[|xs| - 1]]
  }

  /** The position of the first occurrence of `x` in `xs`. */
  function FirstIndex(xs: seq<string>, x: string): (i: nat)
    requires x in xs
    ensures i < |xs| && xs[i] == x && x !in xs[..i]
  {
    if xs[0] == x then 0
    else
      var i := 1 + FirstIndex(xs[1..], x);
      assert xs[..i] == [xs[0]] + xs[1..][..i - 1];
      i
  }

  /** A position holding `x` with no `x` before it is the first index of `x`. */
  lemma FirstIndexUnique(xs: seq<string>, x: string, j: nat)
    requires j < |xs| && xs[j] == x && x !in xs[..j]
    ensures FirstIndex(xs, x) == j
  {
  }

  /** Appending elements does not move the first occurrence of an element already present. */
  lemma FirstIndexAppend(xs: seq<string>, ys: seq<string>, x: string)
    requires x in xs
    ensures FirstIndex(xs + ys, x) == FirstIndex(xs, x)
  {
    var i := FirstIndex(xs, x);
    assert (xs + ys)[..i] == xs[..i];
    FirstIndexUnique(xs + ys, x, i);
  }

  /** The keys of the phase dict: each phase once, exactly the phases that occur, in the order
      of their first occurrence. */
  lemma {:induction false} FirstSeenMeaning(xs: seq<string>)
    ensures Distinct(FirstSeen(xs))
    ensures forall x :: x in FirstSeen(xs) <==> x in xs
    ensures forall i, j :: 0 <= i < j < |FirstSeen(xs)| ==>
              FirstIndex(xs, FirstSeen(xs)[i]) < FirstIndex(xs, FirstSeen(xs)[j])
  {
    if xs != [] {
      var init := xs[..|xs| - 1];
      var y := xs[|xs| - 1];
      var seen := FirstSeen(init);
      FirstSeenMeaning(init);
      assert xs == init + [y];
      forall k | k in seen ensures FirstIndex(xs, k) == FirstIndex(init, k) {
        FirstIndexAppend(init, [y], k);
      }
      if y !in seen {
        FirstIndexUnique(xs, y, |init|);
        assert FirstSeen(xs) == seen + [y];
        forall i, j | 0 <= i < j < |FirstSeen(xs)|
          ensures FirstIndex(xs, FirstSeen(xs)[i]) < FirstIndex(xs, FirstSeen(xs)[j])
        {
          assert FirstSeen(xs)[i] == seen[i];
          if j < |seen| {
            assert FirstSeen(xs)[j] == seen[j];
          }
        }
      }
    }
  }

  /** The phase histogram: each phase that occurs, in first-seen order, with its card count. */
  function PhaseHistogram(cards: seq<Card>): Tally
  {
    var ks := FirstSeen(PhasesOf(cards));
    seq(|ks|, i requires 0 <= i < |ks| => Entry(ks[i], CountPhase(cards, ks[i])))
  }

  lemma CountPhaseAbsent(cards: seq<Card>, p: string)
    requires p !in PhasesOf(cards)
    ensures CountPhase(cards, p) == 0
  {
    if cards != [] {
      var init := cards[..|cards| - 1];
      assert PhasesOf(init) == PhasesOf(cards)[..|cards| - 1];
      CountPhaseAbsent(init, p);
      assert PhasesOf(cards)[|cards| - 1] == cards[|cards| - 1].phase;
    }
  }

  /** The histogram is a dict whose keys are the phases that occur, each mapped to its count. */
  lemma PhaseHistogramGet(cards: seq<Card>)
    ensures Keys(PhaseHistogram(cards)) == FirstSeen(PhasesOf(cards))
    ensures WellFormed(PhaseHistogram(cards))
    ensures forall p :: Get(PhaseHistogram(cards), p) == CountPhase(cards, p)
  {
    var h := PhaseHistogram(cards);
    var ks := FirstSeen(PhasesOf(cards));
    assert Keys(h) == ks;
    FirstSeenMeaning(PhasesOf(cards));
    forall p
      ensures Get(h, p) == CountPhase(cards, p)
    {
      if p in ks {
        var i :| 0 <= i < |ks| && ks[i] == p;
        GetAt(h, i);
      } else {
        GetAbsent(h, p);
        CountPhaseAbsent(cards, p);
      }
    }
  }

  /** One more card bumps its phase: `phases_count[phase] = phases_count.get(phase, 0) + 1`. */
  lemma PhaseHistogramStep(cards: seq<Card>, c: Card)
    ensures PhaseHistogram(cards + [c]) == Bump(PhaseHistogram(cards), c.phase)
  {
    var s := cards + [c];
    assert s[..|cards|] == cards;
    assert PhasesOf(s) == PhasesOf(cards) + [c.phase];
    assert PhasesOf(s)[..|cards|] == PhasesOf(cards);
    PhaseHistogramGet(cards);
    PhaseHistogramGet(s);
    BumpWellFormed(PhaseHistogram(cards), c.phase);
    TallyExt(Bump(PhaseHistogram(cards), c.phase), PhaseHistogram(s));
  }

  /** Every card is counted once in the histogram. */
  lemma {:induction false} PhaseHistogramSum(cards: seq<Card>)
    ensures Sum(PhaseHistogram(cards)) == |cards|
  {
    if cards != [] {
      var init := cards[..|cards| - 1];
      assert cards == init + [cards[|cards| - 1]];
      PhaseHistogramSum(init);
      PhaseHistogramStep(init, cards[|cards| - 1]);
    }
  }

  /** `card["node"]["title"]` of each card. */
  function Titles(cards: seq<Card>): (r: seq<string>)
  {
    seq(|cards|, i requires 0 <= i < |cards| => cards[i].title)
  }

  lemma TitlesAppend(a: seq<Card>, b: seq<Card>)
    ensures Titles(a + b) == Titles(a) + Titles(b)
  {
  }

  /** The cards currently in `phase`, in order. */
  function CardsInPhase(cards: seq<Card>, phase: string): seq<Card>
  {
    Filter(cards, (c: Card) => c.phase == phase)
  }

  lemma {:induction false} CardsInPhaseCount(cards: seq<Card>, phase: string)
    ensures |CardsInPhase(cards, phase)| == CountPhase(cards, phase)
  {
    if cards != [] {
      CardsInPhaseCount(cards[..|cards| - 1], phase);
    }
  }

  lemma CardsInPhaseMeaning(cards: seq<Card>, phase: string)
    ensures forall c :: c in CardsInPhase(cards, phase) <==> c in cards && c.phase == phase
    ensures SubsequenceOf(CardsInPhase(cards, phase), cards)
    ensures |CardsInPhase(cards, phase)| == CountPhase(cards, phase)
  {
    FilterMembers(cards, (c: Card) => c.phase == phase);
    FilterIsSubsequence(cards, (c: Card) => c.phase == phase);
    CardsInPhaseCount(cards, phase);
  }
}
