/** The card records returned by the Pipefy GraphQL API, the hard-coded constants of the
    service and the handlers (gathered into a `Config`), and the field matcher: the
    `any(field["name"] == … and field["value"] … for field in card["node"]["fields"])`
    predicates and the per-field counters built on them. */
module Cards {
  import opened Wrappers
  import opened Seqs

  /** One entry of a card's schema-less `fields` list. */
  datatype Field = Field(name: string, value: string)

  /** The `node` of one edge of the `cards` connection. `createdAt` is `None` when the key is
      absent or null (the dashboard query does not even ask for it). */
  datatype Card = Card(id: string, title: string, fields: seq<Field>, phase: string, createdAt: Option<string>)

  /** The constants the service and the handlers hard-code. */
  datatype Config = Config(
    pipeId: int,                 // the pipe whose cards are fetched
    categoryField: string,       // the field naming the support category
    categories: seq<string>,     // the category values in scope, in dict-literal order
    terminalPhase: string)       // the phase of a concluded card

  /** The values written in app/services/pipefy_service.py and app/routes.py. */
  const Pipefy: Config := Config(303822738, "Componente -> Suporte a Sistemas", ["Meu RH", "TOTVS Datasul"], "Concluído")

  /** Some field has exactly this name and this value: the `any(...)` test of `filter_cards`. */
  predicate HasField(fields: seq<Field>, name: string, value: string)
    ensures HasField(fields, name, value) <==> Field(name, value) in fields
  {
    exists f :: f in fields && f.name == name && f.value == value
  }

  /** Some field has this name and a value among `allowed`: the `any(...)` category test.
      Category membership is the disjunction, over the allowed values, of exact matches. */
  predicate MatchesCategory(fields: seq<Field>, name: string, allowed: seq<string>)
    ensures MatchesCategory(fields, name, allowed) <==> exists v :: v in allowed && HasField(fields, name, v)
  {
    exists f :: f in fields && f.name == name && f.value in allowed
  }

  /** Number of fields with this name and this value. */
  function FieldHits(fields: seq<Field>, name: string, value: string): nat
  {
    if fields == [] then 0
    else FieldHits(fields[..|fields| - 1], name, value)
         + (if fields[|fields| - 1].name == name && fields[|fields| - 1].value == value then 1 else 0)
  }

  /** Number of fields with this name and a value among `allowed`. */
  function AllowedFieldHits(fields: seq<Field>, name: string, allowed: seq<string>): nat
  {
    if fields == [] then 0
    else AllowedFieldHits(fields[..|fields| - 1], name, allowed)
         + (if fields[|fields| - 1].name == name && fields[|fields| - 1].value in allowed then 1 else 0)
  }

  /** `FieldHits` summed over a sequence of cards. */
  function CardHits(cards: seq<Card>, name: string, value: string): nat
  {
    if cards == [] then 0
    else CardHits(cards[..|cards| - 1], name, value) + FieldHits(cards[|cards| - 1].fields, name, value)
  }

  /** `AllowedFieldHits` summed over a sequence of cards. */
  function AllowedCardHits(cards: seq<Card>, name: string, allowed: seq<string>): nat
  {
    if cards == [] then 0
    else AllowedCardHits(cards[..|cards| - 1], name, allowed) + AllowedFieldHits(cards[|cards| - 1].fields, name, allowed)
  }

  /** Number of cards currently in `phase`: `sum(1 for card in cards if phase == …)`. */
  function CountPhase(cards: seq<Card>, phase: string): nat
  {
    if cards == [] then 0
    else CountPhase(cards[..|cards| - 1], phase) + (if cards[|cards| - 1].phase == phase then 1 else 0)
  }

  /** The matcher and the counter agree: a field matches iff it is counted at least once. */
  lemma {:induction false} HasFieldIffCounted(fields: seq<Field>, name: string, value: string)
    ensures HasField(fields, name, value) <==> FieldHits(fields, name, value) > 0
  {
    if fields != [] {
      var init := fields[..|fields| - 1];
      HasFieldIffCounted(init, name, value);
      assert fields == init + [fields[|fields| - 1]];
    }
  }

  /** A card that matches the category contributes at least one category count. */
  lemma {:induction false} MatchingCardIsCounted(fields: seq<Field>, name: string, allowed: seq<string>)
    ensures MatchesCategory(fields, name, allowed) <==> AllowedFieldHits(fields, name, allowed) > 0
  {
    if fields != [] {
      var init := fields[..|fields| - 1];
      MatchingCardIsCounted(init, name, allowed);
      assert fields == init + [fields[|fields| - 1]];
    }
  }

  /** Fan-out lower bound: when every card matches the category, the category counts add up
      to at least the number of cards (more when a card carries several matching fields). */
  lemma {:induction false} CategoryHitsCoverCards(cards: seq<Card>, name: string, allowed: seq<string>)
    requires forall i :: 0 <= i < |cards| ==> MatchesCategory(cards[i].fields, name, allowed)
    ensures AllowedCardHits(cards, name, allowed) >= |cards|
  {
    if cards != [] {
      CategoryHitsCoverCards(cards[..|cards| - 1], name, allowed);
      MatchingCardIsCounted(cards[|cards| - 1].fields, name, allowed);
    }
  }

  /** The allowed-value counter is the sum of the per-value counters over distinct values. */
  lemma {:induction false} AllowedHitsSplit(fields: seq<Field>, name: string, allowed: seq<string>)
    requires Distinct(allowed)
    ensures AllowedFieldHits(fields, name, allowed) == SumHits(fields, name, allowed)
  {
    if fields == [] {
      SumHitsNone(name, allowed);
    } else {
      var init := fields[..|fields| - 1];
      var last := fields[|fields| - 1];
      assert fields == init + [last];
      AllowedHitsSplit(init, name, allowed);
      SumHitsStep(init, last, name, allowed);
      calc {
        AllowedFieldHits(fields, name, allowed);
        AllowedFieldHits(init, name, allowed) + (if last.name == name && last.value in allowed then 1 else 0);
        SumHits(init + [last], name, allowed);
      }
    }
  }

  /** Σ over `values` of `FieldHits`. */
  function SumHits(fields: seq<Field>, name: string, values: seq<string>): nat
  {
    if values == [] then 0 else FieldHits(fields, name, values[0]) + SumHits(fields, name, values[1..])
  }

  lemma {:induction false} SumHitsNone(name: string, values: seq<string>)
    ensures SumHits([], name, values) == 0
  {
    if values != [] {
      SumHitsNone(name, values[1..]);
    }
  }

  lemma {:induction false} SumHitsStep(fields: seq<Field>, f: Field, name: string, values: seq<string>)
    requires Distinct(values)
    ensures SumHits(fields + [f], name, values)
         == SumHits(fields, name, values) + (if f.name == name && f.value in values then 1 else 0)
  {
    assert (fields + [f])[..|fields|] == fields;
    if values != [] {
      SumHitsStep(fields, f, name, values[1..]);
      assert f.value in values <==> f.value == values[0] || f.value in values[1..];
      assert values[0] !in values[1..];
    }
  }
}
