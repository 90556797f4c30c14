/** A Python dict from strings to counters, with its insertion order: an association list
    whose keys are distinct. `list(d.keys())` and `list(d.values())` are `Keys` and `Values`. */
module Tallies {
  import opened Seqs

  datatype Entry = Entry(key: string, count: nat)

  type Tally = seq<Entry>

  function Keys(t: Tally): seq<string>
  {
    seq(|t|, i requires 0 <= i < |t| => t[i].key)
  }

  function Values(t: Tally): seq<nat>
  {
    seq(|t|, i requires 0 <= i < |t| => t[i].count)
  }

  /** Every key occurs once, as in a dict. */
  predicate WellFormed(t: Tally)
  {
    Distinct(Keys(t))
  }

  /** `d.get(k, 0)`. */
  function Get(t: Tally, k: string): nat
  {
    if t == [] then 0 else if t[0].key == k then t[0].count else Get(t[1..], k)
  }

  /** `sum(d.values())`. */
  function Sum(t: Tally): nat
  {
    if t == [] then 0 else t[0].count + Sum(t[1..])
  }

  /** The dict literal `{k: 0 for k in keys}`. */
  function Zeros(keys: seq<string>): (t: Tally)
    ensures Keys(t) == keys
    ensures forall k :: Get(t, k) == 0
    ensures Sum(t) == 0
  {
    if keys == [] then [] else [Entry(keys[0], 0)] + Zeros(keys[1..])
  }

  /** `d[k] = d.get(k, 0) + 1`: an existing key keeps its place, a new key goes last. */
  function Bump(t: Tally, k: string): (r: Tally)
    ensures forall j :: Get(r, j) == Get(t, j) + (if j == k then 1 else 0)
    ensures Keys(r) == if k in Keys(t) then Keys(t) else Keys(t) + [k]
    ensures Sum(r) == Sum(t) + 1
  {
    if t == [] then [Entry(k, 1)]
    else if t[0].key == k then
      assert Keys(t)[0] == k;
      [Entry(k, t[0].count + 1)] + t[1..]
    else
      var rest := Bump(t[1..], k);
      assert Keys(t) == [t[0].key] + Keys(t[1..]);
      assert Keys([t[0]] + rest) == [t[0].key] + Keys(rest);
      [t[0]] + rest
  }

  /** Bumping keeps the keys distinct. */
  lemma BumpWellFormed(t: Tally, k: string)
    requires WellFormed(t)
    ensures WellFormed(Bump(t, k))
  {
    var ks := Keys(t);
    if k !in ks {
      assert Keys(Bump(t, k)) == ks + [k];
    }
  }

  /** In a dict, the value listed at position `i` is the value of the key listed at `i`. */
  lemma {:induction false} GetAt(t: Tally, i: nat)
    requires WellFormed(t) && i < |t|
    ensures Get(t, t[i].key) == t[i].count
  {
    if i > 0 {
      assert Keys(t)[0] != Keys(t)[i];
      assert Keys(t[1..]) == Keys(t)[1..];
      GetAt(t[1..], i - 1);
    }
  }

  /** A key that is not present reads as 0. */
  lemma {:induction false} GetAbsent(t: Tally, k: string)
    requires k !in Keys(t)
    ensures Get(t, k) == 0
  {
    if t != [] {
      assert Keys(t[1..]) == Keys(t)[1..];
      assert Keys(t)[0] == t[0].key;
      GetAbsent(t[1..], k);
    }
  }

  /** A dict is determined by its key order and its lookups. */
  lemma TallyExt(a: Tally, b: Tally)
    requires WellFormed(a) && Keys(a) == Keys(b)
    requires forall k :: Get(a, k) == Get(b, k)
    ensures a == b
  {
    assert |a| == |Keys(a)| == |Keys(b)| == |b|;
    forall i | 0 <= i < |a|
      ensures a[i] == b[i]
    {
      assert a[i].key == Keys(a)[i] == Keys(b)[i] == b[i].key;
      GetAt(a, i);
      GetAt(b, i);
    }
  }
}
