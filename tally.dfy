/**
 * The group-by table the dashboard folds build: a dictionary from a key to
 * `{engagements, count}`, filled one row at a time in first-appearance order
 * (the order `Object.values` lists string keys in).
 *
 * A table is specified declaratively by `Tallies`: one entry per distinct key,
 * holding the number of rows with that key and the sum of their engagements.
 * The in-place update of one row is `Step`, and `TalliesSnoc` proves that
 * folding `Step` over the rows builds exactly `Tallies`.
 */
module Tally {
  import opened Wrappers

  /** What one row contributes: its key and its engagement count (`None`: `NaN`). */
  type Sample = (string, Option<int>)

  /** JavaScript `+` on numbers that may be `NaN`. */
  function AddNum(a: Option<int>, b: Option<int>): Option<int> {
    if a.None? || b.None? then None else Some(a.value + b.value)
  }

  /** The distinct keys of the samples, in order of first appearance. */
  function Keys(s: seq<Sample>): seq<string>
    decreases |s|
  {
    if s == [] then []
    else
      var ks := Keys(s[..|s| - 1]);
      if s[|s| - 1].0 in ks then ks else ks + [s[|s| - 1].0]
  }

  /** The number of samples with key `k`. */
  function Count(s: seq<Sample>, k: string): nat
    decreases |s|
  {
    if s == [] then 0
    else Count(s[..|s| - 1], k) + (if s[|s| - 1].0 == k then 1 else 0)
  }

  /** The sum of the engagements of the samples with key `k`, starting from 0. */
  function Sum(s: seq<Sample>, k: string): Option<int>
    decreases |s|
  {
    if s == [] then Some(0)
    else
      var p := Sum(s[..|s| - 1], k);
      if s[|s| - 1].0 == k then AddNum(p, s[|s| - 1].1) else p
  }

  /** One entry of a table: `{key, engagements, count}`. */
  datatype Tally = Tally(key: string, engagements: Option<int>, count: nat)

  function TallyOf(s: seq<Sample>, k: string): Tally {
    Tally(k, Sum(s, k), Count(s, k))
  }

  /** The table the samples should produce: one entry per distinct key. */
  function Tallies(s: seq<Sample>): seq<Tally> {
    seq(|Keys(s)|, j requires 0 <= j < |Keys(s)| => TallyOf(s, Keys(s)[j]))
  }

  /** The entry created on a key's first appearance: `{engagements: 0, count: 0}`. */
  function Fresh(k: string): Tally {
    Tally(k, Some(0), 0)
  }

  /** `entry.engagements += v; entry.count += 1` */
  function Bump(t: Tally, v: Option<int>): Tally {
    t.(engagements := AddNum(t.engagements, v), count := t.count + 1)
  }

  /** `acc[k]`: the position of the entry with key `k`, if there is one. */
  function FindKey(t: seq<Tally>, k: string): (r: Option<nat>)
    ensures r.Some? ==> r.value < |t| && t[r.value].key == k
    ensures r.None? ==> forall i :: 0 <= i < |t| ==> t[i].key != k
  {
    if t == [] then None
    else if t[|t| - 1].key == k then Some(|t| - 1)
    else FindKey(t[..|t| - 1], k)
  }

  /** The update one row makes: create the entry if the key is new, then bump it. */
  function Step(t: seq<Tally>, x: Sample): seq<Tally> {
    match FindKey(t, x.0)
    case Some(j) => t[j := Bump(t[j], x.1)]
    case None => t + [Bump(Fresh(x.0), x.1)]
  }

  /** The sum of the counts of a table's entries. */
  function TotalCount(t: seq<Tally>): nat
    decreases |t|
  {
    if t == [] then 0 else TotalCount(t[..|t| - 1]) + t[|t| - 1].count
  }

  /** The keys of a table are distinct. */
  lemma {:induction false} KeysDistinct(s: seq<Sample>)
    ensures forall i, j :: 0 <= i < j < |Keys(s)| ==> Keys(s)[i] != Keys(s)[j]
    decreases |s|
  {
    if s != [] {
      KeysDistinct(s[..|s| - 1]);
    }
  }

  /** A key is in the table exactly when some sample carries it; a key no sample carries counts 0 and sums 0. */
  lemma {:induction false} KeysExact(s: seq<Sample>, k: string)
    ensures k in Keys(s) <==> Count(s, k) > 0
    ensures Count(s, k) == 0 ==> Sum(s, k) == Some(0)
    decreases |s|
  {
    if s != [] {
      KeysExact(s[..|s| - 1], k);
    }
  }

  /** A key is in the table exactly when some sample carries it. */
  lemma {:induction false} KeysOccur(s: seq<Sample>, k: string)
    ensures k in Keys(s) <==> exists m :: 0 <= m < |s| && s[m].0 == k
    decreases |s|
  {
    if s != [] {
      var p := s[..|s| - 1];
      KeysOccur(p, k);
      assert forall m :: 0 <= m < |p| ==> p[m] == s[m];
    }
  }

  /** Adding one sample changes the table exactly as the in-place update does. */
  lemma TalliesSnoc(s: seq<Sample>, x: Sample)
    ensures Tallies(s + [x]) == Step(Tallies(s), x)
  {
    var s' := s + [x];
    var k := x.0;
    assert s'[..|s'| - 1] == s && s'[|s'| - 1] == x;
    var t, t' := Tallies(s), Tallies(s');
    KeysDistinct(s);
    forall q | q != k
      ensures TallyOf(s', q) == TallyOf(s, q)
    {
    }
    assert TallyOf(s', k) == Bump(TallyOf(s, k), x.1);
    match FindKey(t, k)
    case Some(j) =>
      assert Keys(s)[j] == k;
      assert Keys(s') == Keys(s);
      forall i | 0 <= i < |t'|
        ensures t'[i] == t[j := Bump(t[j], x.1)][i]
      {
        if i != j {
          assert Keys(s)[i] != k;
        }
      }
    case None =>
      assert k !in Keys(s) by {
        forall i | 0 <= i < |Keys(s)| ensures Keys(s)[i] != k {
          assert t[i].key == Keys(s)[i];
        }
      }
      KeysExact(s, k);
      assert Keys(s') == Keys(s) + [k];
      forall i | 0 <= i < |t'|
        ensures t'[i] == (t + [Bump(Fresh(k), x.1)])[i]
      {
        if i < |t| {
          assert Keys(s)[i] != k;
        }
      }
  }

  /** The entries of the table carry the distinct keys, in order. */
  lemma TalliesKeys(s: seq<Sample>)
    ensures |Tallies(s)| == |Keys(s)|
    ensures forall m :: 0 <= m < |Keys(s)| ==> Tallies(s)[m].key == Keys(s)[m]
  {
  }

  /** Among distinct keys, `FindKey` finds the one position holding the key. */
  lemma FindKeyAt(t: seq<Tally>, j: nat, k: string)
    requires j < |t| && t[j].key == k
    requires forall a, b :: 0 <= a < b < |t| ==> t[a].key != t[b].key
    ensures FindKey(t, k) == Some(j)
  {
  }

  /** A sample whose key is already in the table bumps that key's entry and nothing else. */
  lemma TalliesSnocFound(s: seq<Sample>, x: Sample, j: nat)
    requires j < |Keys(s)| && Keys(s)[j] == x.0
    ensures Tallies(s + [x]) == Tallies(s)[j := Bump(Tallies(s)[j], x.1)]
  {
    TalliesSnoc(s, x);
    TalliesKeys(s);
    KeysDistinct(s);
    FindKeyAt(Tallies(s), j, x.0);
  }

  /** A sample with a new key appends an entry holding just that sample. */
  lemma TalliesSnocNew(s: seq<Sample>, x: Sample)
    requires x.0 !in Keys(s)
    ensures Tallies(s + [x]) == Tallies(s) + [Bump(Fresh(x.0), x.1)]
  {
    TalliesSnoc(s, x);
    TalliesKeys(s);
    assert FindKey(Tallies(s), x.0).None?;
  }

  /** Replacing one entry changes the total count by the difference of the two counts. */
  lemma {:induction false} TotalCountUpdate(t: seq<Tally>, j: nat, e: Tally)
    requires j < |t|
    ensures TotalCount(t[j := e]) == TotalCount(t) - t[j].count + e.count
    decreases |t|
  {
    var u := t[j := e];
    if j < |t| - 1 {
      assert u[..|u| - 1] == t[..|t| - 1][j := e];
      TotalCountUpdate(t[..|t| - 1], j, e);
    } else {
      assert u[..|u| - 1] == t[..|t| - 1];
    }
  }

  /** Every row adds exactly one to the total count. */
  lemma TotalCountStep(t: seq<Tally>, x: Sample)
    ensures TotalCount(Step(t, x)) == TotalCount(t) + 1
  {
    match FindKey(t, x.0)
    case Some(j) =>
      TotalCountUpdate(t, j, Bump(t[j], x.1));
    case None =>
      var u := t + [Bump(Fresh(x.0), x.1)];
      assert u[..|u| - 1] == t;
  }

  /** The counts of a table add up to the number of samples it was built from. */
  lemma {:induction false} CountsCoverSamples(s: seq<Sample>)
    ensures TotalCount(Tallies(s)) == |s|
    decreases |s|
  {
    if s == [] {
    } else {
      var p := s[..|s| - 1];
      CountsCoverSamples(p);
      TalliesSnoc(p, s[|s| - 1]);
      assert p + [s[|s| - 1]] == s;
      TotalCountStep(Tallies(p), s[|s| - 1]);
    }
  }

  /** The key column of the samples. */
  function KeyColumn(s: seq<Sample>): seq<string> {
    seq(|s|, i requires 0 <= i < |s| => s[i].0)
  }

  /** `Count` is the multiplicity of the key among the samples' keys. */
  lemma {:induction false} CountIsMultiplicity(s: seq<Sample>, k: string)
    ensures Count(s, k) == multiset(KeyColumn(s))[k]
    decreases |s|
  {
    if s != [] {
      var p := s[..|s| - 1];
      CountIsMultiplicity(p, k);
      assert KeyColumn(s) == KeyColumn(p) + [s[|s| - 1].0];
    }
  }
}
