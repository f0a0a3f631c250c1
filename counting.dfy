/** Counting values into a dictionary, as the stats and summary loops do with
    `d[k] = d.get(k, 0) + 1`, and the sum of a dictionary's counts. */
module Counting {

  /** Number of occurrences of `k` in `xs`. */
  function Count(xs: seq<string>, k: string): nat
    decreases |xs|
  {
    if |xs| == 0 then 0
    else Count(xs[..|xs| - 1], k) + (if xs[|xs| - 1] == k then 1 else 0)
  }

  /** `d[k] = d.get(k, 0) + 1`. */
  function Bump(d: map<string, nat>, k: string): map<string, nat> {
    d[k := (if k in d then d[k] else 0) + 1]
  }

  /** The dictionary the loop `for x in xs: d[x] = d.get(x, 0) + 1` builds from `{}`. */
  function Tally(xs: seq<string>): (d: map<string, nat>)
    ensures forall k :: k in d <==> k in xs
    decreases |xs|
  {
    if |xs| == 0 then map[] else Bump(Tally(xs[..|xs| - 1]), xs[|xs| - 1])
  }

  /** Every key of the tally holds the number of times it occurs. */
  lemma {:induction false} TallyCounts(xs: seq<string>, k: string)
    ensures k in Tally(xs) ==> Tally(xs)[k] == Count(xs, k)
    ensures k !in Tally(xs) ==> Count(xs, k) == 0
    decreases |xs|
  {
    if |xs| > 0 {
      TallyCounts(xs[..|xs| - 1], k);
    }
  }

  ghost function Pick(d: map<string, nat>): string
    requires |d| > 0
  {
    assert d.Keys != {};
    var k :| k in d; k
  }

  lemma CardRemove(d: map<string, nat>, k: string)
    requires k in d
    ensures |d - {k}| == |d| - 1
  {
    assert (d - {k}).Keys == d.Keys - {k};
  }

  /** The sum of a dictionary's values: `sum(d.values())`. */
  ghost function Total(d: map<string, nat>): nat
    decreases |d|
  {
    if |d| == 0 then 0
    else
      var k := Pick(d);
      CardRemove(d, k);
      d[k] + Total(d - {k})
  }

  /** The sum does not depend on which key is taken out first. */
  lemma {:induction false} TotalRemove(d: map<string, nat>, k: string)
    requires k in d
    ensures Total(d) == d[k] + Total(d - {k})
    decreases |d|
  {
    var j := Pick(d);
    CardRemove(d, k);
    CardRemove(d, j);
    if j != k {
      TotalRemove(d - {j}, k);
      TotalRemove(d - {k}, j);
      assert d - {j} - {k} == d - {k} - {j};
    }
  }

  /** Bumping `k` changes no other key. */
  lemma BumpRest(d: map<string, nat>, k: string)
    ensures Bump(d, k) - {k} == d - {k}
    ensures k !in d ==> d - {k} == d
  {
  }

  lemma TotalBump(d: map<string, nat>, k: string)
    ensures Total(Bump(d, k)) == Total(d) + 1
  {
    var b := Bump(d, k);
    BumpRest(d, k);
    TotalRemove(b, k);
    if k in d {
      TotalRemove(d, k);
    }
  }

  /** The counts of a tally add up to the number of values counted. */
  lemma {:induction false} TotalOfTally(xs: seq<string>)
    ensures Total(Tally(xs)) == |xs|
    decreases |xs|
  {
    if |xs| > 0 {
      TotalOfTally(xs[..|xs| - 1]);
      TotalBump(Tally(xs[..|xs| - 1]), xs[|xs| - 1]);
    }
  }

  /** The column `f` of a list of rows, the values a stats loop counts. */
  function Column<T>(rows: seq<T>, f: T -> string): (ks: seq<string>)
    ensures |ks| == |rows| && forall i :: 0 <= i < |rows| ==> ks[i] == f(rows[i])
  {
    seq(|rows|, i requires 0 <= i < |rows| => f(rows[i]))
  }

  /** The column of one more row is one more value. */
  lemma ColumnPrefix<T>(rows: seq<T>, f: T -> string, i: int)
    requires 0 <= i < |rows|
    ensures Column(rows[..i + 1], f) == Column(rows[..i], f) + [f(rows[i])]
  {
    assert rows[..i + 1][i] == rows[i];
  }

  /** Tallying one more value is one more bump. */
  lemma TallySnoc(xs: seq<string>, x: string)
    ensures Tally(xs + [x]) == Bump(Tally(xs), x)
  {
    assert (xs + [x])[..|xs|] == xs;
  }
}
