/** Maps from keys to counters that are incremented one key at a time, and sums over maps. */
module Tallies {
  function Get(m: map<string, nat>, k: string): nat {
    if k in m then m[k] else 0
  }

  function Bump(m: map<string, nat>, k: string): map<string, nat> {
    m[k := Get(m, k) + 1]
  }

  /** The counters after the increments of `log`. */
  function Tally(log: seq<string>): map<string, nat> {
    if log == [] then map[] else Bump(Tally(log[..|log| - 1]), log[|log| - 1])
  }

  /** How often `k` occurs. */
  function Count(log: seq<string>, k: string): nat {
    if log == [] then 0 else Count(log[..|log| - 1], k) + if log[|log| - 1] == k then 1 else 0
  }

  lemma {:induction false} CountConcat(a: seq<string>, b: seq<string>, k: string)
    ensures Count(a + b, k) == Count(a, k) + Count(b, k)
    decreases b
  {
    if b == [] {
      assert a + b == a;
    } else {
      CountConcat(a, b[..|b| - 1], k);
      assert (a + b)[..|a + b| - 1] == a + b[..|b| - 1];
    }
  }

  lemma {:induction false} CountIn(log: seq<string>, k: string)
    ensures k in log <==> Count(log, k) > 0
  {
    if log != [] {
      CountIn(log[..|log| - 1], k);
      assert log == log[..|log| - 1] + [log[|log| - 1]];
    }
  }

  ghost function Total(m: map<string, nat>): nat
    decreases |m|
  {
    if m == map[] then 0 else var k :| k in m; Smaller(m, k); m[k] + Total(m - {k})
  }

  lemma Smaller(m: map<string, nat>, k: string)
    requires k in m
    ensures |m - {k}| < |m|
  {
    assert (m - {k}).Keys == m.Keys - {k};
    assert |m| == |m.Keys| && |m - {k}| == |(m - {k}).Keys|;
  }

  lemma {:induction false} TotalAt(m: map<string, nat>, k: string)
    requires k in m
    ensures Total(m) == m[k] + Total(m - {k})
    decreases |m|
  {
    var first :| first in m && Total(m) == m[first] + Total(m - {first});
    if first != k {
      Smaller(m, first);
      Smaller(m, k);
      TotalAt(m - {first}, k);
      TotalAt(m - {k}, first);
      assert m - {first} - {k} == m - {k} - {first};
    }
  }

  /** Every counter is the number of its increments. */
  lemma {:induction false} TallyCounts(log: seq<string>, k: string)
    ensures Get(Tally(log), k) == Count(log, k)
    ensures k in Tally(log) <==> k in log
  {
    if log != [] {
      TallyCounts(log[..|log| - 1], k);
      assert log == log[..|log| - 1] + [log[|log| - 1]];
    }
  }

  /** The counters add up to the number of increments. */
  lemma {:induction false} TallyTotal(log: seq<string>)
    ensures Total(Tally(log)) == |log|
  {
    if log != [] {
      var before, k := Tally(log[..|log| - 1]), log[|log| - 1];
      TallyTotal(log[..|log| - 1]);
      TotalAt(Bump(before, k), k);
      if k in before {
        TotalAt(before, k);
        assert Bump(before, k) - {k} == before - {k};
      } else {
        assert Bump(before, k) - {k} == before;
      }
    }
  }

  lemma TallyAppend(log: seq<string>, k: string)
    ensures Tally(log + [k]) == Bump(Tally(log), k)
  {
    assert (log + [k])[..|log|] == log;
  }
}
