/** Correlation ids (`nextCorrelationID` in internal/protocolclient/client.go): one call after the
    other, and concurrent calls in every interleaving of their two atomic operations. */
module CorrelationIds {
  import opened Wrappers
  import opened Wire

  /** The id after `n`, which is also the counter after the call. */
  function NextId(n: Int32): Int32 {
    if Cast32(n + 1) <= 0 then 1 else Cast32(n + 1)
  }

  /** The id of the `k`-th of a series of calls, of which none starts before the last one ended. */
  function IdAfter(start: Int32, k: nat): Int32 {
    if k == 0 then start else NextId(IdAfter(start, k - 1))
  }

  /** From a counter that is not negative the ids run round and round through 1 .. 2^31 - 1. */
  lemma {:induction false} IdFormula(start: Int32, k: nat)
    requires start >= 0
    ensures k > 0 ==> IdAfter(start, k) == (start + k - 1) % MAX_INT32 + 1
    ensures IdAfter(start, k) >= 0
  {
    hide NextId;
    if k > 1 {
      IdFormula(start, k - 1);
      NextIs(IdAfter(start, k - 1));
      ModuloNext(start + k - 2);
    } else if k == 1 {
      NextIs(start);
    }
  }

  lemma NextIs(n: Int32)
    requires n >= 0
    ensures NextId(n) == if n == MAX_INT32 then 1 else n + 1
    ensures n % MAX_INT32 + 1 == NextId(n)
  {}

  lemma ModuloNext(n: nat)
    ensures (n + 1) % MAX_INT32 == if n % MAX_INT32 == MAX_INT32 - 1 then 0 else n % MAX_INT32 + 1
  {}

  /** Any 2^31 - 1 consecutive calls return distinct positive ids. */
  lemma IdsAreDistinct(start: Int32, i: nat, j: nat)
    requires start >= 0 && 0 < i < j < i + MAX_INT32
    ensures IdAfter(start, i) > 0 && IdAfter(start, j) > 0 && IdAfter(start, i) != IdAfter(start, j)
  {
    IdFormula(start, i);
    IdFormula(start, j);
    ModuloApart(start + i - 1, start + j - 1);
  }

  lemma ModuloApart(x: nat, y: nat)
    requires x < y < x + MAX_INT32
    ensures x % MAX_INT32 != y % MAX_INT32
  {}

  lemma {:induction false} IdAfterSum(start: Int32, m: nat, n: nat)
    ensures IdAfter(IdAfter(start, m), n) == IdAfter(start, m + n)
  {
    if n > 0 {
      IdAfterSum(start, m, n - 1);
    }
  }

  // The two atomic operations of `nextCorrelationID`, interleaved by concurrent callers.

  datatype Caller = Idle | Added(next: Int32) | Returned(id: Int32)

  datatype Counter = Counter(value: Int32, callers: seq<Caller>)

  datatype CounterStep = Add(caller: nat) | Finish(caller: nat)

  function CounterApply(s: Counter, l: CounterStep): Option<Counter> {
    match l
    case Add(c) =>
      if c < |s.callers| && s.callers[c].Idle? then
        var next := Cast32(s.value + 1);
        Some(Counter(next, s.callers[c := Added(next)]))
      else None
    case Finish(c) =>
      if c < |s.callers| && s.callers[c].Added? then
        var next := s.callers[c].next;
        Some(if next <= 0 then Counter(1, s.callers[c := Returned(1)])
             else Counter(s.value, s.callers[c := Returned(next)]))
      else None
  }

  function CounterRun(s: Counter, labels: seq<CounterStep>): Option<Counter> {
    if labels == [] then Some(s)
    else
      var before := CounterRun(s, labels[..|labels| - 1]);
      if before.None? then None else CounterApply(before.value, labels[|labels| - 1])
  }

  function IdOf(c: Caller): Option<Int32> {
    match c
    case Idle => None
    case Added(n) => Some(n)
    case Returned(n) => Some(n)
  }

  function Idles(callers: seq<Caller>): nat {
    if callers == [] then 0
    else Idles(callers[..|callers| - 1]) + (if callers[|callers| - 1].Idle? then 1 else 0)
  }

  lemma {:induction false} IdlesUpdate(callers: seq<Caller>, c: nat, x: Caller)
    requires c < |callers|
    ensures Idles(callers[c := x]) + (if callers[c].Idle? then 1 else 0) == Idles(callers) + (if x.Idle? then 1 else 0)
  {
    var n := |callers| - 1;
    if c == n {
      assert callers[c := x][..n] == callers[..n];
    } else {
      assert callers[c := x][..n] == callers[..n][c := x];
      IdlesUpdate(callers[..n], c, x);
    }
  }

  /** `n` callers that have not started, and a counter at `start`. */
  function Fresh(start: Int32, n: nat): Counter {
    Counter(start, seq(n, _ => Idle))
  }

  /** The id that a caller has returned or is going to return. */
  function Effective(c: Caller): int {
    match c
    case Idle => 0
    case Added(n) => if n <= 0 then 1 else n
    case Returned(n) => n
  }

  /** All callers have ids without a second one for 1: the counter may pass its maximum once, and
      only if 1 was not given out before. */
  predicate Room(start: Int32, n: nat) {
    if start == 0 then n <= MAX_INT32 else start + n <= MAX_INT32 + 1
  }

  /** No two callers that have returned have the same id, and every id is positive. */
  predicate Distinct(s: Counter) {
    && (forall c :: 0 <= c < |s.callers| && s.callers[c].Returned? ==> s.callers[c].id > 0)
    && forall c, d :: 0 <= c < d < |s.callers| && s.callers[c].Returned? && s.callers[d].Returned? ==>
                        s.callers[c].id != s.callers[d].id
  }

  ghost predicate AlwaysDistinct(start: Int32, n: nat) {
    forall labels :: CounterRun(Fresh(start, n), labels).Some? ==>
                       Distinct(CounterRun(Fresh(start, n), labels).value)
  }

  // ------------------------------------------------------------------ with enough room

  /** `p` is where the counter would stand without the wrap-around. */
  predicate CounterOk(start: Int32, n: nat, s: Counter) {
    var p := start + n - Idles(s.callers);
    && |s.callers| == n && start <= p <= MAX_INT32 + 1 && Room(start, n)
    && (p <= MAX_INT32 ==> s.value == p)
    && (forall c :: 0 <= c < n && !s.callers[c].Idle? ==> IdOk(start, p, s.callers[c]))
    && forall c, d :: 0 <= c < d < n && !s.callers[c].Idle? && !s.callers[d].Idle? ==>
                        Effective(s.callers[c]) != Effective(s.callers[d])
  }

  predicate IdOk(start: Int32, p: int, c: Caller)
    requires !c.Idle?
  {
    if p <= MAX_INT32 then start < IdOf(c).value <= p
    else Effective(c) == 1 || start < Effective(c) <= MAX_INT32
  }

  /** What a step does to its caller's id, and to the counter as long as it has not wrapped. */
  lemma StepFacts(start: Int32, n: nat, s: Counter, l: CounterStep)
    requires start >= 0 && CounterOk(start, n, s) && CounterApply(s, l).Some?
    ensures var t, c, p := CounterApply(s, l).value, l.caller, start + n - Idles(s.callers);
            && c < n && |t.callers| == n && t.callers == s.callers[c := t.callers[c]] && !t.callers[c].Idle?
            && (l.Add? ==> s.callers[c].Idle? && p <= MAX_INT32)
            && (l.Add? && p < MAX_INT32 ==>
                  t.value == p + 1 && IdOf(t.callers[c]) == Some(p + 1) && Effective(t.callers[c]) == p + 1)
            && (l.Add? && p == MAX_INT32 ==> Effective(t.callers[c]) == 1)
            && (l.Finish? ==> !s.callers[c].Idle? && Effective(t.callers[c]) == Effective(s.callers[c]))
            && (l.Finish? && p <= MAX_INT32 ==> t.value == s.value && IdOf(t.callers[c]) == IdOf(s.callers[c]))
  {
    var t, c := CounterApply(s, l).value, l.caller;
    IdlesUpdate(s.callers, c, t.callers[c]);
    hide Idles;
    assert !s.callers[c].Idle? ==> IdOk(start, start + n - Idles(s.callers), s.callers[c]);
  }

  lemma CounterKept(start: Int32, n: nat, s: Counter, l: CounterStep)
    requires start >= 0 && CounterOk(start, n, s) && CounterApply(s, l).Some?
    ensures CounterOk(start, n, CounterApply(s, l).value)
  {
    StepFacts(start, n, s, l);
    hide CounterApply, Idles, Effective, IdOf;
    var t, c := CounterApply(s, l).value, l.caller;
    IdlesUpdate(s.callers, c, t.callers[c]);
  }

  lemma {:induction false} RunOk(start: Int32, n: nat, labels: seq<CounterStep>)
    requires start >= 0 && Room(start, n) && CounterRun(Fresh(start, n), labels).Some?
    ensures CounterOk(start, n, CounterRun(Fresh(start, n), labels).value)
  {
    hide CounterOk, CounterApply;
    if labels == [] {
      FreshOk(start, n);
    } else {
      RunOk(start, n, labels[..|labels| - 1]);
      CounterKept(start, n, CounterRun(Fresh(start, n), labels[..|labels| - 1]).value, labels[|labels| - 1]);
    }
  }

  lemma FreshOk(start: Int32, n: nat)
    requires start >= 0 && Room(start, n)
    ensures CounterOk(start, n, Fresh(start, n))
  {
    AllIdle(Fresh(start, n).callers);
  }

  lemma {:induction false} AllIdle(callers: seq<Caller>)
    requires forall c :: 0 <= c < |callers| ==> callers[c].Idle?
    ensures Idles(callers) == |callers|
  {
    if callers != [] {
      AllIdle(callers[..|callers| - 1]);
    }
  }

  lemma OkIsDistinct(start: Int32, n: nat, s: Counter)
    requires start >= 0 && CounterOk(start, n, s)
    ensures Distinct(s)
  {
    hide Idles;
    forall c | 0 <= c < n && s.callers[c].Returned?
      ensures s.callers[c].id == Effective(s.callers[c]) > 0
    {
      assert IdOk(start, start + n - Idles(s.callers), s.callers[c]);
    }
  }

  // --------------------------------------------------------------------- without it

  /** The first `m` callers have returned, one after the other. */
  function Used(start: Int32, n: nat, m: nat): Counter
    requires start >= 0 && m <= n && start + m <= MAX_INT32
  {
    Counter(start + m, seq(n, i requires 0 <= i < n => UsedBy(start, m, i)))
  }

  function UsedBy(start: Int32, m: nat, i: nat): Caller
    requires start >= 0 && start + m <= MAX_INT32
  {
    if i < m then Returned(start + 1 + i) else Idle
  }

  lemma {:induction false} UsedUp(start: Int32, n: nat, m: nat) returns (labels: seq<CounterStep>)
    requires start >= 0 && m <= n && start + m <= MAX_INT32
    ensures CounterRun(Fresh(start, n), labels) == Some(Used(start, n, m))
  {
    if m == 0 {
      labels := [];
      assert Used(start, n, 0) == Fresh(start, n);
    } else {
      var front := UsedUp(start, n, m - 1);
      var s, t := Used(start, n, m - 1), Used(start, n, m);
      var u := Counter(start + m, s.callers[m - 1 := Added(start + m)]);
      assert u.callers[m - 1 := Returned(start + m)] == t.callers;
      assert CounterApply(s, Add(m - 1)) == Some(u) && CounterApply(u, Finish(m - 1)) == Some(t);
      hide CounterApply;
      CounterGrows(Fresh(start, n), front, Add(m - 1), s, u);
      CounterGrows(Fresh(start, n), front + [Add(m - 1)], Finish(m - 1), u, t);
      labels := front + [Add(m - 1)] + [Finish(m - 1)];
    }
  }

  const MIN_INT32: Int32 := -0x8000_0000

  /** At the maximum any two idle callers that overlap both return 1. */
  lemma OverlapCollides(s: Counter, c: nat, d: nat) returns (s1: Counter, s2: Counter, s3: Counter, s4: Counter)
    requires s.value == MAX_INT32 && c < d < |s.callers| && s.callers[c].Idle? && s.callers[d].Idle?
    ensures CounterApply(s, Add(c)) == Some(s1) && CounterApply(s1, Add(d)) == Some(s2)
    ensures CounterApply(s2, Finish(c)) == Some(s3) && CounterApply(s3, Finish(d)) == Some(s4)
    ensures !Distinct(s4)
  {
    s1 := Counter(MIN_INT32, s.callers[c := Added(MIN_INT32)]);
    s2 := Counter(MIN_INT32 + 1, s1.callers[d := Added(MIN_INT32 + 1)]);
    s3 := Counter(1, s2.callers[c := Returned(1)]);
    s4 := Counter(1, s3.callers[d := Returned(1)]);
    assert s4.callers[c] == Returned(1) == s4.callers[d];
  }

  lemma Collision(start: Int32, n: nat) returns (labels: seq<CounterStep>)
    requires start > 0 && start + n > MAX_INT32 + 1
    ensures CounterRun(Fresh(start, n), labels).Some? && !Distinct(CounterRun(Fresh(start, n), labels).value)
  {
    var m := MAX_INT32 - start;
    var front := UsedUp(start, n, m);
    var s := Used(start, n, m);
    var s1, s2, s3, s4 := OverlapCollides(s, m, m + 1);
    hide CounterApply, CounterRun, Distinct, Used;
    CounterGrows(Fresh(start, n), front, Add(m), s, s1);
    var l1 := front + [Add(m)];
    CounterGrows(Fresh(start, n), l1, Add(m + 1), s1, s2);
    var l2 := l1 + [Add(m + 1)];
    CounterGrows(Fresh(start, n), l2, Finish(m), s2, s3);
    var l3 := l2 + [Finish(m)];
    CounterGrows(Fresh(start, n), l3, Finish(m + 1), s3, s4);
    labels := l3 + [Finish(m + 1)];
  }

  /** From zero even calls that do not overlap meet again after 2^31 - 1 of them. */
  lemma Reuse(n: nat) returns (labels: seq<CounterStep>)
    requires n > MAX_INT32
    ensures CounterRun(Fresh(0, n), labels).Some? && !Distinct(CounterRun(Fresh(0, n), labels).value)
  {
    var m := MAX_INT32;
    var front := UsedUp(0, n, m);
    var s := Used(0, n, m);
    var s1 := Counter(MIN_INT32, s.callers[m := Added(MIN_INT32)]);
    var s2 := Counter(1, s1.callers[m := Returned(1)]);
    assert s2.callers[0] == Returned(1) == s2.callers[m];
    assert CounterApply(s, Add(m)) == Some(s1) && CounterApply(s1, Finish(m)) == Some(s2);
    assert !Distinct(s2);
    hide CounterApply, CounterRun, Distinct, Used;
    CounterGrows(Fresh(0, n), front, Add(m), s, s1);
    CounterGrows(Fresh(0, n), front + [Add(m)], Finish(m), s1, s2);
    labels := front + [Add(m)] + [Finish(m)];
  }

  /** Concurrent calls return distinct positive ids in every interleaving if and only if the counter
      passes its maximum at most once, and not after 1 was given out: from a counter above 0 up to
      2^31 - start calls, from 0 up to 2^31 - 1. */
  lemma DistinctExactly(start: Int32, n: nat)
    requires start >= 0
    ensures AlwaysDistinct(start, n) <==> Room(start, n)
  {
    if Room(start, n) {
      forall labels | CounterRun(Fresh(start, n), labels).Some?
        ensures Distinct(CounterRun(Fresh(start, n), labels).value)
      {
        hide CounterOk, Distinct, CounterRun;
        RunOk(start, n, labels);
        OkIsDistinct(start, n, CounterRun(Fresh(start, n), labels).value);
      }
    } else {
      hide CounterRun, Distinct;
      if start == 0 {
        var labels := Reuse(n);
      } else {
        var labels := Collision(start, n);
      }
    }
  }

  lemma CounterGrows(s: Counter, labels: seq<CounterStep>, l: CounterStep, t: Counter, u: Counter)
    requires CounterRun(s, labels) == Some(t) && CounterApply(t, l) == Some(u)
    ensures CounterRun(s, labels + [l]) == Some(u)
  {
    assert (labels + [l])[..|labels|] == labels;
  }
}
