/** The duration histogram: recording, scraping, and both at once
    (internal/router/router.go:116-138, 356-365). */
module Histogram {

  const BOUNDS: seq<nat> := [1, 5, 10, 25, 50, 100, 250, 500, 1000, 2500, 5000, 10000]
  const N := 12
  const NANOSECONDS := 1_000_000  // in a millisecond

  function Bound(k: nat): nat
    requires k < N
  {
    BOUNDS[k]
  }

  lemma BoundsAre()
    ensures BOUNDS == [1, 5, 10, 25, 50, 100, 250, 500, 1000, 2500, 5000, 10000] && |BOUNDS| == 12 == N
  {
  }

  lemma BoundsIncrease(i: nat, j: nat)
    requires i <= j < N
    ensures Bound(i) <= Bound(j)
  {
  }

  /** The first bucket whose bound is not below, or the overflow bucket. */
  function BucketFrom(milliseconds: nat, i: nat): (bucket: nat)
    requires i <= N
    ensures i <= bucket <= N
    ensures bucket < N ==> milliseconds <= Bound(bucket)
    ensures forall k :: i <= k < bucket ==> milliseconds > Bound(k)
    decreases N - i
  {
    if i == N || milliseconds <= Bound(i) then i else BucketFrom(milliseconds, i + 1)
  }

  function Bucket(milliseconds: nat): nat {
    BucketFrom(milliseconds, 0)
  }

  lemma BucketAtMost(milliseconds: nat, k: nat)
    requires k < N
    ensures Bucket(milliseconds) <= k <==> milliseconds <= Bound(k)
  {
    if Bucket(milliseconds) <= k { BoundsIncrease(Bucket(milliseconds), k); }
  }

  function Prefix(buckets: seq<nat>, k: nat): nat
    requires k <= |buckets|
  {
    if k == 0 then 0 else Prefix(buckets, k - 1) + buckets[k - 1]
  }

  lemma {:induction false} PrefixIncrement(buckets: seq<nat>, i: nat, k: nat)
    requires i < |buckets| && k <= |buckets|
    ensures Prefix(buckets[i := buckets[i] + 1], k) == Prefix(buckets, k) + if i < k then 1 else 0
  {
    if k > 0 { PrefixIncrement(buckets, i, k - 1); }
  }

  lemma {:induction false} PrefixGrows(buckets: seq<nat>, j: nat, k: nat)
    requires j <= k <= |buckets|
    ensures Prefix(buckets, j) <= Prefix(buckets, k)
    decreases k
  {
    if j < k { PrefixGrows(buckets, j, k - 1); }
  }

  // ---------- One observer at a time ----------

  /** How many of the observed durations are not negative and at most `bound` whole milliseconds. */
  function AtMost(observed: seq<int>, bound: nat): nat {
    if observed == [] then 0
    else
      var last := observed[|observed| - 1];
      AtMost(observed[..|observed| - 1], bound) + if last >= 0 && last / NANOSECONDS <= bound then 1 else 0
  }

  function Recorded(observed: seq<int>): nat {
    if observed == [] then 0
    else Recorded(observed[..|observed| - 1]) + if observed[|observed| - 1] >= 0 then 1 else 0
  }

  function TotalMilliseconds(observed: seq<int>): nat {
    if observed == [] then 0
    else
      var last := observed[|observed| - 1];
      TotalMilliseconds(observed[..|observed| - 1]) + if last >= 0 then last / NANOSECONDS else 0
  }

  /** The buckets up to a bound hold the observations up to that bound, and all of
      them together hold everything that was counted. */
  ghost predicate Consistent(buckets: seq<nat>, count: nat, sum: nat, observed: seq<int>) {
    && |buckets| == N + 1
    && (forall k :: 0 <= k < N ==> Prefix(buckets, k + 1) == AtMost(observed, Bound(k)))
    && Prefix(buckets, N + 1) == count == Recorded(observed)
    && sum == TotalMilliseconds(observed)
  }

  class DurationHistogram {
    const buckets: array<nat>
    var count: nat
    var sum: nat
    ghost var observed: seq<int>

    ghost predicate Valid()
      reads this, buckets
    {
      Consistent(buckets[..], count, sum, observed)
    }

    constructor ()
      ensures Valid() && fresh(buckets) && observed == []
    {
      buckets := new nat[N + 1](_ => 0);
      count, sum, observed := 0, 0, [];
      new;
      AllZero(buckets[..], N + 1);
      forall k | 0 <= k <= N ensures Prefix(buckets[..], k) == 0 { AllZero(buckets[..], k); }
    }

    /** The bucket loop of `observe`. */
    method AddToBucket(milliseconds: nat)
      requires buckets.Length == N + 1
      modifies buckets
      ensures buckets[..] == old(buckets[..])[Bucket(milliseconds) := old(buckets[..])[Bucket(milliseconds)] + 1]
    {
      for index := 0 to N
        invariant Bucket(milliseconds) == BucketFrom(milliseconds, index)
        invariant buckets[..] == old(buckets[..])
      {
        if milliseconds <= Bound(index) {
          buckets[index] := buckets[index] + 1;
          return;
        }
      }
      buckets[N] := buckets[N] + 1;
    }

    /** `observe`. */
    method Observe(duration: int)
      requires Valid()
      modifies this, buckets
      ensures Valid() && observed == old(observed) + [duration]
    {
      ghost var before, counted, summed, past := buckets[..], count, sum, observed;
      observed := observed + [duration];
      if duration < 0 {
        AfterNegative(before, count, sum, past, duration);
        return;
      }
      var milliseconds := duration / NANOSECONDS;
      count := count + 1;
      sum := sum + milliseconds;
      AddToBucket(milliseconds);
      BucketIncrement(before, milliseconds);
      AfterObservation(before, buckets[..], counted, summed, past, duration);
    }

    /** `writeHistogram`: the cumulative lines, then +Inf, sum and count. */
    method Scrape() returns (lines: seq<nat>, inf: nat, total: nat, counted: nat)
      requires Valid()
      ensures |lines| == N && forall k :: 0 <= k < N ==> lines[k] == AtMost(observed, Bound(k))
      ensures inf == counted == Recorded(observed)
      ensures total == TotalMilliseconds(observed)
    {
      lines := [];
      var cumulative := 0;
      for index := 0 to N
        invariant |lines| == index && cumulative == Prefix(buckets[..], index)
        invariant forall k :: 0 <= k < index ==> lines[k] == Prefix(buckets[..], k + 1)
      {
        cumulative := cumulative + buckets[index];
        lines := lines + [cumulative];
      }
      inf, total, counted := count, sum, count;
    }
  }

  lemma {:induction false} AllZero(buckets: seq<nat>, k: nat)
    requires k <= |buckets| && forall i :: 0 <= i < k ==> buckets[i] == 0
    ensures Prefix(buckets, k) == 0
  {
    if k > 0 { AllZero(buckets, k - 1); }
  }

  lemma ObservedNext(observed: seq<int>, duration: int)
    ensures Recorded(observed + [duration]) == Recorded(observed) + if duration >= 0 then 1 else 0
    ensures TotalMilliseconds(observed + [duration])
            == TotalMilliseconds(observed) + if duration >= 0 then duration / 1_000_000 else 0
  {
    assert (observed + [duration])[..|observed|] == observed;
  }

  lemma AtMostNext(observed: seq<int>, duration: int, bound: nat)
    ensures AtMost(observed + [duration], bound)
            == AtMost(observed, bound) + if duration >= 0 && duration / 1_000_000 <= bound then 1 else 0
  {
    assert (observed + [duration])[..|observed|] == observed;
  }

  lemma AfterNegative(buckets: seq<nat>, count: nat, sum: nat, observed: seq<int>, duration: int)
    requires Consistent(buckets, count, sum, observed) && duration < 0
    ensures Consistent(buckets, count, sum, observed + [duration])
  {
    ObservedNext(observed, duration);
    forall k | 0 <= k < N ensures Prefix(buckets, k + 1) == AtMost(observed + [duration], Bound(k)) {
      AtMostNext(observed, duration, Bound(k));
    }
  }

  /** One more observation of that length is in its bucket. */
  ghost predicate Bumped(buckets: seq<nat>, buckets': seq<nat>, milliseconds: nat) {
    && |buckets| == |buckets'| == N + 1
    && Prefix(buckets', N + 1) == Prefix(buckets, N + 1) + 1
    && forall k :: 0 <= k < N ==>
         Prefix(buckets', k + 1) == Prefix(buckets, k + 1) + if milliseconds <= Bound(k) then 1 else 0
  }

  lemma BucketIncrement(buckets: seq<nat>, milliseconds: nat)
    requires |buckets| == N + 1
    ensures Bumped(buckets, buckets[Bucket(milliseconds) := buckets[Bucket(milliseconds)] + 1], milliseconds)
  {
    var i := Bucket(milliseconds);
    var buckets' := buckets[i := buckets[i] + 1];
    forall k | 0 <= k < N
      ensures Prefix(buckets', k + 1) == Prefix(buckets, k + 1) + if milliseconds <= Bound(k) then 1 else 0
    {
      PrefixIncrement(buckets, i, k + 1);
      BucketAtMost(milliseconds, k);
    }
    PrefixIncrement(buckets, i, N + 1);
  }

  lemma AfterObservation(buckets: seq<nat>, buckets': seq<nat>, count: nat, sum: nat, observed: seq<int>, duration: int)
    requires Consistent(buckets, count, sum, observed) && duration >= 0
    requires Bumped(buckets, buckets', duration / NANOSECONDS)
    ensures Consistent(buckets', count + 1, sum + duration / NANOSECONDS, observed + [duration])
  {
    ObservedNext(observed, duration);
    forall k | 0 <= k < N ensures Prefix(buckets', k + 1) == AtMost(observed + [duration], Bound(k)) {
      AtMostNext(observed, duration, Bound(k));
    }
  }

  // ---------- Any number of observers during a scrape ----------

  /** Where an observer stands in `observe`: before the addition named. */
  datatype Stage = AddingCount | AddingSum | AddingBucket | Stored

  datatype Observer = Observer(milliseconds: nat, stage: Stage)

  /** A scrape in progress: `position` loads are behind it (12 buckets, count, sum, count). */
  datatype Scrape = Scrape(position: nat, lines: seq<nat>, inf: nat, sum: nat, count: nat)

  /** `atStart` is the bucket contents when the scrape began, read by no step. */
  datatype State = State(buckets: seq<nat>, count: nat, sum: nat, observers: seq<Observer>,
                         scrape: Scrape, atStart: seq<nat>)

  datatype Step = Arrive(milliseconds: nat) | Advance(observer: nat) | BeginScrape | Load

  function Cumulative(lines: seq<nat>): nat {
    if lines == [] then 0 else lines[|lines| - 1]
  }

  predicate Enabled(s: State, step: Step) {
    match step
    case Arrive(_) => true
    case Advance(i) => i < |s.observers| && !s.observers[i].stage.Stored?
    case BeginScrape => s.scrape.position == N + 3
    case Load => s.scrape.position < N + 3
  }

  function Apply(s: State, step: Step): State
    requires Enabled(s, step) && |s.buckets| == N + 1
  {
    match step
    case Arrive(milliseconds) => s.(observers := s.observers + [Observer(milliseconds, AddingCount)])
    case Advance(i) =>
      var o := s.observers[i];
      (match o.stage
       case AddingCount => s.(count := s.count + 1, observers := s.observers[i := o.(stage := AddingSum)])
       case AddingSum => s.(sum := s.sum + o.milliseconds, observers := s.observers[i := o.(stage := AddingBucket)])
       case AddingBucket =>
         var b := Bucket(o.milliseconds);
         s.(buckets := s.buckets[b := s.buckets[b] + 1], observers := s.observers[i := o.(stage := Stored)])
       case Stored => s)
    case BeginScrape => s.(scrape := Scrape(0, [], 0, 0, 0), atStart := s.buckets)
    case Load =>
      var p := s.scrape.position;
      s.(scrape :=
           if p < N then
             s.scrape.(position := p + 1, lines := s.scrape.lines + [Cumulative(s.scrape.lines) + s.buckets[p]])
           else if p == N then s.scrape.(position := p + 1, inf := s.count)
           else if p == N + 1 then s.scrape.(position := p + 1, sum := s.sum)
           else s.scrape.(position := p + 1, count := s.count))
  }

  /** Observers that are counted and not yet in a bucket. */
  function Between(observers: seq<Observer>): nat {
    if observers == [] then 0
    else
      var last := observers[|observers| - 1];
      Between(observers[..|observers| - 1]) + if last.stage.AddingSum? || last.stage.AddingBucket? then 1 else 0
  }

  lemma {:induction false} BetweenUpdate(observers: seq<Observer>, i: nat, o: Observer)
    requires i < |observers|
    ensures Between(observers[i := o]) + Between([observers[i]]) == Between(observers) + Between([o])
    decreases |observers|
  {
    var front := observers[..|observers| - 1];
    assert [o][..0] == [] && [observers[i]][..0] == [];
    if i < |front| {
      BetweenUpdate(front, i, o);
      assert observers[i := o][..|front|] == front[i := o];
    } else {
      assert observers[i := o][..|front|] == front;
    }
  }

  /** Observers bump the count first, so the buckets together never run ahead of it. */
  predicate CountLeads(s: State) {
    && |s.buckets| == N + 1 && |s.atStart| == N + 1
    && Prefix(s.buckets, N + 1) + Between(s.observers) == s.count
  }

  function CountOf(observers: seq<Observer>, p: Observer -> bool): nat {
    if observers == [] then 0
    else CountOf(observers[..|observers| - 1], p) + if p(observers[|observers| - 1]) then 1 else 0
  }

  lemma {:induction false} CountOfUpdate(observers: seq<Observer>, i: nat, o: Observer, p: Observer -> bool)
    requires i < |observers|
    ensures CountOf(observers[i := o], p) + (if p(observers[i]) then 1 else 0)
            == CountOf(observers, p) + if p(o) then 1 else 0
    decreases |observers|
  {
    var front := observers[..|observers| - 1];
    if i < |front| {
      CountOfUpdate(front, i, o, p);
      assert observers[i := o][..|front|] == front[i := o];
    } else {
      assert observers[i := o][..|front|] == front;
    }
  }

  lemma CountOfAppend(observers: seq<Observer>, o: Observer, p: Observer -> bool)
    ensures CountOf(observers + [o], p) == CountOf(observers, p) + if p(o) then 1 else 0
  {
    assert (observers + [o])[..|observers|] == observers;
  }

  /** Observers that are in a bucket, with at most that many milliseconds. */
  function StoredWithin(bound: nat): Observer -> bool {
    (o: Observer) => o.stage.Stored? && o.milliseconds <= bound
  }

  function Counted(): Observer -> bool {
    (o: Observer) => !o.stage.AddingCount?
  }

  function Summed(o: Observer): nat {
    if o.stage.AddingBucket? || o.stage.Stored? then o.milliseconds else 0
  }

  function SumOf(observers: seq<Observer>): nat {
    if observers == [] then 0 else SumOf(observers[..|observers| - 1]) + Summed(observers[|observers| - 1])
  }

  lemma {:induction false} SumOfUpdate(observers: seq<Observer>, i: nat, o: Observer)
    requires i < |observers|
    ensures SumOf(observers[i := o]) + Summed(observers[i]) == SumOf(observers) + Summed(o)
    decreases |observers|
  {
    var front := observers[..|observers| - 1];
    if i < |front| {
      SumOfUpdate(front, i, o);
      assert observers[i := o][..|front|] == front[i := o];
    } else {
      assert observers[i := o][..|front|] == front;
    }
  }

  lemma SumOfAppend(observers: seq<Observer>, o: Observer)
    ensures SumOf(observers + [o]) == SumOf(observers) + Summed(o)
  {
    assert (observers + [o])[..|observers|] == observers;
  }

  /** The buckets up to a bound hold the stored observers within that bound; count and
      sum are those of the observers behind the respective addition. */
  ghost predicate Holds(s: State) {
    && |s.buckets| == N + 1
    && (forall k :: 0 <= k < N ==> Prefix(s.buckets, k + 1) == CountOf(s.observers, StoredWithin(Bound(k))))
    && s.count == CountOf(s.observers, Counted())
    && s.sum == SumOf(s.observers)
  }

  lemma InitHoldsAll()
    ensures Holds(Init())
  {
    forall k | 0 <= k < N ensures Prefix(Init().buckets, k + 1) == CountOf([], StoredWithin(Bound(k))) {
      AllZero(Init().buckets, k + 1);
    }
  }

  lemma BucketsFollow(buckets: seq<nat>, observers: seq<Observer>, i: nat, o: Observer, k: nat)
    requires i < |observers| && k < N && |buckets| == N + 1
    requires Prefix(buckets, k + 1) == CountOf(observers, StoredWithin(Bound(k)))
    requires observers[i].stage.AddingBucket? && o == observers[i].(stage := Stored)
    ensures
      var b := Bucket(o.milliseconds);
      Prefix(buckets[b := buckets[b] + 1], k + 1) == CountOf(observers[i := o], StoredWithin(Bound(k)))
  {
    CountOfUpdate(observers, i, o, StoredWithin(Bound(k)));
    PrefixIncrement(buckets, Bucket(o.milliseconds), k + 1);
    BucketAtMost(o.milliseconds, k);
  }

  lemma BucketsAdvance(s: State, i: nat, k: nat)
    requires Holds(s) && Enabled(s, Advance(i)) && k < N
    ensures
      var s' := Apply(s, Advance(i));
      Prefix(s'.buckets, k + 1) == CountOf(s'.observers, StoredWithin(Bound(k)))
  {
    var o' := Apply(s, Advance(i)).observers[i];
    if s.observers[i].stage.AddingBucket? {
      BucketsFollow(s.buckets, s.observers, i, o', k);
    } else {
      CountOfUpdate(s.observers, i, o', StoredWithin(Bound(k)));
    }
  }

  lemma CountAdvances(s: State, i: nat)
    requires Holds(s) && Enabled(s, Advance(i))
    ensures
      var s' := Apply(s, Advance(i));
      s'.count == CountOf(s'.observers, Counted()) && s'.sum == SumOf(s'.observers)
  {
    var o' := Apply(s, Advance(i)).observers[i];
    CountOfUpdate(s.observers, i, o', Counted());
    SumOfUpdate(s.observers, i, o');
  }

  lemma AdvanceHolds(s: State, i: nat)
    requires Holds(s) && Enabled(s, Advance(i))
    ensures Holds(Apply(s, Advance(i)))
  {
    var s' := Apply(s, Advance(i));
    CountAdvances(s, i);
    forall k | 0 <= k < N
      ensures Prefix(s'.buckets, k + 1) == CountOf(s'.observers, StoredWithin(Bound(k)))
    {
      BucketsAdvance(s, i, k);
    }
  }

  lemma StepHolds(s: State, step: Step)
    requires Holds(s) && Enabled(s, step)
    ensures Holds(Apply(s, step))
  {
    match step
    case Arrive(milliseconds) =>
      var o := Observer(milliseconds, AddingCount);
      CountOfAppend(s.observers, o, Counted());
      SumOfAppend(s.observers, o);
      forall k | 0 <= k < N
        ensures CountOf(s.observers + [o], StoredWithin(Bound(k))) == CountOf(s.observers, StoredWithin(Bound(k)))
      {
        CountOfAppend(s.observers, o, StoredWithin(Bound(k)));
      }
    case Advance(i) => AdvanceHolds(s, i);
    case BeginScrape =>
    case Load =>
  }

  /** In every interleaving of observers and scrapes the shared numbers are those of the observers. */
  lemma {:induction false} NumbersAre(s: State, steps: seq<Step>)
    requires Holds(s) && Feasible(s, steps)
    ensures Holds(Run(s, steps))
    decreases |steps|
  {
    if steps != [] {
      StepHolds(s, steps[0]);
      NumbersAre(Apply(s, steps[0]), steps[1..]);
    }
  }

  /** Each line lies between what its buckets held when the scrape began and what they
      hold now, and the lines do not decrease. */
  predicate Framed(atStart: seq<nat>, buckets: seq<nat>, lines: seq<nat>) {
    && |buckets| == |atStart| == N + 1 && |lines| <= N
    && (forall k :: 0 <= k <= N ==> atStart[k] <= buckets[k])
    && (forall k :: 0 <= k < |lines| ==> Prefix(atStart, k + 1) <= lines[k] <= Prefix(buckets, k + 1))
    && (forall j, k :: 0 <= j <= k < |lines| ==> lines[j] <= lines[k])
  }

  /** The loads of the count come after all the bucket loads. */
  predicate CountLast(c: Scrape, count: nat) {
    && c.position <= N + 3
    && |c.lines| == (if c.position < N then c.position else N)
    && (c.position > N ==> Cumulative(c.lines) <= c.inf <= count)
    && (c.position > N + 2 ==> c.inf <= c.count <= count)
  }

  predicate Inv(s: State) {
    CountLeads(s) && Framed(s.atStart, s.buckets, s.scrape.lines) && CountLast(s.scrape, s.count)
  }

  lemma LineKeepsFramed(atStart: seq<nat>, buckets: seq<nat>, lines: seq<nat>)
    requires Framed(atStart, buckets, lines) && |lines| < N
    ensures Framed(atStart, buckets, lines + [Cumulative(lines) + buckets[|lines|]])
  {
    var p, last := |lines|, Cumulative(lines) + buckets[|lines|];
    assert Prefix(atStart, p) <= Cumulative(lines) <= Prefix(buckets, p);
    assert Prefix(atStart, p + 1) <= last <= Prefix(buckets, p + 1);
  }

  lemma BucketKeepsFramed(atStart: seq<nat>, buckets: seq<nat>, lines: seq<nat>, b: nat)
    requires Framed(atStart, buckets, lines) && b <= N
    ensures Framed(atStart, buckets[b := buckets[b] + 1], lines)
    ensures Prefix(buckets[b := buckets[b] + 1], N + 1) == Prefix(buckets, N + 1) + 1
  {
    PrefixIncrement(buckets, b, N + 1);
    forall k | 0 <= k < |lines| ensures lines[k] <= Prefix(buckets[b := buckets[b] + 1], k + 1) {
      PrefixIncrement(buckets, b, k + 1);
    }
  }

  function Init(): State {
    var zeros := seq(N + 1, _ => 0);
    State(zeros, 0, 0, [], Scrape(0, [], 0, 0, 0), zeros)
  }

  lemma InitHolds()
    ensures Inv(Init())
  {
    AllZero(Init().buckets, N + 1);
  }

  lemma ArriveKeeps(s: State, milliseconds: nat)
    requires Inv(s)
    ensures Inv(Apply(s, Arrive(milliseconds)))
  {
    var o := Observer(milliseconds, AddingCount);
    assert (s.observers + [o])[..|s.observers|] == s.observers;
  }

  lemma AdvanceKeeps(s: State, i: nat)
    requires Inv(s) && Enabled(s, Advance(i))
    ensures Inv(Apply(s, Advance(i)))
  {
    var o, s' := s.observers[i], Apply(s, Advance(i));
    BetweenUpdate(s.observers, i, s'.observers[i]);
    assert [o][..0] == [] && [s'.observers[i]][..0] == [];
    if o.stage.AddingBucket? {
      BucketKeepsFramed(s.atStart, s.buckets, s.scrape.lines, Bucket(o.milliseconds));
    }
  }

  lemma LoadKeeps(s: State)
    requires Inv(s) && Enabled(s, Load)
    ensures Inv(Apply(s, Load))
  {
    var p, lines := s.scrape.position, s.scrape.lines;
    if p < N {
      LineKeepsFramed(s.atStart, s.buckets, lines);
    } else if p == N {
      PrefixGrows(s.buckets, N, N + 1);
      assert lines[N - 1] <= Prefix(s.buckets, N - 1 + 1);
    }
  }

  lemma StepKeepsInv(s: State, step: Step)
    requires Inv(s) && Enabled(s, step)
    ensures Inv(Apply(s, step))
  {
    match step
    case Arrive(milliseconds) => ArriveKeeps(s, milliseconds);
    case Advance(i) => AdvanceKeeps(s, i);
    case BeginScrape =>
    case Load => LoadKeeps(s);
  }

  ghost predicate Feasible(s: State, steps: seq<Step>)
    decreases |steps|
  {
    |s.buckets| == N + 1 &&
    (steps == [] || (Enabled(s, steps[0]) && Feasible(Apply(s, steps[0]), steps[1..])))
  }

  ghost function Run(s: State, steps: seq<Step>): State
    requires Feasible(s, steps)
    decreases |steps|
  {
    if steps == [] then s else Run(Apply(s, steps[0]), steps[1..])
  }

  lemma {:induction false} RunKeepsInv(s: State, steps: seq<Step>)
    requires Inv(s) && Feasible(s, steps)
    ensures Inv(Run(s, steps))
    decreases |steps|
  {
    if steps != [] {
      StepKeepsInv(s, steps[0]);
      RunKeepsInv(Apply(s, steps[0]), steps[1..]);
    }
  }

  /** Whatever the observers do meanwhile, a finished scrape is non-decreasing, its
      +Inf line is not below any finite line nor above its count line, and each finite
      line lies between the true value when the scrape began and the true value now. */
  lemma EveryScrapeIsMonotone(steps: seq<Step>)
    requires Feasible(Init(), steps) && Run(Init(), steps).scrape.position == N + 3
    ensures
      var s := Run(Init(), steps);
      && |s.buckets| == |s.atStart| == N + 1 && |s.scrape.lines| == N
      && (forall j, k :: 0 <= j <= k < N ==> s.scrape.lines[j] <= s.scrape.lines[k])
      && (forall k :: 0 <= k < N ==> s.scrape.lines[k] <= s.scrape.inf <= s.scrape.count)
      && (forall k :: 0 <= k < N ==> Prefix(s.atStart, k + 1) <= s.scrape.lines[k] <= Prefix(s.buckets, k + 1))
  {
    InitHolds();
    RunKeepsInv(Init(), steps);
  }
}
