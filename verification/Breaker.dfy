/** The provider cooldown breaker (internal/router/router.go:941-963), refined
    against the history of its mark calls.

    The breaker is shared: between two calls of one request, any number of other
    requests may mark providers. `own` follows the marks of one request. */
module Breaker {
  import opened Sequences

  type Time = nat  // nanoseconds; the zero time is 0

  const COOLDOWN: nat := 5_000_000_000

  datatype Mark = Failure(name: string, at: Time) | Success(name: string, at: Time)

  // ---------- What the history says ----------

  /** The times of the failures of `name` since its last success. */
  function Streak(history: seq<Mark>, name: string): seq<Time> {
    if history == [] then []
    else
      var front, last := history[..|history| - 1], history[|history| - 1];
      if last.name != name then Streak(front, name)
      else if last.Success? then []
      else Streak(front, name) + [last.at]
  }

  /** When the latest even-numbered failure of a streak happened. */
  function Trip(streak: seq<Time>): Option<Time> {
    if |streak| < 2 then None else Some(streak[|streak| - |streak| % 2 - 1])
  }

  /** No even-numbered failure of the streak lies within the cooldown before `now`. */
  ghost predicate Available(history: seq<Mark>, name: string, now: Time) {
    var streak := Streak(history, name);
    forall i :: 0 <= i < |streak| && i % 2 == 1 ==> streak[i] + COOLDOWN < now
  }

  ghost predicate Ordered(history: seq<Mark>, now: Time) {
    forall i, j :: 0 <= i <= j < |history| ==> history[i].at <= history[j].at <= now
  }

  lemma StreakNext(history: seq<Mark>, mark: Mark, name: string)
    ensures Streak(history + [mark], name) ==
            if mark.name != name then Streak(history, name)
            else if mark.Success? then [] else Streak(history, name) + [mark.at]
  {
    assert (history + [mark])[..|history|] == history;
  }

  lemma {:induction false} StreakOrdered(history: seq<Mark>, name: string, now: Time)
    requires Ordered(history, now)
    ensures forall i, j :: 0 <= i <= j < |Streak(history, name)| ==>
              Streak(history, name)[i] <= Streak(history, name)[j] <= now
  {
    if history != [] {
      StreakOrdered(history[..|history| - 1], name, history[|history| - 1].at);
    }
  }

  /** With non-decreasing times only the latest trip matters. */
  lemma AvailableIff(history: seq<Mark>, name: string, now: Time)
    requires Ordered(history, now)
    ensures Available(history, name, now) <==>
            var trip := Trip(Streak(history, name)); trip == None || trip.value + COOLDOWN < now
  {
    StreakOrdered(history, name, now);
  }

  /** A failure of `name` that no success of it follows. */
  ghost predicate StillFailed(history: seq<Mark>, name: string, p: int) {
    && 0 <= p < |history| && history[p].Failure? && history[p].name == name
    && forall q :: p < q < |history| ==> history[q].Failure? || history[q].name != name
  }

  /** The positions of those failures, in order. */
  ghost predicate FailuresOf(history: seq<Mark>, name: string, positions: seq<int>) {
    && (forall i, j :: 0 <= i < j < |positions| ==> positions[i] < positions[j])
    && (forall p :: p in positions <==> StillFailed(history, name, p))
  }

  lemma CannotFail(history: seq<Mark>, name: string, p: int)
    requires history == [] || history[|history| - 1] == Success(name, history[|history| - 1].at)
    ensures !StillFailed(history, name, p)
  {
  }

  lemma FirstIsMember<T>(s: seq<T>)
    ensures s == [] || s[0] in s
  {
  }

  lemma NothingFailed(history: seq<Mark>, name: string, positions: seq<int>)
    requires FailuresOf(history, name, positions)
    requires history == [] || history[|history| - 1] == Success(name, history[|history| - 1].at)
    ensures positions == []
  {
    FirstIsMember(positions);
    forall p ensures !StillFailed(history, name, p) {
      CannotFail(history, name, p);
    }
  }

  lemma {:induction false} StreakAt(history: seq<Mark>, name: string, positions: seq<int>)
    requires FailuresOf(history, name, positions)
    ensures |Streak(history, name)| == |positions|
    ensures forall k :: 0 <= k < |positions| ==>
              StillFailed(history, name, positions[k]) && Streak(history, name)[k] == history[positions[k]].at
  {
    forall k | 0 <= k < |positions| ensures StillFailed(history, name, positions[k]) {
      assert positions[k] in positions;
    }
    if history == [] {
      NothingFailed(history, name, positions);
    } else {
      var n := |history| - 1;
      var last := history[n];
      if last.name == name && last.Success? {
        NothingFailed(history, name, positions);
      } else if last.name == name {
        LastFailure(history, name, positions);
        StreakAt(history[..n], name, positions[..|positions| - 1]);
      } else {
        OtherMark(history, name, positions);
        StreakAt(history[..n], name, positions);
      }
    }
  }

  lemma LastFailure(history: seq<Mark>, name: string, positions: seq<int>)
    requires FailuresOf(history, name, positions) && history != []
    requires history[|history| - 1].Failure? && history[|history| - 1].name == name
    ensures positions != [] && positions[|positions| - 1] == |history| - 1
    ensures FailuresOf(history[..|history| - 1], name, positions[..|positions| - 1])
  {
    var n := |history| - 1;
    assert StillFailed(history, name, n);
    var at :| 0 <= at < |positions| && positions[at] == n;
    assert positions[|positions| - 1] in positions;
    assert StillFailed(history, name, positions[|positions| - 1]);
    var front, rest := history[..n], positions[..|positions| - 1];
    forall p ensures p in rest <==> StillFailed(front, name, p) {
      if p in rest {
        var i :| 0 <= i < |rest| && rest[i] == p;
        assert positions[i] in positions;
        assert StillFailed(history, name, p);
      }
      if StillFailed(front, name, p) {
        assert StillFailed(history, name, p);
        var i :| 0 <= i < |positions| && positions[i] == p;
        assert rest[i] == p;
      }
    }
  }

  lemma OtherMark(history: seq<Mark>, name: string, positions: seq<int>)
    requires FailuresOf(history, name, positions) && history != [] && history[|history| - 1].name != name
    ensures FailuresOf(history[..|history| - 1], name, positions)
  {
    var n := |history| - 1;
    forall p ensures StillFailed(history, name, p) <==> StillFailed(history[..n], name, p) {
      if StillFailed(history[..n], name, p) {
        forall q | p < q < |history| ensures history[q].Failure? || history[q].name != name {
          if q < n { assert history[..n][q] == history[q]; }
        }
      }
    }
  }

  /** Availability, said of the marks alone: every second failure since the last success
      is more than five seconds ago. */
  lemma AvailableMeans(history: seq<Mark>, name: string, positions: seq<int>, now: Time)
    requires FailuresOf(history, name, positions)
    ensures Available(history, name, now) <==>
            forall k :: 0 <= k < |positions| && k % 2 == 1 ==>
              StillFailed(history, name, positions[k]) && history[positions[k]].at + 5_000_000_000 < now
  {
    StreakAt(history, name, positions);
  }

  /** Once available, a provider stays available until it is marked as failed again. */
  lemma AvailabilityLasts(history: seq<Mark>, marks: seq<Mark>, name: string, now: Time, later: Time)
    requires Available(history, name, now) && now <= later
    requires forall mark :: mark in marks ==> mark.name != name || mark.Success?
    ensures Available(history + marks, name, later)
    decreases |marks|
  {
    if marks == [] {
      assert history + marks == history;
    } else {
      var front, last := marks[..|marks| - 1], marks[|marks| - 1];
      AvailabilityLasts(history, front, name, now, later);
      StreakNext(history + front, last, name);
      assert history + marks == history + front + [last];
    }
  }

  /** What the breaker knows at one moment, which is what a check of availability is judged by. */
  datatype View = View(history: seq<Mark>, now: Time)

  ghost predicate Before(a: View, b: View) {
    a.history <= b.history && a.now <= b.now
  }

  /** Views taken one after the other, none before `start` or after `end`. */
  ghost predicate Successive(views: seq<View>, start: View, end: View) {
    forall i, j :: 0 <= i <= j < |views| ==>
      Before(start, views[i]) && Before(views[i], views[j]) && Before(views[j], end)
  }

  lemma BeforeTransitive(a: View, b: View, c: View)
    requires Before(a, b) && Before(b, c)
    ensures Before(a, c)
  {
  }

  lemma SuccessiveNext(views: seq<View>, start: View, latest: View, now: View)
    requires Successive(views, start, latest) && Before(start, latest) && Before(latest, now)
    ensures Successive(views + [now], start, now)
  {
    assert Before(start, now);
    forall i, j | 0 <= i <= j < |views + [now]|
      ensures Before(start, (views + [now])[i]) && Before((views + [now])[i], (views + [now])[j])
      ensures Before((views + [now])[j], now)
    {
      if i < |views| { assert Before(views[i], latest); }
      if j < |views| { assert Before(views[j], latest); }
    }
  }

  lemma SuccessiveLater(views: seq<View>, start: View, end: View, later: View)
    requires Successive(views, start, end) && Before(end, later)
    ensures Successive(views, start, later)
  {
    forall j | 0 <= j < |views| ensures Before(views[j], later) {
      assert Before(views[j], end);
    }
  }

  /** `own` is a subsequence of `history`. */
  ghost predicate Woven(own: seq<Mark>, history: seq<Mark>)
    decreases |history|
  {
    own == [] ||
    (history != [] &&
     (Woven(own, history[..|history| - 1]) ||
      (own[|own| - 1] == history[|history| - 1] && Woven(own[..|own| - 1], history[..|history| - 1]))))
  }

  lemma WovenNext(own: seq<Mark>, history: seq<Mark>, mark: Mark)
    requires Woven(own, history)
    ensures Woven(own, history + [mark]) && Woven(own + [mark], history + [mark])
  {
    assert (history + [mark])[..|history|] == history && (own + [mark])[..|own|] == own;
  }

  // ---------- The two maps ----------

  /** What the maps hold for a provider with the given streak. */
  ghost predicate Matches(count: nat, until: Option<Time>, streak: seq<Time>) {
    && count == |streak| % 2
    && until == if Trip(streak).None? then None else Some(Trip(streak).value + COOLDOWN)
  }

  lemma MatchesNext(count: nat, until: Option<Time>, streak: seq<Time>, now: Time)
    requires Matches(count, until, streak)
    ensures count == 0 ==> Matches(1, until, streak + [now])
    ensures count == 1 ==> Matches(0, Some(now + COOLDOWN), streak + [now])
  {
    if |streak| >= 2 { assert (streak + [now])[|streak| - |streak| % 2 - 1] == streak[|streak| - |streak| % 2 - 1]; }
  }

  function CountIn(failures: map<string, nat>, name: string): nat {
    if name in failures then failures[name] else 0
  }

  function UntilIn(cooldown: map<string, Time>, name: string): Option<Time> {
    if name in cooldown then Some(cooldown[name]) else None
  }

  /** Both maps agree with the history, for every provider. */
  ghost predicate Agrees(failures: map<string, nat>, cooldown: map<string, Time>, history: seq<Mark>) {
    forall name :: Matches(CountIn(failures, name), UntilIn(cooldown, name), Streak(history, name))
  }

  lemma FailureAgrees(failures: map<string, nat>, cooldown: map<string, Time>, history: seq<Mark>, name: string,
                      now: Time)
    requires Agrees(failures, cooldown, history)
    ensures
      var n := CountIn(failures, name) + 1;
      if n >= 2 then Agrees(failures[name := 0], cooldown[name := now + COOLDOWN], history + [Failure(name, now)])
      else Agrees(failures[name := n], cooldown, history + [Failure(name, now)])
  {
    var n, mark := CountIn(failures, name) + 1, Failure(name, now);
    var failures' := failures[name := if n >= 2 then 0 else n];
    var cooldown' := if n >= 2 then cooldown[name := now + COOLDOWN] else cooldown;
    MatchesNext(CountIn(failures, name), UntilIn(cooldown, name), Streak(history, name), now);
    forall other
      ensures Matches(CountIn(failures', other), UntilIn(cooldown', other), Streak(history + [mark], other))
    {
      StreakNext(history, mark, other);
      assert Matches(CountIn(failures, other), UntilIn(cooldown, other), Streak(history, other));
    }
  }

  lemma SuccessAgrees(failures: map<string, nat>, cooldown: map<string, Time>, history: seq<Mark>, name: string,
                      now: Time)
    requires Agrees(failures, cooldown, history)
    ensures Agrees(failures - {name}, cooldown - {name}, history + [Success(name, now)])
  {
    var mark := Success(name, now);
    forall other
      ensures Matches(CountIn(failures - {name}, other), UntilIn(cooldown - {name}, other),
                      Streak(history + [mark], other))
    {
      StreakNext(history, mark, other);
      assert Matches(CountIn(failures, other), UntilIn(cooldown, other), Streak(history, other));
    }
  }

  lemma OrderedNext(history: seq<Mark>, mark: Mark, earlier: Time)
    requires Ordered(history, earlier) && earlier <= mark.at
    ensures Ordered(history + [mark], mark.at)
  {
  }

  /** The two maps, the clock and the marks of the followed request fit the history. */
  ghost predicate Fits(failures: map<string, nat>, cooldown: map<string, Time>, clock: Time, history: seq<Mark>,
                       own: seq<Mark>) {
    Ordered(history, clock) && Woven(own, history) && Agrees(failures, cooldown, history)
  }

  lemma FirstFailureFits(failures: map<string, nat>, cooldown: map<string, Time>, now: Time, history: seq<Mark>,
                         own: seq<Mark>, name: string)
    requires Fits(failures, cooldown, now, history, own) && CountIn(failures, name) == 0
    ensures Fits(failures[name := 1], cooldown, now, history + [Failure(name, now)], own + [Failure(name, now)])
  {
    FailureAgrees(failures, cooldown, history, name, now);
    OrderedNext(history, Failure(name, now), now);
    WovenNext(own, history, Failure(name, now));
  }

  lemma SecondFailureFits(failures: map<string, nat>, cooldown: map<string, Time>, now: Time, history: seq<Mark>,
                          own: seq<Mark>, name: string)
    requires Fits(failures, cooldown, now, history, own) && CountIn(failures, name) == 1
    ensures Fits(failures[name := 0], cooldown[name := now + COOLDOWN], now,
                 history + [Failure(name, now)], own + [Failure(name, now)])
  {
    FailureAgrees(failures, cooldown, history, name, now);
    OrderedNext(history, Failure(name, now), now);
    WovenNext(own, history, Failure(name, now));
  }

  lemma CountIsSmall(failures: map<string, nat>, cooldown: map<string, Time>, history: seq<Mark>, name: string)
    requires Agrees(failures, cooldown, history)
    ensures CountIn(failures, name) == 0 || CountIn(failures, name) == 1
  {
    assert Matches(CountIn(failures, name), UntilIn(cooldown, name), Streak(history, name));
  }

  lemma SuccessFits(failures: map<string, nat>, cooldown: map<string, Time>, now: Time, history: seq<Mark>,
                    own: seq<Mark>, name: string)
    requires Fits(failures, cooldown, now, history, own)
    ensures
      var mark := Success(name, now);
      Fits(failures - {name}, cooldown - {name}, now, history + [mark], own + [mark])
  {
    SuccessAgrees(failures, cooldown, history, name, now);
    OrderedNext(history, Success(name, now), now);
    WovenNext(own, history, Success(name, now));
  }

  class Breaker {
    var failures: map<string, nat>
    var cooldown: map<string, Time>
    var clock: Time
    ghost var history: seq<Mark>  // every mark call so far
    ghost var own: seq<Mark>      // those of the request that is followed

    ghost predicate Valid()
      reads this
    {
      Fits(failures, cooldown, clock, history, own)
    }

    ghost function Seen(): View
      reads this`history, this`clock
    {
      View(history, clock)
    }

    constructor ()
      ensures Valid() && history == own == []
    {
      failures, cooldown, clock, history, own := map[], map[], 0, [], [];
    }

    /** `time.Now()`: any time that is not before the one read last. */
    method Now() returns (now: Time)
      requires Valid()
      modifies this`clock
      ensures Valid() && now == clock && old(clock) <= clock
    {
      var elapsed: nat :| elapsed >= 0;
      clock := clock + elapsed;
      now := clock;
    }

    /** `providerAvailable`. */
    method ProviderAvailable(name: string) returns (available: bool)
      requires Valid()
      modifies this`clock
      ensures Valid() && old(clock) <= clock
      ensures available <==> Available(history, name, clock)
    {
      var now := Now();
      AvailableIff(history, name, now);
      assert Matches(CountIn(failures, name), UntilIn(cooldown, name), Streak(history, name));
      var until := if name in cooldown then cooldown[name] else 0;
      available := until == 0 || now > until;
    }

    /** The two maps in `markProviderFailure`: they fit the history with one more failure. */
    method CountFailure(name: string, now: Time)
      requires Fits(failures, cooldown, now, history, own)
      modifies this`failures, this`cooldown
      ensures Fits(failures, cooldown, now, history + [Failure(name, now)], own + [Failure(name, now)])
    {
      CountIsSmall(failures, cooldown, history, name);
      failures := failures[name := (if name in failures then failures[name] else 0) + 1];
      if failures[name] >= 2 {
        SecondFailureFits(old(failures), old(cooldown), now, history, own, name);
        cooldown := cooldown[name := now + COOLDOWN];
        failures := failures[name := 0];
        assert failures == old(failures)[name := 0];
      } else {
        FirstFailureFits(old(failures), old(cooldown), now, history, own, name);
      }
    }

    /** `markProviderFailure`. */
    method MarkFailure(name: string)
      requires Valid()
      modifies this
      ensures Valid() && old(clock) <= clock
      ensures history == old(history) + [Failure(name, clock)]
      ensures own == old(own) + [Failure(name, clock)]
    {
      var now := Now();
      CountFailure(name, now);
      history, own := history + [Failure(name, now)], own + [Failure(name, now)];
    }

    /** `markProviderSuccess`. */
    method MarkSuccess(name: string)
      requires Valid()
      modifies this
      ensures Valid() && old(clock) <= clock
      ensures history == old(history) + [Success(name, clock)]
      ensures own == old(own) + [Success(name, clock)]
    {
      var now := Now();
      SuccessFits(failures, cooldown, clock, history, own, name);
      failures := failures - {name};
      cooldown := cooldown - {name};
      history, own := history + [Success(name, now)], own + [Success(name, now)];
    }

    /** Whatever other requests do while the followed one does not hold the lock. */
    method Others()
      requires Valid()
      modifies this
      ensures Valid() && Before(old(Seen()), Seen()) && own == old(own)
    {
      var calls: nat :| calls >= 0;
      for i := 0 to calls
        invariant Valid() && Before(old(Seen()), Seen()) && own == old(own)
      {
        OneMark();
      }
    }

    /** One mark call of another request. */
    method OneMark()
      requires Valid()
      modifies this
      ensures Valid() && Before(old(Seen()), Seen()) && own == old(own)
    {
      var name: string := *;
      var failed: bool := *;
      if failed {
        MarkFailure(name);
        WovenNext(old(own), old(history), Failure(name, clock));
      } else {
        MarkSuccess(name);
        WovenNext(old(own), old(history), Success(name, clock));
      }
      own := old(own);
    }
  }
}
