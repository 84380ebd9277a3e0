/** One request from model name to closed upstream body: candidate clients, candidate
    loop, and the deferred close (internal/router/router.go:386-495, 512-593). */
module Requests {
  import opened Sequences
  import opened Rewriting
  import opened Provider
  import opened Routing
  import opened Fallback
  import B = Breaker

  datatype Handled = NoRoute | NoUpstream(failure: Failure) | Answered(response: Response, fallbackUsed: bool)

  /** The upstream log of a finished request with at most `k` candidates. */
  ghost predicate Finished(log: seq<Event>, op: Operation, k: nat) {
    && Lawful(log) && Tidy(log) && Open(log) == {}
    && Bounded(log, op, k)
  }

  /** The candidates: the known names that the breaker let through, or the first known one. */
  ghost predicate Admitted(clients: seq<Client>, providers: map<string, Client>, known: seq<string>,
                           views: seq<B.View>) {
    && |views| == |known|
    && (forall name :: name in known ==> name in providers)
    && var usable := Usable(known, views);
       clients == ClientsOf(providers, if usable == [] && known != [] then known[..1] else usable)
  }

  /** The whole log, the answer and the marks of a request: candidates rejected in list
      order and marked as failed, then the last one called, whose body is closed in the
      end and which is marked as a success for a status below 400. */
  ghost predicate Concluded(handled: Handled, log: seq<Event>, op: Operation, clients: seq<Client>, body: Body,
                            visits: seq<Visit>, last: Visit, marks: seq<B.Mark>, now: B.Time) {
    var before := Discarded(visits) + last.events;
    && Ends(before, op, clients, body, visits, last)
    && MarksFailures(marks, clients, |visits|)
    && match last.result
       case Err(failure) =>
         && handled == NoUpstream(failure) && log == before && marks[|visits|..] == []
       case Ok(response) =>
         && handled == Answered(response, visits != []) && log == before + [Closed(response.body)]
         && marks[|visits|..] == if response.status < 400 then [B.Success(clients[|visits|].name, now)] else []
  }

  /** A chat or embedding request. The candidates are found, called one after the other,
      and whatever body is held in the end is closed. Other requests may mark providers
      before every look at the breaker. */
  method Serve(op: Operation, body: Body, model: string, providers: map<string, Client>, byModel: map<string, string>,
               rules: seq<RouteRule>, list: seq<ModelRoute>, breaker: B.Breaker, network: Network)
    returns (handled: Handled, ghost clients: seq<Client>, ghost views: seq<B.View>, ghost visits: seq<Visit>,
             ghost last: Visit, ghost marks: seq<B.Mark>)
    requires breaker.Valid() && network.log == []
    modifies breaker, network
    ensures breaker.Valid() && breaker.own == old(breaker.own) + marks
    ensures B.Before(old(breaker.Seen()), breaker.Seen()) && B.Successive(views, old(breaker.Seen()), breaker.Seen())
    ensures Admitted(clients, providers, Known(providers.Keys, CandidateNames(byModel, rules, list, model)), views)
    ensures handled.NoRoute? <==> clients == []
    ensures if handled.NoRoute? then network.log == [] && marks == []
            else Concluded(handled, network.log, op, clients, body, visits, last, marks, breaker.clock)
  {
    ghost var start := breaker.Seen();
    var found, known, asked := ClientsFor(providers, byModel, rules, list, breaker, model);
    clients, views, visits, last, marks := [], asked, [], Visit([], Err(NoResponse)), [];
    if found.None? {
      return NoRoute, clients, views, visits, last, marks;
    }
    clients := found.value;
    ghost var admitted := breaker.Seen();
    var selection;
    selection, visits, last, marks := SelectUpstream(op, found.value, network, breaker, body);
    B.BeforeTransitive(start, admitted, breaker.Seen());
    B.SuccessiveLater(views, start, admitted, breaker.Seen());
    if selection.Failed? {
      return NoUpstream(selection.failure), clients, views, visits, last, marks;
    }
    network.Close(selection.response.body);
    handled := Answered(selection.response, selection.FallbackUsed());
  }

  // ---------- What a finished request has done ----------

  /** What the log of an answered request shows. */
  ghost predicate Shows(log: seq<Event>, response: Response, name: string, visits: seq<Visit>, clients: seq<Client>) {
    WellFormed(response) && AnsweredBy(log, response, name) && AllRejected(log, clients, visits)
  }

  /** No ambiguous replay, every body closed, the bounds kept, and an answer from the
      candidate after the rejected ones. */
  lemma ConcludedIsSafe(handled: Handled, log: seq<Event>, op: Operation, clients: seq<Client>, body: Body,
                        visits: seq<Visit>, last: Visit, marks: seq<B.Mark>, now: B.Time)
    requires Concluded(handled, log, op, clients, body, visits, last, marks, now)
    ensures Finished(log, op, |clients|)
    ensures handled.Answered? ==> Shows(log, handled.response, clients[|visits|].name, visits, clients)
  {
    var before := Discarded(visits) + last.events;
    EndKeeps(before, op, clients, body, visits, last);
    if last.result.Ok? {
      AfterClose(before, op, clients, visits, last.result.response);
    }
  }

  lemma AfterClose(log: seq<Event>, op: Operation, clients: seq<Client>, visits: seq<Visit>, response: Response)
    requires Called(log, op, clients, visits, Ok(response)) && Bounded(log, op, |clients|)
    ensures Finished(log + [Closed(response.body)], op, |clients|)
    ensures Shows(log + [Closed(response.body)], response, clients[|visits|].name, visits, clients)
  {
    Logged(log, Closed(response.body));
    AnswersStay(log, [Closed(response.body)], clients, visits);
  }

  /** A usage event says "fallback used" only if an earlier reply of the request had a retryable status. */
  lemma FallbackFollowsRejection(response: Response, log: seq<Event>, op: Operation, clients: seq<Client>, body: Body,
                                 visits: seq<Visit>, last: Visit, marks: seq<B.Mark>, now: B.Time)
    requires Concluded(Answered(response, true), log, op, clients, body, visits, last, marks, now)
    ensures exists p :: 0 <= p < response.body && HasBody(log[p]) && Retryable(log[p].answer.status)
  {
    var before := Discarded(visits) + last.events;
    EndKeeps(before, op, clients, body, visits, last);
    assert RejectedAt(before, clients[0], visits[0]);
    var p := visits[0].result.response.body;
    assert log[p] == before[p];
  }

  /** Which answers are handed on, in numbers: those behind the first candidate that did
      not answer 429 or at least 500, or of the last candidate. */
  lemma HandedOn(handled: Handled, log: seq<Event>, op: Operation, clients: seq<Client>, body: Body,
                 visits: seq<Visit>, last: Visit, marks: seq<B.Mark>, now: B.Time)
    requires Concluded(handled, log, op, clients, body, visits, last, marks, now)
    ensures |visits| < |clients|
    ensures forall i :: 0 <= i < |visits| ==>
              && visits[i].result.Ok?
              && (visits[i].result.response.status == 429 || visits[i].result.response.status >= 500)
              && marks[i].Failure? && marks[i].name == clients[i].name
    ensures handled.Answered? && (handled.response.status == 429 || handled.response.status >= 500) ==>
              |visits| == |clients| - 1
    ensures |marks| == |visits| + if handled.Answered? && handled.response.status < 400 then 1 else 0
  {
    var before := Discarded(visits) + last.events;
    EndKeeps(before, op, clients, body, visits, last);
    forall i | 0 <= i < |visits| ensures RejectedAt(before, clients[i], visits[i]) {}
  }

  /** No ambiguous replay, said of the log alone: a POST that is followed by another was
      answered with 429 or at least 500 and its body closed in between, and no wait
      before a POST was cancelled. */
  lemma Replays(log: seq<Event>, op: Operation, k: nat, i: nat, j: nat) returns (closed: nat)
    requires Finished(log, op, k) && i < j < |log| && log[j].Posted?
    ensures log[i].Waited? ==> !log[i].cancelled
    ensures log[i].Posted? ==>
              && log[i].answer.Replied?
              && (log[i].answer.status == 429 || log[i].answer.status >= 500)
              && i < closed < j && log[closed] == Closed(i)
  {
    assert !Bars(log[i]);
    if log[i].Posted? {
      TidyPrefix(log, j + 1);
      assert log[..j + 1][..j] == log[..j];
      closed := ClosedSince(log[..j], i);
    } else {
      closed := 0;
    }
  }

  /** Every reply's body is closed once and only once. */
  lemma BodyIsClosedOnce(log: seq<Event>, op: Operation, k: nat, i: nat) returns (closed: nat)
    requires Finished(log, op, k) && i < |log| && log[i].Posted? && log[i].answer.Replied?
    ensures i < closed < |log| && log[closed] == Closed(i)
    ensures forall m :: 0 <= m < |log| && log[m] == Closed(i) ==> m == closed
  {
    closed := ClosedSince(log, i);
    forall m | 0 <= m < |log| && log[m] == Closed(i) ensures m == closed {
      if m < closed { ClosedForGood(log, m, i); }
      if closed < m { ClosedForGood(log, closed, i); }
    }
  }

  /** The bounds in numbers. */
  lemma BoundsAre(log: seq<Event>, op: Operation, k: nat)
    requires Finished(log, op, k)
    ensures Posts(log) <= if op == ChatCall(true) then k else 2 * k
    ensures Waits(log) <= if op == ChatCall(true) then 0 else k
    ensures Slept(log) == 0 || 0 < Slept(log) < 525_000_000 * k
  {
  }

  // ---------- What "fallback used" tells about the primary ----------

  predicate NamedByKey(providers: map<string, Client>) {
    forall name | name in providers :: providers[name].name == name
  }

  ghost predicate LetThrough(known: seq<string>, views: seq<B.View>, i: nat)
    requires i < |known| == |views|
  {
    B.Available(views[i].history, known[i], views[i].now)
  }

  ghost predicate NoneLetThrough(known: seq<string>, views: seq<B.View>)
    requires |known| == |views|
  {
    forall i :: 0 <= i < |known| ==> !LetThrough(known, views, i)
  }

  /** The positions of the names that were let through, in order. */
  ghost function Through(known: seq<string>, views: seq<B.View>): (positions: seq<nat>)
    requires |known| == |views|
    ensures forall k :: 0 <= k < |positions| ==> positions[k] < |known|
  {
    if known == [] then []
    else
      var n := |known| - 1;
      var rest := Through(known[..n], views[..n]);
      if LetThrough(known, views, n) then rest + [n] else rest
  }

  ghost predicate Ascending(positions: seq<nat>) {
    forall j, k :: 0 <= j < k < |positions| ==> positions[j] < positions[k]
  }

  lemma {:induction false} ThroughIs(known: seq<string>, views: seq<B.View>)
    requires |known| == |views|
    ensures Ascending(Through(known, views))
    ensures forall i :: 0 <= i < |known| ==> (LetThrough(known, views, i) <==> i in Through(known, views))
  {
    if known != [] {
      var n := |known| - 1;
      ThroughIs(known[..n], views[..n]);
      forall i | 0 <= i < n ensures LetThrough(known, views, i) <==> LetThrough(known[..n], views[..n], i) {}
    }
  }

  lemma {:induction false} UsableIs(known: seq<string>, views: seq<B.View>)
    requires |known| == |views|
    ensures |Usable(known, views)| == |Through(known, views)|
    ensures forall k :: 0 <= k < |Through(known, views)| ==> Usable(known, views)[k] == known[Through(known, views)[k]]
  {
    if known != [] {
      var n := |known| - 1;
      UsableIs(known[..n], views[..n]);
    }
  }

  /** Which name stands at a position of the candidate list. */
  lemma CandidateIs(clients: seq<Client>, providers: map<string, Client>, known: seq<string>, views: seq<B.View>,
                    k: nat)
    requires NamedByKey(providers) && Admitted(clients, providers, known, views) && k < |clients|
    ensures
      var through := Through(known, views);
      if through == [] then k == 0 && known != [] && clients[k].name == known[0]
      else |through| == |clients| && clients[k].name == known[through[k]]
  {
    UsableIs(known, views);
  }

  /** The flag says the truth when this candidate answers. */
  predicate RightAt(clients: seq<Client>, primary: string, k: nat)
    requires k < |clients|
  {
    k > 0 <==> clients[k].name != primary
  }

  /** The primary was let through once, and before everybody else. */
  ghost predicate PrimaryLeads(known: seq<string>, views: seq<B.View>)
    requires |known| == |views|
  {
    exists i ::
      && 0 <= i < |known| && LetThrough(known, views, i) && known[i] == known[0]
      && forall j :: 0 <= j < |known| && j != i && LetThrough(known, views, j) ==> i < j && known[j] != known[0]
  }

  /** What can be told before the first candidate is called. */
  ghost predicate Reliable(known: seq<string>, views: seq<B.View>)
    requires |known| == |views|
  {
    NoneLetThrough(known, views) || PrimaryLeads(known, views)
  }

  lemma RightEverywhereIff(clients: seq<Client>, providers: map<string, Client>, known: seq<string>, views: seq<B.View>)
    requires NamedByKey(providers) && Admitted(clients, providers, known, views) && known != []
    ensures (forall k :: 0 <= k < |clients| ==> RightAt(clients, known[0], k)) <==> Reliable(known, views)
  {
    var through := Through(known, views);
    ThroughIs(known, views);
    UsableIs(known, views);
    forall k | 0 <= k < |clients|
      ensures through == [] ==> clients[k].name == known[0]
      ensures through != [] ==> clients[k].name == known[through[k]]
    {
      CandidateIs(clients, providers, known, views, k);
    }
    if through != [] {
      assert LetThrough(known, views, through[0]);
      if forall k :: 0 <= k < |clients| ==> RightAt(clients, known[0], k) {
        LeadsIfRight(clients, known, views, through);
      }
      if PrimaryLeads(known, views) {
        RightIfLeads(clients, known, views, through);
      }
    }
  }

  lemma LeadsIfRight(clients: seq<Client>, known: seq<string>, views: seq<B.View>, through: seq<nat>)
    requires |known| == |views| && through == Through(known, views) != [] && |clients| == |through|
    requires forall k :: 0 <= k < |clients| ==> clients[k].name == known[through[k]] && RightAt(clients, known[0], k)
    ensures PrimaryLeads(known, views)
  {
    ThroughIs(known, views);
    var i := through[0];
    assert RightAt(clients, known[0], 0) && i in through;
    forall j | 0 <= j < |known| && j != i && LetThrough(known, views, j) ensures i < j && known[j] != known[0] {
      assert j in through;
      var k :| 0 <= k < |through| && through[k] == j;
      assert RightAt(clients, known[0], k);
    }
  }

  lemma RightIfLeads(clients: seq<Client>, known: seq<string>, views: seq<B.View>, through: seq<nat>)
    requires |known| == |views| && through == Through(known, views) != [] && |clients| == |through|
    requires forall k :: 0 <= k < |clients| ==> clients[k].name == known[through[k]]
    requires PrimaryLeads(known, views)
    ensures forall k :: 0 <= k < |clients| ==> RightAt(clients, known[0], k)
  {
    ThroughIs(known, views);
    var i :| 0 <= i < |known| && LetThrough(known, views, i) && known[i] == known[0]
             && forall j :: 0 <= j < |known| && j != i && LetThrough(known, views, j) ==> i < j && known[j] != known[0];
    assert i in through;
    var at :| 0 <= at < |through| && through[at] == i;
    assert through[0] in through;
    assert at == 0;
    forall k | 0 <= k < |clients| ensures RightAt(clients, known[0], k) {
      assert through[k] in through;
    }
  }

  // ---------- Every candidate may be the one that answers ----------

  predicate Callable(op: Operation, c: Client, body: Body) {
    c.apiKey != "" && op.Wire(c, body).Some?
  }

  function Post(op: Operation, c: Client, body: Body, status: int): Event
    requires Callable(op, c, body)
  {
    Posted(c.name, op.Wire(c, body).value, Replied(status, Absent))
  }

  /** A candidate that answers 429 as often as it is asked. */
  function Rejecting(op: Operation, c: Client, body: Body, base: nat): (visit: Visit)
    requires Callable(op, c, body)
    ensures Calls(op, c, body, base, visit)
    ensures visit.result.Ok? && visit.result.response.status == 429
  {
    var post := Post(op, c, body, 429);
    if op.Retries()
    then Visit([post, Closed(base), Waited(100 * MILLISECOND, false), post],
               Ok(Response(429, base + 3, 2, "rate_limited")))
    else Visit([post], Ok(Response(429, base, 1, "")))
  }

  /** A candidate that answers 200 at once. */
  function Answering(op: Operation, c: Client, body: Body, base: nat): (visit: Visit)
    requires Callable(op, c, body)
    ensures Calls(op, c, body, base, visit)
    ensures visit.result.Ok? && visit.result.response.status == 200
  {
    Visit([Post(op, c, body, 200)], Ok(Response(200, base, 1, "")))
  }

  lemma {:induction false} AllRejecting(op: Operation, clients: seq<Client>, body: Body, k: nat)
    returns (visits: seq<Visit>)
    requires k <= |clients| && forall i :: 0 <= i < k ==> Callable(op, clients[i], body)
    ensures |visits| == k && Rejected(op, clients, body, visits)
  {
    visits := [];
    if k > 0 {
      visits := AllRejecting(op, clients, body, k - 1);
      var visit := Rejecting(op, clients[k - 1], body, |Discarded(visits)|);
      RejectedNext(op, clients, body, visits, visit);
      visits := visits + [visit];
    }
  }

  /** A request in which the first `k` candidates are rejected and the next one answers. */
  lemma AnswerAt(op: Operation, clients: seq<Client>, body: Body, k: nat, now: B.Time)
    returns (response: Response, log: seq<Event>, visits: seq<Visit>, last: Visit, marks: seq<B.Mark>)
    requires k < |clients| && forall i :: 0 <= i <= k ==> Callable(op, clients[i], body)
    ensures |visits| == k && response.status == 200
    ensures Concluded(Answered(response, k > 0), log, op, clients, body, visits, last, marks, now)
  {
    visits := AllRejecting(op, clients, body, k);
    last := Answering(op, clients[k], body, |Discarded(visits)|);
    response := last.result.response;
    log := Discarded(visits) + last.events + [Closed(response.body)];
    var failures := seq(k, i requires 0 <= i < k => B.Failure(clients[i].name, now));
    marks := failures + [B.Success(clients[k].name, now)];
    assert marks[k..] == [B.Success(clients[k].name, now)];
  }

  /** However the candidates answer, "fallback used" says whether another provider than the primary answered. */
  ghost predicate AlwaysRight(op: Operation, clients: seq<Client>, body: Body, primary: string) {
    forall response, used, log, visits, last, marks, now ::
      Concluded(Answered(response, used), log, op, clients, body, visits, last, marks, now) ==>
        (used <==> clients[|visits|].name != primary)
  }

  lemma WrongSomewhere(op: Operation, clients: seq<Client>, body: Body, primary: string, k: nat)
    requires k < |clients| && !RightAt(clients, primary, k)
    requires forall i :: 0 <= i < |clients| ==> Callable(op, clients[i], body)
    ensures !AlwaysRight(op, clients, body, primary)
  {
    var response, log, visits, last, marks := AnswerAt(op, clients, body, k, 0);
  }

  lemma RightEverywhere(op: Operation, clients: seq<Client>, body: Body, primary: string)
    requires forall k :: 0 <= k < |clients| ==> RightAt(clients, primary, k)
    ensures AlwaysRight(op, clients, body, primary)
  {
    forall response, used, log, visits, last, marks, now |
      Concluded(Answered(response, used), log, op, clients, body, visits, last, marks, now)
      ensures used <==> clients[|visits|].name != primary
    {
      assert RightAt(clients, primary, |visits|);
    }
  }

  /** The flag can be relied on, whatever the candidates answer, exactly when nobody was
      let through by the breaker or the primary was, once and before everybody else. */
  lemma FallbackFlagIsReliableIff(op: Operation, clients: seq<Client>, body: Body, providers: map<string, Client>,
                                  known: seq<string>, views: seq<B.View>)
    requires NamedByKey(providers) && Admitted(clients, providers, known, views) && known != []
    ensures Reliable(known, views) ==> AlwaysRight(op, clients, body, known[0])
    ensures (forall i :: 0 <= i < |clients| ==> Callable(op, clients[i], body)) ==>
              (AlwaysRight(op, clients, body, known[0]) <==> Reliable(known, views))
  {
    RightEverywhereIff(clients, providers, known, views);
    if Reliable(known, views) {
      RightEverywhere(op, clients, body, known[0]);
    } else if forall i :: 0 <= i < |clients| ==> Callable(op, clients[i], body) {
      var k :| 0 <= k < |clients| && !RightAt(clients, known[0], k);
      WrongSomewhere(op, clients, body, known[0], k);
    }
  }

  /** No fallback repeats the primary. */
  predicate Unrepeated(known: seq<string>) {
    known != [] && known[0] !in known[1..]
  }

  lemma OthersDiffer(known: seq<string>, j: nat)
    requires Unrepeated(known) && 0 < j < |known|
    ensures known[j] != known[0]
  {
    assert known[1..][j - 1] == known[j];
  }

  /** For a primary that no fallback repeats: it is enough that it was let through, or nobody. */
  lemma UnrepeatedIsReliableIff(known: seq<string>, views: seq<B.View>)
    requires |known| == |views| && Unrepeated(known)
    ensures Reliable(known, views) <==> LetThrough(known, views, 0) || NoneLetThrough(known, views)
  {
    forall j | 0 < j < |known| ensures known[j] != known[0] {
      OthersDiffer(known, j);
    }
  }

  /** If such a primary was shut out and somebody else was not, the primary does not
      answer, and the flag is right exactly when the first admitted candidate was rejected. */
  lemma ShutOutPrimary(response: Response, used: bool, log: seq<Event>, op: Operation, clients: seq<Client>, body: Body,
                       visits: seq<Visit>, last: Visit, marks: seq<B.Mark>, now: B.Time,
                       providers: map<string, Client>, known: seq<string>, views: seq<B.View>)
    requires Concluded(Answered(response, used), log, op, clients, body, visits, last, marks, now)
    requires NamedByKey(providers) && Admitted(clients, providers, known, views) && Unrepeated(known)
    requires !LetThrough(known, views, 0) && !NoneLetThrough(known, views)
    ensures AnsweredBy(log, response, clients[|visits|].name) && clients[|visits|].name != known[0]
    ensures (used <==> clients[|visits|].name != known[0]) <==> visits != []
  {
    ConcludedIsSafe(Answered(response, used), log, op, clients, body, visits, last, marks, now);
    CandidateIs(clients, providers, known, views, |visits|);
    ThroughIs(known, views);
    var through := Through(known, views);
    assert through != [];
    var i := through[|visits|];
    assert i in through;
    OthersDiffer(known, i);
  }

  // ---------- Two requests for which the flag is wrong ----------

  const PRIMARY := Client("a", "key", "openai-compatible", map[])
  const BACKUP := Client("b", "key", "openai-compatible", map[])
  const PROVIDERS := map["a" := PRIMARY, "b" := BACKUP]
  const REQUEST := Object(map[MODEL := Str("m")])

  /** Model "m" is routed to "a", with the given fallback. */
  function ListWith(fallback: string): seq<ModelRoute> {
    [ModelRoute("m", "a", "", [fallback])]
  }

  lemma RequestIsCallable(c: Client)
    requires c == PRIMARY || c == BACKUP
    ensures Callable(ChatCall(false), c, REQUEST)
  {
    StripMeaning(c.name, "m");
    KindsDiffer();
    assert c.apiKey != "" by { assert |c.apiKey| == 3; }
  }

  lemma RequestAnsweredAt(clients: seq<Client>, k: nat, now: B.Time)
    returns (response: Response, log: seq<Event>, visits: seq<Visit>, last: Visit, marks: seq<B.Mark>)
    requires k < |clients| && (clients == [BACKUP] || clients == [PRIMARY, PRIMARY])
    ensures Concluded(Answered(response, k > 0), log, ChatCall(false), clients, REQUEST, visits, last, marks, now)
    ensures |visits| == k
  {
    forall i | 0 <= i <= k ensures Callable(ChatCall(false), clients[i], REQUEST) {
      RequestIsCallable(clients[i]);
    }
    response, log, visits, last, marks := AnswerAt(ChatCall(false), clients, REQUEST, k, now);
  }

  lemma ProvidersAreNamed()
    ensures NamedByKey(PROVIDERS)
  {
  }

  /** The list is valid, and these are the candidates for "m". */
  lemma ListIsValid(fallback: string)
    requires fallback == "a" || fallback == "b"
    ensures ValidRouting(PROVIDERS.Keys, ListWith(fallback), [])
    ensures RoutesNormalized(map[], ListWith(fallback), map["m" := "a"])
    ensures Known(PROVIDERS.Keys, CandidateNames(map["m" := "a"], [], ListWith(fallback), "m")) == ["a", fallback]
  {
    var list := ListWith(fallback);
    assert "m" != "" && "a" != "" by { assert |"m"| == |"a"| == 1; }
    assert GoodRoute(PROVIDERS.Keys, list[0]);
    forall model ensures Lookup(map["m" := "a"], model) == RouteOf(map[], list, model) {
      LastEntryNext([], list[0], model);
      assert list == [] + [list[0]];
    }
    assert CandidateNames(map["m" := "a"], [], list, "m") == ["a"] + [fallback] == ["a", fallback];
    KnownAll(PROVIDERS.Keys, ["a", fallback]);
  }

  const TRIPPED := B.View([B.Failure("a", 0), B.Failure("a", 1)], 2)

  lemma PrimaryIsShutOut()
    ensures !B.Available(TRIPPED.history, "a", TRIPPED.now) && B.Available(TRIPPED.history, "b", TRIPPED.now)
  {
    var first, both := B.Failure("a", 0), TRIPPED.history;
    assert both == [] + [first] + [B.Failure("a", 1)];
    B.StreakNext([], first, "a");
    B.StreakNext([first], B.Failure("a", 1), "a");
    B.StreakNext([], first, "b");
    B.StreakNext([first], B.Failure("a", 1), "b");
    assert B.Streak(both, "a")[1] == 1;
  }

  lemma BackupIsAdmitted()
    ensures Admitted([BACKUP], PROVIDERS, ["a", "b"], [TRIPPED, TRIPPED])
  {
    PrimaryIsShutOut();
    UsableOfTwo("a", "b", TRIPPED, TRIPPED);
    assert ["b"][..0] == [];
  }

  lemma UsableOfTwo(first: string, second: string, v: B.View, w: B.View)
    ensures Usable([first, second], [v, w])
            == (if B.Available(v.history, first, v.now) then [first] else [])
               + (if B.Available(w.history, second, w.now) then [second] else [])
  {
    Appended([first], second);
    Appended([v], w);
    assert [first, second] == [first] + [second] && [v, w] == [v] + [w];
    assert [first][..0] == [] && [v][..0] == [];
    assert Usable([first], [v]) == if B.Available(v.history, first, v.now) then [first] else [];
  }

  /** After two failures of the primary its fallback answers at once, and the flag is false. */
  lemma SkippedPrimaryIsNotReported()
    returns (response: Response, log: seq<Event>, visits: seq<Visit>, last: Visit, marks: seq<B.Mark>)
    ensures ValidRouting(PROVIDERS.Keys, ListWith("b"), []) && RoutesNormalized(map[], ListWith("b"), map["m" := "a"])
    ensures Known(PROVIDERS.Keys, CandidateNames(map["m" := "a"], [], ListWith("b"), "m")) == ["a", "b"]
    ensures NamedByKey(PROVIDERS) && Admitted([BACKUP], PROVIDERS, ["a", "b"], [TRIPPED, TRIPPED])
    ensures Concluded(Answered(response, false), log, ChatCall(false), [BACKUP], REQUEST, visits, last, marks, 2)
    ensures visits == [] && BACKUP.name != "a"
  {
    ProvidersAreNamed();
    ListIsValid("b");
    BackupIsAdmitted();
    response, log, visits, last, marks := RequestAnsweredAt([BACKUP], 0, 2);
  }

  const UNTRIED := B.View([], 0)

  lemma PrimaryIsAdmittedTwice()
    ensures Admitted([PRIMARY, PRIMARY], PROVIDERS, ["a", "a"], [UNTRIED, UNTRIED])
  {
    UsableOfTwo("a", "a", UNTRIED, UNTRIED);
    Appended(["a"], "a");
    assert ["a"] + ["a"] == ["a", "a"] && ["a"][..0] == [];
    assert ClientsOf(PROVIDERS, ["a"]) == [PRIMARY];
  }

  /** A fallback list may repeat the primary: rejected at first, it answers the second
      call, and the flag is true. */
  lemma RepeatedPrimaryIsReported()
    returns (response: Response, log: seq<Event>, visits: seq<Visit>, last: Visit, marks: seq<B.Mark>)
    ensures ValidRouting(PROVIDERS.Keys, ListWith("a"), []) && RoutesNormalized(map[], ListWith("a"), map["m" := "a"])
    ensures Known(PROVIDERS.Keys, CandidateNames(map["m" := "a"], [], ListWith("a"), "m")) == ["a", "a"]
    ensures NamedByKey(PROVIDERS) && Admitted([PRIMARY, PRIMARY], PROVIDERS, ["a", "a"], [UNTRIED, UNTRIED])
    ensures Concluded(Answered(response, true), log, ChatCall(false), [PRIMARY, PRIMARY], REQUEST,
                      visits, last, marks, 0)
    ensures |visits| == 1 && PRIMARY.name == "a"
  {
    ProvidersAreNamed();
    ListIsValid("a");
    PrimaryIsAdmittedTwice();
    response, log, visits, last, marks := RequestAnsweredAt([PRIMARY, PRIMARY], 1, 0);
  }

  // ---------- From the configuration file to the answer ----------

  predicate Listed(list: seq<ModelRoute>, model: string) {
    exists i | 0 <= i < |list| :: list[i].modelName == model
  }

  /** A listed model gets a candidate under every configuration that loads. */
  lemma ListedIsKnown(config: Config, before: map<string, string>, model: string)
    requires ValidRouting(config.providers.Keys, config.modelList, config.rules)
    requires RoutesNormalized(before, config.modelList, config.routes)
    requires Listed(config.modelList, model)
    ensures Known(config.providers.Keys, CandidateNames(config.routes, config.rules, config.modelList, model)) != []
  {
    var i :| 0 <= i < |config.modelList| && config.modelList[i].modelName == model;
    ListedModelsResolve(config.providers.Keys, config.modelList, config.rules, before, config.routes, model, i);
  }

  /** Loading of the configuration: routes and aliases, environment, validation. */
  method Load(config: Config, env: map<string, string>, keys: map<string, string>) returns (ok: bool)
    modifies config
    ensures ok <==> ValidRouting(config.providers.Keys, config.modelList, config.rules)
    ensures config.providers.Keys == old(config.providers).Keys
    ensures RoutesNormalized(old(config.routes), config.modelList, config.routes)
  {
    config.NormalizeModelRoutes();
    config.ApplyEnvironment(env, keys);
    ok := config.ValidateRouting();
  }

  /** Loading of the configuration, and one request under it: whatever the breaker says
      and whatever other requests do, a listed model has a route. */
  method LoadAndServe(config: Config, env: map<string, string>, keys: map<string, string>, op: Operation, body: Body,
                      model: string, breaker: B.Breaker, network: Network)
    returns (loaded: bool, handled: Handled)
    requires breaker.Valid() && network.log == []
    modifies config, breaker, network
    ensures loaded <==> ValidRouting(old(config.providers).Keys, config.modelList, config.rules)
    ensures !loaded ==> handled == NoRoute && network.log == []
    ensures loaded && Listed(config.modelList, model) ==> !handled.NoRoute?
  {
    ghost var before := config.routes;
    loaded := Load(config, env, keys);
    if !loaded {
      return false, NoRoute;
    }
    if Listed(config.modelList, model) {
      ListedIsKnown(config, before, model);
    }
    ghost var clients, views, visits, last, marks;
    handled, clients, views, visits, last, marks :=
      Serve(op, body, model, config.providers, config.routes, config.rules, config.modelList, breaker, network);
  }
}
