/** The candidate loop of the chat and embedding handlers
    (internal/router/router.go:406-442, 529-565). */
module Fallback {
  import opened Sequences
  import opened Rewriting
  import opened Provider
  import B = Breaker

  datatype Operation = ChatCall(stream: bool) | EmbeddingCall {
    predicate Retries() {
      this != ChatCall(true)
    }

    function Wire(c: Client, body: Body): Option<Body> {
      if ChatCall? then ChatWire(c, body) else EmbeddingWire(c, body)
    }

    function PostsPerClient(): nat {
      if Retries() then 2 else 1
    }

    function WaitsPerClient(): nat {
      if Retries() then 1 else 0
    }
  }

  datatype Selection = Failed(failure: Failure) | Selected(response: Response, client: Client, index: nat) {
    /** What usage events report. */
    predicate FallbackUsed() {
      Selected? && index > 0
    }
  }

  /** One called candidate: what the call did upstream and what it returned. */
  datatype Visit = Visit(events: seq<Event>, result: CallResult)

  // ---------- The shape of the log ----------

  ghost predicate Calls(op: Operation, c: Client, body: Body, base: nat, visit: Visit) {
    Exchange(c, op.Wire(c, body), op.Retries(), base, visit.events, visit.result)
  }

  /** The log of candidates that were called one after the other, each discarded after its answer. */
  function Discarded(visits: seq<Visit>): seq<Event> {
    if visits == [] then []
    else
      var last := visits[|visits| - 1];
      Discarded(visits[..|visits| - 1]) + last.events
      + if last.result.Ok? then [Closed(last.result.response.body)] else []
  }

  /** The candidates up to that number, in list order, were called once each and
      answered with a retryable status. */
  ghost predicate Rejected(op: Operation, clients: seq<Client>, body: Body, visits: seq<Visit>) {
    && |visits| <= |clients|
    && (visits == [] ||
        (var n := |visits| - 1;
         && Rejected(op, clients, body, visits[..n])
         && Calls(op, clients[n], body, |Discarded(visits[..n])|, visits[n])
         && visits[n].result.Ok? && Retryable(visits[n].result.response.status)))
  }

  /** What the loop makes of the last candidate called. */
  function Verdict(clients: seq<Client>, index: nat, result: CallResult): Selection
    requires index < |clients|
  {
    match result
    case Err(failure) => Failed(failure)
    case Ok(response) => Selected(response, clients[index], index)
  }

  /** The whole log of the loop: rejected candidates in list order, then the last one
      called, which failed, answered with a final status, or was the end of the list. */
  ghost predicate Ends(log: seq<Event>, op: Operation, clients: seq<Client>, body: Body, visits: seq<Visit>,
                       last: Visit) {
    && Rejected(op, clients, body, visits) && |visits| < |clients|
    && Calls(op, clients[|visits|], body, |Discarded(visits)|, last)
    && log == Discarded(visits) + last.events
    && (last.result.Ok? && Retryable(last.result.response.status) ==> |visits| == |clients| - 1)
  }

  /** One failure mark per rejected candidate, in order. */
  ghost predicate MarksFailures(marks: seq<B.Mark>, clients: seq<Client>, n: nat) {
    && n <= |marks| && n <= |clients|
    && forall i :: 0 <= i < n ==> marks[i].Failure? && marks[i].name == clients[i].name
  }

  /** One candidate. */
  method Call(op: Operation, c: Client, network: Network, body: Body) returns (result: CallResult, ghost visit: Visit)
    modifies network
    ensures network.log == old(network.log) + visit.events && visit.result == result
    ensures Calls(op, c, body, |old(network.log)|, visit)
  {
    ghost var events;
    if op.ChatCall? {
      result, events := Chat(c, network, body, op.stream);
    } else {
      result, events := Embedding(c, network, body);
    }
    visit := Visit(events, result);
  }

  /** The mark for a good answer, behind whatever other requests have marked. */
  method Accept(breaker: B.Breaker, name: string)
    requires breaker.Valid()
    modifies breaker
    ensures breaker.Valid() && B.Before(old(breaker.Seen()), breaker.Seen())
    ensures breaker.own == old(breaker.own) + [B.Success(name, breaker.clock)]
  {
    breaker.Others();
    breaker.MarkSuccess(name);
  }

  /** The mark for a rejected candidate, behind whatever other requests have marked. */
  method Reject(breaker: B.Breaker, name: string)
    requires breaker.Valid()
    modifies breaker
    ensures breaker.Valid() && B.Before(old(breaker.Seen()), breaker.Seen())
    ensures breaker.own == old(breaker.own) + [B.Failure(name, breaker.clock)]
  {
    breaker.Others();
    breaker.MarkFailure(name);
  }

  /** The candidate loop: each candidate in turn until one answers with a status that
      is final, or fails, or is the last. Other requests may mark providers meanwhile. */
  method SelectUpstream(op: Operation, clients: seq<Client>, network: Network, breaker: B.Breaker, body: Body)
    returns (selection: Selection, ghost visits: seq<Visit>, ghost last: Visit, ghost marks: seq<B.Mark>)
    requires clients != []
    requires network.log == [] && breaker.Valid()
    modifies network, breaker
    ensures Ends(network.log, op, clients, body, visits, last)
    ensures selection == Verdict(clients, |visits|, last.result)
    ensures breaker.Valid() && B.Before(old(breaker.Seen()), breaker.Seen())
    ensures breaker.own == old(breaker.own) + marks
    ensures MarksFailures(marks, clients, |visits|)
    ensures marks[|visits|..] ==
            if selection.Selected? && selection.response.status < 400
            then [B.Success(selection.client.name, breaker.clock)] else []
  {
    ghost var start := breaker.Seen();
    visits, marks := [], [];
    var index := 0;
    while index < |clients|
      invariant index == |visits| == |marks| < |clients|
      invariant breaker.Valid() && B.Before(start, breaker.Seen())
      invariant breaker.own == old(breaker.own) + marks && MarksFailures(marks, clients, index)
      invariant network.log == Discarded(visits) && Rejected(op, clients, body, visits)
      decreases |clients| - index
    {
      var candidate := clients[index];
      var result;
      result, last := Call(op, candidate, network, body);
      if result.Err? {
        return Failed(result.failure), visits, last, marks;
      }
      var response := result.response;
      if !Retryable(response.status) || index == |clients| - 1 {
        if response.status < 400 {
          ghost var seen := breaker.Seen();
          Accept(breaker, candidate.name);
          B.BeforeTransitive(start, seen, breaker.Seen());
          ConcatAssociative(old(breaker.own), marks, [B.Success(candidate.name, breaker.clock)]);
          marks := marks + [B.Success(candidate.name, breaker.clock)];
        }
        return Selected(response, candidate, index), visits, last, marks;
      }
      network.Close(response.body);
      ghost var seen := breaker.Seen();
      Reject(breaker, candidate.name);
      B.BeforeTransitive(start, seen, breaker.Seen());
      MarkNext(marks, clients, candidate.name, breaker.clock);
      ConcatAssociative(old(breaker.own), marks, [B.Failure(candidate.name, breaker.clock)]);
      marks := marks + [B.Failure(candidate.name, breaker.clock)];
      RejectedNext(op, clients, body, visits, last);
      visits := visits + [last];
      index := index + 1;
    }
    assert false;
  }

  lemma MarkNext(marks: seq<B.Mark>, clients: seq<Client>, name: string, now: B.Time)
    requires MarksFailures(marks, clients, |marks|) && |marks| < |clients| && name == clients[|marks|].name
    ensures MarksFailures(marks + [B.Failure(name, now)], clients, |marks| + 1)
  {
  }

  lemma RejectedNext(op: Operation, clients: seq<Client>, body: Body, visits: seq<Visit>, last: Visit)
    requires Rejected(op, clients, body, visits) && |visits| < |clients|
    requires Calls(op, clients[|visits|], body, |Discarded(visits)|, last)
    requires last.result.Ok? && Retryable(last.result.response.status)
    ensures Rejected(op, clients, body, visits + [last])
    ensures Discarded(visits + [last]) == Discarded(visits) + last.events + [Closed(last.result.response.body)]
  {
    Appended(visits, last);
  }

  // ---------- What follows for the whole request ----------

  /** The reply `response` came from a POST to the named provider. */
  ghost predicate AnsweredBy(log: seq<Event>, response: Response, name: string) {
    && response.body < |log|
    && HasBody(log[response.body])
    && log[response.body].provider == name
    && log[response.body].answer.status == response.status
  }

  ghost predicate RejectedAt(log: seq<Event>, c: Client, visit: Visit) {
    && visit.result.Ok?
    && Retryable(visit.result.response.status)
    && AnsweredBy(log, visit.result.response, c.name)
  }

  /** Every candidate so far answered with a retryable status. */
  ghost predicate AllRejected(log: seq<Event>, clients: seq<Client>, visits: seq<Visit>) {
    && |visits| <= |clients|
    && forall i :: 0 <= i < |visits| ==> RejectedAt(log, clients[i], visits[i])
  }

  /** The bounds on a log after `n` client calls. */
  ghost predicate Bounded(log: seq<Event>, op: Operation, n: nat) {
    && Posts(log) <= n * op.PostsPerClient()
    && Waits(log) <= n * op.WaitsPerClient()
    && 0 <= Slept(log)
    && (Slept(log) == 0 || Slept(log) < n * (MAX_DELAY + JITTER))
  }

  lemma BoundedNext(log: seq<Event>, all: seq<Event>, op: Operation, n: nat)
    requires Bounded(log, op, n) && Within(log, all, op.PostsPerClient(), op.WaitsPerClient())
    ensures Bounded(all, op, n + 1)
  {
    assert (n + 1) * (MAX_DELAY + JITTER) == n * (MAX_DELAY + JITTER) + (MAX_DELAY + JITTER);
    assert op.WaitsPerClient() * (MAX_DELAY + JITTER) <= MAX_DELAY + JITTER;
    assert (n + 1) * op.PostsPerClient() == n * op.PostsPerClient() + op.PostsPerClient();
    assert (n + 1) * op.WaitsPerClient() == n * op.WaitsPerClient() + op.WaitsPerClient();
  }

  lemma Scale(log: seq<Event>, op: Operation, n: nat, k: nat)
    requires Bounded(log, op, n) && n <= k
    ensures Bounded(log, op, k)
  {
    assert n * op.PostsPerClient() <= k * op.PostsPerClient();
    assert n * op.WaitsPerClient() <= k * op.WaitsPerClient();
    assert n * (MAX_DELAY + JITTER) <= k * (MAX_DELAY + JITTER);
  }

  lemma AnswersStay(log: seq<Event>, events: seq<Event>, clients: seq<Client>, visits: seq<Visit>)
    requires AllRejected(log, clients, visits)
    ensures AllRejected(log + events, clients, visits)
  {
    forall i | 0 <= i < |visits|
      ensures RejectedAt(log + events, clients[i], visits[i])
    {
      assert RejectedAt(log, clients[i], visits[i]);
    }
  }

  /** Before the next candidate is called, all the previous ones having been rejected. */
  ghost predicate Progress(log: seq<Event>, op: Operation, clients: seq<Client>, visits: seq<Visit>) {
    Settled(log) && Bounded(log, op, |visits|) && AllRejected(log, clients, visits)
  }

  /** After a candidate was called. */
  ghost predicate Called(log: seq<Event>, op: Operation, clients: seq<Client>, visits: seq<Visit>, result: CallResult) {
    && |visits| < |clients|
    && Tidy(log) && Lawful(log) && Bounded(log, op, |visits| + 1) && AllRejected(log, clients, visits)
    && (result.Err? ==> Open(log) == {})
    && (result.Ok? ==>
          && Holds(log, result.response) && WellFormed(result.response)
          && AnsweredBy(log, result.response, clients[|visits|].name)
          && (visits != [] ==> visits[0].result.response.body < result.response.body)
          && (Clear(log) <==> Retryable(result.response.status)))
  }

  lemma CallKeeps(op: Operation, clients: seq<Client>, body: Body, log: seq<Event>, visits: seq<Visit>, visit: Visit)
    requires Progress(log, op, clients, visits) && |visits| < |clients|
    requires Calls(op, clients[|visits|], body, |log|, visit)
    ensures Called(log + visit.events, op, clients, visits, visit.result)
  {
    var c := clients[|visits|];
    ExchangeKeeps(log, c, op.Wire(c, body), op.Retries(), visit.events, visit.result);
    BoundedNext(log, log + visit.events, op, |visits|);
    AnswersStay(log, visit.events, clients, visits);
    if visit.result.Ok? {
      if visits != [] { assert RejectedAt(log, clients[0], visits[0]); }
      TwoAttemptsIffReason(c, op.Wire(c, body), op.Retries(), |log|, visit.events, visit.result);
    }
  }

  /** Closing the body of a rejected candidate. */
  lemma DiscardKeeps(log: seq<Event>, op: Operation, clients: seq<Client>, visits: seq<Visit>, visit: Visit)
    requires Called(log, op, clients, visits, visit.result)
    requires visit.result.Ok? && Retryable(visit.result.response.status)
    ensures Progress(log + [Closed(visit.result.response.body)], op, clients, visits + [visit])
  {
    var closed := Closed(visit.result.response.body);
    Logged(log, closed);
    AnswersStay(log, [closed], clients, visits);
    assert RejectedAt(log + [closed], clients[|visits|], visit);
  }

  /** Rejected candidates leave the log settled, within the bounds and with their answers on record. */
  lemma {:induction false} RejectedKeeps(op: Operation, clients: seq<Client>, body: Body, visits: seq<Visit>)
    requires Rejected(op, clients, body, visits)
    ensures Progress(Discarded(visits), op, clients, visits)
    decreases |visits|
  {
    if visits != [] {
      var n := |visits| - 1;
      RejectedKeeps(op, clients, body, visits[..n]);
      CallKeeps(op, clients, body, Discarded(visits[..n]), visits[..n], visits[n]);
      DiscardKeeps(Discarded(visits[..n]) + visits[n].events, op, clients, visits[..n], visits[n]);
      FrontAndLast(visits);
    }
  }

  /** How a request stands after the loop: no ambiguous replay, body ownership, the
      bounds, and the reply that is held. */
  lemma EndKeeps(log: seq<Event>, op: Operation, clients: seq<Client>, body: Body, visits: seq<Visit>, last: Visit)
    requires Ends(log, op, clients, body, visits, last)
    ensures Called(log, op, clients, visits, last.result)
    ensures Bounded(log, op, |clients|)
  {
    RejectedKeeps(op, clients, body, visits);
    CallKeeps(op, clients, body, Discarded(visits), visits, last);
    Scale(log, op, |visits| + 1, |clients|);
  }

  // ---------- Nobody but the candidates, nothing but the prepared body ----------

  /** The event is not a POST, or sends the client the body as prepared for it. */
  ghost predicate SentTo(event: Event, op: Operation, c: Client, body: Body) {
    event.Posted? ==> event.provider == c.name && op.Wire(c, body) == Some(event.payload)
  }

  lemma PostCount(events: seq<Event>)
    ensures |events| == 1 ==> Posts(events) <= 1
    ensures |events| == 3 && events[1].Closed? && events[2].Waited? ==> Posts(events) <= 1
    ensures |events| == 4 && events[1].Closed? && events[2].Waited? ==> Posts(events) <= 2
  {
    if |events| == 3 || |events| == 4 {
      var e, rest := events[0], events[..3];
      assert rest[..2] == [e, events[1]] && rest[..2][..1] == [e] && [e][..0] == [];
      if |events| == 3 { assert rest == events; }
    }
  }

  /** The call of a candidate posts only to this candidate, and the prepared body each time. */
  lemma VisitSends(op: Operation, c: Client, body: Body, base: nat, visit: Visit, i: nat)
    requires Calls(op, c, body, base, visit) && i < |visit.events|
    ensures SentTo(visit.events[i], op, c, body)
  {
    assert visit.events[i].Posted? ==> i == 0 || i == 3;
  }

  /** It posts at most twice, for a stream once. */
  lemma VisitPosts(op: Operation, c: Client, body: Body, base: nat, visit: Visit)
    requires Calls(op, c, body, base, visit)
    ensures Posts(visit.events) <= op.PostsPerClient()
  {
    PostCount(visit.events);
  }
}
