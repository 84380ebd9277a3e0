/** The bounded retry of one provider client (internal/provider/provider.go:83-157, 240-270)
    and the log of everything it does upstream. */
module Provider {
  import opened Sequences
  import opened Rewriting
  import Usage

  // ---------- Waiting before the second attempt ----------

  /** The `Retry-After` header: absent, decimal seconds, a date (as its distance
      from now in nanoseconds), or neither. */
  datatype RetryAfter = Absent | Seconds(n: int) | Date(distance: int) | Unreadable

  const MILLISECOND := 1_000_000
  const MAX_DELAY := 500 * MILLISECOND
  const JITTER := 25 * MILLISECOND

  function Clamp(delay: int): (r: int)
    ensures 0 <= r <= MAX_DELAY
  {
    if delay < 0 then 0 else if delay > MAX_DELAY then MAX_DELAY else delay
  }

  /** The wait that the header asks for, before jitter. Seconds are multiplied in
      64 bits, so a huge value wraps around. */
  function Asked(header: RetryAfter, attempt: nat): int {
    match header
    case Seconds(n) => if n >= 0 then Usage.Wrap64(n * 1000 * MILLISECOND) else 100 * MILLISECOND
    case Date(distance) => distance
    case Absent => 100 * MILLISECOND * Backoff(attempt)
    case Unreadable => 100 * MILLISECOND
  }

  /** `1 << min(attempt, 4)`. */
  function Backoff(attempt: nat): int {
    if attempt == 0 then 1 else if attempt >= 4 then 16 else 2 * Backoff(attempt - 1)
  }

  /** The delays that a header can lead to: what it asks for, clamped, and up to 25 ms of jitter. */
  predicate CanWait(header: RetryAfter, attempt: nat, delay: int) {
    Clamp(Asked(header, attempt)) <= delay < Clamp(Asked(header, attempt)) + JITTER
  }

  /** The delay computed by `waitForRetry`. `jitter` is the random draw, `None` if drawing failed. */
  method RetryDelay(header: RetryAfter, attempt: nat, jitter: Option<nat>) returns (delay: int)
    requires jitter.Some? ==> jitter.value < JITTER
    ensures 0 <= delay < MAX_DELAY + JITTER
    ensures delay == Clamp(Asked(header, attempt)) + if jitter.Some? then jitter.value else 0
  {
    delay := 100 * MILLISECOND;
    if header != Absent {
      if header.Seconds? && header.n >= 0 {
        delay := Usage.Wrap64(header.n * 1000 * MILLISECOND);
      } else if header.Date? {
        delay := header.distance;
      }
    } else if attempt > 0 {
      delay := delay * Backoff(attempt);
    }
    if delay < 0 {
      delay := 0;
    }
    if delay > MAX_DELAY {
      delay := MAX_DELAY;
    }
    if jitter.Some? {
      delay := delay + jitter.value;
    }
  }

  /** The possible waits before the second attempt, in nanoseconds, for every header. */
  lemma WaitsAre(header: RetryAfter, delay: int)
    ensures header == Absent || header == Unreadable ==>
              (CanWait(header, 0, delay) <==> 100_000_000 <= delay < 125_000_000)
    ensures header.Seconds? && header.n < 0 ==> (CanWait(header, 0, delay) <==> 100_000_000 <= delay < 125_000_000)
    ensures header == Seconds(0) ==> (CanWait(header, 0, delay) <==> 0 <= delay < 25_000_000)
    ensures header.Seconds? && 1 <= header.n <= 9_223_372_036 ==>
              (CanWait(header, 0, delay) <==> 500_000_000 <= delay < 525_000_000)
    ensures header.Date? && header.distance <= 0 ==> (CanWait(header, 0, delay) <==> 0 <= delay < 25_000_000)
    ensures header.Date? && 0 < header.distance < 500_000_000 ==>
              (CanWait(header, 0, delay) <==> header.distance <= delay < header.distance + 25_000_000)
    ensures header.Date? && 500_000_000 <= header.distance ==>
              (CanWait(header, 0, delay) <==> 500_000_000 <= delay < 525_000_000)
  {
    if header.Seconds? && 1 <= header.n <= 9_223_372_036 {
      LongRequestsGetTheCap(header.n);
    }
  }

  /** Without a header the wait doubles with every attempt, up to the fourth. */
  lemma BackoffDoubles(attempt: nat)
    ensures Backoff(0) == 1 && Backoff(1) == 2 && Backoff(2) == 4 && Backoff(3) == 8
    ensures attempt >= 4 ==> Backoff(attempt) == 16
  {
  }

  /** A request for one second or more is honoured up to the cap, except where the
      64-bit product of seconds and nanoseconds comes out below the cap. */
  lemma LongRequestsGetTheCap(n: int)
    requires 1 <= n < 0x8000_0000_0000_0000
    ensures Clamp(Asked(Seconds(n), 0)) == MAX_DELAY
            <==> MAX_DELAY <= (n * 1_000_000_000) % 0x1_0000_0000_0000_0000 < 0x8000_0000_0000_0000
    ensures n <= 9_223_372_036 ==> Clamp(Asked(Seconds(n), 0)) == MAX_DELAY
  {
    var product := n * 1_000_000_000;
    assert product == n * 1000 * MILLISECOND;
    WrapIs(product);
    if n <= 9_223_372_036 {
      assert product < 0x8000_0000_0000_0000;
    }
  }

  /** 64-bit wrap-around in terms of the remainder. */
  lemma WrapIs(x: int)
    ensures
      var r := x % 0x1_0000_0000_0000_0000;
      Usage.Wrap64(x) == if r < 0x8000_0000_0000_0000 then r else r - 0x1_0000_0000_0000_0000
  {
  }

  /** The first value that wraps: of about 292 years asked for, nothing is left but the jitter. */
  lemma HugeRequestIsIgnored(delay: int)
    ensures CanWait(Seconds(9_223_372_037), 0, delay) <==> 0 <= delay < JITTER
  {
  }

  // ---------- The upstream log ----------

  datatype Answer = NoAnswer | Replied(status: int, header: RetryAfter)

  datatype Event =
    | Posted(provider: string, payload: Body, answer: Answer)
    | Closed(body: nat)                      // the body of the reply at that position of the log
    | Waited(delay: int, cancelled: bool)

  predicate Retryable(status: int) {
    status == 429 || status >= 500
  }

  /** After this event the request must not be posted again. */
  predicate Bars(event: Event) {
    match event
    case Posted(_, _, NoAnswer) => true
    case Posted(_, _, Replied(status, _)) => !Retryable(status)
    case Closed(_) => false
    case Waited(_, cancelled) => cancelled
  }

  predicate Clear(log: seq<Event>) {
    forall event :: event in log ==> !Bars(event)
  }

  /** No ambiguous replay: nothing that bars another attempt comes before a POST. */
  predicate Lawful(log: seq<Event>) {
    forall i, j :: 0 <= i < j < |log| && log[j].Posted? ==> !Bars(log[i])
  }

  function Posts(log: seq<Event>): nat {
    if log == [] then 0 else Posts(log[..|log| - 1]) + if log[|log| - 1].Posted? then 1 else 0
  }

  /** The time that the log is scheduled to sleep. */
  function Slept(log: seq<Event>): int {
    if log == [] then 0 else Slept(log[..|log| - 1]) + if log[|log| - 1].Waited? then log[|log| - 1].delay else 0
  }

  function Waits(log: seq<Event>): nat {
    if log == [] then 0 else Waits(log[..|log| - 1]) + if log[|log| - 1].Waited? then 1 else 0
  }

  predicate HasBody(event: Event) {
    event.Posted? && event.answer.Replied?
  }

  /** The replies whose bodies are open, by position. */
  function Open(log: seq<Event>): set<nat> {
    if log == [] then {}
    else
      var front, last := log[..|log| - 1], log[|log| - 1];
      if HasBody(last) then Open(front) + {|front|}
      else if last.Closed? then Open(front) - {last.body}
      else Open(front)
  }

  /** Body ownership: nothing is open when a POST is made, only the open body is
      closed, and so at most one is open at any point. */
  predicate Tidy(log: seq<Event>) {
    log == [] ||
    (var front, last := log[..|log| - 1], log[|log| - 1];
     && Tidy(front)
     && (last.Posted? ==> Open(front) == {})
     && (last.Closed? ==> Open(front) == {last.body}))
  }

  /** `Tidy` bounds the open bodies at every point of the log. */
  lemma {:induction false} AtMostOneOpen(log: seq<Event>, n: nat)
    requires Tidy(log) && n <= |log|
    ensures Open(log[..n]) == {} || exists body :: Open(log[..n]) == {body}
    decreases |log|
  {
    if n == |log| {
      assert log[..n] == log;
      if log != [] {
        var front, last := log[..|log| - 1], log[|log| - 1];
        AtMostOneOpen(front, |front|);
        assert front[..|front|] == front;
        if HasBody(last) { assert Open(log) == {|front|}; }
        if last.Closed? { assert Open(log) == {}; }
      }
    } else {
      AtMostOneOpen(log[..|log| - 1], n);
      assert log[..|log| - 1][..n] == log[..n];
    }
  }

  function Closes(log: seq<Event>, body: nat): nat {
    if log == [] then 0 else Closes(log[..|log| - 1], body) + if log[|log| - 1] == Closed(body) then 1 else 0
  }

  /** Every reply body has been closed exactly once, except the one that is still open. */
  lemma {:induction false} ClosedExactlyOnce(log: seq<Event>, body: nat)
    requires Tidy(log)
    ensures body in Open(log) ==> body < |log| && HasBody(log[body])
    ensures Closes(log, body) == if body < |log| && HasBody(log[body]) && body !in Open(log) then 1 else 0
  {
    if log != [] { ClosedExactlyOnce(log[..|log| - 1], body); }
  }

  lemma {:induction false} TidyPrefix(log: seq<Event>, n: nat)
    requires Tidy(log) && n <= |log|
    ensures Tidy(log[..n])
    decreases |log|
  {
    if n == |log| {
      assert log[..n] == log;
    } else {
      TidyPrefix(log[..|log| - 1], n);
      assert log[..|log| - 1][..n] == log[..n];
    }
  }

  /** A reply whose body is no longer open has been closed since. */
  lemma {:induction false} ClosedSince(log: seq<Event>, i: nat) returns (k: nat)
    requires i < |log| && log[i].Posted? && log[i].answer.Replied? && i !in Open(log)
    ensures i < k < |log| && log[k] == Closed(i)
  {
    var n := |log| - 1;
    if log[n] == Closed(i) {
      k := n;
    } else {
      k := ClosedSince(log[..n], i);
    }
  }

  /** A body stays closed, and is not closed again. */
  lemma {:induction false} ClosedForGood(log: seq<Event>, k: nat, body: nat)
    requires Tidy(log) && k < |log| && log[k] == Closed(body)
    ensures body !in Open(log) && forall m :: k < m < |log| ==> log[m] != Closed(body)
  {
    var n := |log| - 1;
    if k < n {
      ClosedForGood(log[..n], k, body);
      var before := log[..k];
      TidyPrefix(log, k + 1);
      assert log[..k + 1][..k] == log[..k];
      ClosedExactlyOnce(log[..k], body);
    }
  }

  lemma Logged(log: seq<Event>, event: Event)
    ensures Open(log + [event]) ==
            if HasBody(event) then Open(log) + {|log|}
            else if event.Closed? then Open(log) - {event.body}
            else Open(log)
    ensures Tidy(log + [event]) <==>
            Tidy(log) && (event.Posted? ==> Open(log) == {}) && (event.Closed? ==> Open(log) == {event.body})
    ensures Posts(log + [event]) == Posts(log) + if event.Posted? then 1 else 0
    ensures Waits(log + [event]) == Waits(log) + if event.Waited? then 1 else 0
    ensures Slept(log + [event]) == Slept(log) + if event.Waited? then event.delay else 0
    ensures Clear(log + [event]) <==> Clear(log) && !Bars(event)
    ensures Lawful(log + [event]) <==> Lawful(log) && (event.Posted? ==> Clear(log))
  {
    var all := log + [event];
    assert all[..|log|] == log;
    assert Clear(all) <==> Clear(log) && !Bars(event) by {
      assert event in all;
      assert forall e :: e in log ==> e in all;
    }
    assert Lawful(all) <==> Lawful(log) && (event.Posted? ==> Clear(log)) by {
      assert forall i :: 0 <= i < |log| ==> all[i] == log[i];
      assert all[|log|] == event;
    }
  }

  // ---------- One client call ----------

  datatype Failure = NotConfigured | NotPrepared | NoResponse | Cancelled
  datatype Response = Response(status: int, body: nat, attempts: nat, retryReason: string)
  datatype CallResult = Ok(response: Response) | Err(failure: Failure)

  /** `retryReasonForStatus`. */
  function RetryReason(status: int): string {
    if status == 429 then "rate_limited" else if status >= 500 then "upstream_5xx" else "other"
  }

  /** Everything a client call may do: `events` extends a log of length `base`. */
  ghost predicate Exchange(c: Client, wire: Option<Body>, retries: bool, base: nat, events: seq<Event>,
                           result: CallResult) {
    if c.apiKey == "" then events == [] && result == Err(NotConfigured)
    else if wire.None? then events == [] && result == Err(NotPrepared)
    else
      && |events| >= 1 && events[0].Posted? && events[0].provider == c.name && events[0].payload == wire.value
      && match events[0].answer
         case NoAnswer => |events| == 1 && result == Err(NoResponse)
         case Replied(status, header) =>
           if !Retryable(status) || !retries then |events| == 1 && result == Ok(Response(status, base, 1, ""))
           else
             && |events| >= 3 && events[1] == Closed(base) && events[2].Waited?
             && CanWait(header, 0, events[2].delay)
             && if events[2].cancelled then |events| == 3 && result == Err(Cancelled)
                else
                  && |events| == 4 && events[3].Posted?
                  && events[3].provider == c.name && events[3].payload == wire.value
                  && match events[3].answer
                     case NoAnswer => result == Err(NoResponse)
                     case Replied(again, _) => result == Ok(Response(again, base + 3, 2, RetryReason(status)))
  }

  /** The network, as far as one request uses it: answers and cancellations are its own choice. */
  class Network {
    var log: seq<Event>

    constructor ()
      ensures log == []
    {
      log := [];
    }

    method Post(provider: string, payload: Body) returns (answer: Answer)
      modifies this
      ensures log == old(log) + [Posted(provider, payload, answer)]
    {
      answer := *;
      log := log + [Posted(provider, payload, answer)];
    }

    method Close(body: nat)
      modifies this
      ensures log == old(log) + [Closed(body)]
    {
      log := log + [Closed(body)];
    }

    /** `waitForRetry`. */
    method Wait(header: RetryAfter, attempt: nat) returns (cancelled: bool, ghost delay: int)
      modifies this
      ensures CanWait(header, attempt, delay)
      ensures log == old(log) + [Waited(delay, cancelled)]
    {
      var drawn: bool := *;
      var draw: nat :| draw < JITTER;
      var wait := RetryDelay(header, attempt, if drawn then Some(draw) else None);
      cancelled, delay := *, wait;
      log := log + [Waited(wait, cancelled)];
    }
  }

  /** `Client.Chat`: at most two attempts, one for a stream. */
  method Chat(c: Client, network: Network, body: Body, stream: bool)
    returns (result: CallResult, ghost events: seq<Event>)
    modifies network
    ensures network.log == old(network.log) + events
    ensures Exchange(c, ChatWire(c, body), !stream, |old(network.log)|, events, result)
  {
    events := [];
    if c.apiKey == "" {
      return Err(NotConfigured), [];
    }
    ghost var log := network.log;
    var retryReason := "";
    var attempt := 0;
    while attempt < 2
      invariant attempt <= 1
      invariant network.log == log + events
      invariant attempt == 0 ==> events == [] && retryReason == ""
      invariant attempt == 1 ==> FirstAttemptFailed(c, ChatWire(c, body), !stream, |log|, events, retryReason)
    {
      var prepared := PrepareChatBody(c, body);
      if prepared.None? {
        return Err(NotPrepared), events;
      }
      var position := |network.log|;
      var answer := network.Post(c.name, prepared.value);
      events := events + [Posted(c.name, prepared.value, answer)];
      if answer.NoAnswer? {
        return Err(NoResponse), events;
      }
      var response := Response(answer.status, position, attempt + 1, retryReason);
      if answer.status < 500 && answer.status != 429 {
        return Ok(response), events;
      }
      if attempt == 0 && !stream {
        retryReason := RetryReason(answer.status);
        network.Close(position);
        var cancelled, delay := network.Wait(answer.header, attempt);
        events := events + [Closed(position), Waited(delay, cancelled)];
        if cancelled {
          return Err(Cancelled), events;
        }
        attempt := attempt + 1;
        continue;
      }
      return Ok(response), events;
    }
    assert false;
  }

  /** Between the two attempts. */
  ghost predicate FirstAttemptFailed(c: Client, wire: Option<Body>, retries: bool, base: nat, events: seq<Event>,
                                     reason: string) {
    && retries && wire.Some? && |events| == 3
    && events[0].Posted? && events[0].provider == c.name && events[0].payload == wire.value
    && events[0].answer.Replied? && Retryable(events[0].answer.status)
    && reason == RetryReason(events[0].answer.status)
    && events[1] == Closed(base) && events[2].Waited? && !events[2].cancelled
    && CanWait(events[0].answer.header, 0, events[2].delay)
  }

  /** `Client.Embedding`: at most two attempts. */
  method Embedding(c: Client, network: Network, body: Body) returns (result: CallResult, ghost events: seq<Event>)
    modifies network
    ensures network.log == old(network.log) + events
    ensures Exchange(c, EmbeddingWire(c, body), true, |old(network.log)|, events, result)
  {
    events := [];
    if c.apiKey == "" {
      return Err(NotConfigured), [];
    }
    ghost var log := network.log;
    var retryReason := "";
    var attempt := 0;
    while attempt < 2
      invariant attempt <= 1
      invariant network.log == log + events
      invariant attempt == 0 ==> events == [] && retryReason == ""
      invariant attempt == 1 ==> FirstAttemptFailed(c, EmbeddingWire(c, body), true, |log|, events, retryReason)
    {
      var prepared := PrepareModelBody(c, body);
      if prepared.None? {
        return Err(NotPrepared), events;
      }
      var position := |network.log|;
      var answer := network.Post(c.name, prepared.value);
      events := events + [Posted(c.name, prepared.value, answer)];
      if answer.NoAnswer? {
        return Err(NoResponse), events;
      }
      var response := Response(answer.status, position, attempt + 1, retryReason);
      if answer.status < 500 && answer.status != 429 {
        return Ok(response), events;
      }
      if attempt == 0 {
        retryReason := RetryReason(answer.status);
        network.Close(position);
        var cancelled, delay := network.Wait(answer.header, attempt);
        events := events + [Closed(position), Waited(delay, cancelled)];
        if cancelled {
          return Err(Cancelled), events;
        }
        attempt := attempt + 1;
        continue;
      }
      return Ok(response), events;
    }
    assert false;
  }

  // ---------- What a client call keeps ----------

  /** Between two client calls of one request. */
  ghost predicate Settled(log: seq<Event>) {
    Tidy(log) && Lawful(log) && Clear(log) && Open(log) == {}
  }

  /** `body` is the open body of a reply with the given status. */
  ghost predicate Holds(log: seq<Event>, response: Response) {
    && response.body < |log|
    && HasBody(log[response.body]) && log[response.body].answer.status == response.status
    && Open(log) == {response.body}
  }

  ghost predicate Within(log: seq<Event>, all: seq<Event>, posts: nat, waits: nat) {
    && Posts(all) <= Posts(log) + posts
    && Waits(all) <= Waits(log) + waits
    && Slept(log) <= Slept(all)
    && (Slept(all) == Slept(log) || Slept(all) < Slept(log) + waits * (MAX_DELAY + JITTER))
  }

  lemma PostKeeps(log: seq<Event>, post: Event)
    requires Settled(log) && post.Posted?
    ensures Tidy(log + [post]) && Lawful(log + [post]) && Within(log, log + [post], 1, 0)
    ensures Clear(log + [post]) <==> !Bars(post)
    ensures Open(log + [post]) == if HasBody(post) then {|log|} else {}
  {
    Logged(log, post);
  }

  /** Closing the first reply and waiting leaves the log settled, unless the wait was cancelled. */
  lemma PauseKeeps(log: seq<Event>, post: Event, wait: Event)
    requires Settled(log) && HasBody(post) && !Bars(post)
    requires wait.Waited? && 0 <= wait.delay < MAX_DELAY + JITTER
    ensures
      var paused := log + [post] + [Closed(|log|)] + [wait];
      && Tidy(paused) && Lawful(paused) && Open(paused) == {} && Within(log, paused, 1, 1)
      && (!wait.cancelled ==> Settled(paused))
  {
    PostKeeps(log, post);
    Logged(log + [post], Closed(|log|));
    Logged(log + [post] + [Closed(|log|)], wait);
  }

  /** Where the retry happens, in numbers: behind a first reply of 429 or at least 500,
      and then there is a wait and, unless it is cancelled, a second attempt with the
      reason on record. Every other first reply is handed on after one attempt. */
  lemma AttemptsAre(c: Client, wire: Option<Body>, retries: bool, base: nat, events: seq<Event>, result: CallResult)
    requires Exchange(c, wire, retries, base, events, result)
    ensures c.apiKey == "" || wire.None? <==> events == []
    ensures events == [] ==> result == Err(if c.apiKey == "" then NotConfigured else NotPrepared)
    ensures events != [] ==> events[0].Posted? && events[0].provider == c.name && Some(events[0].payload) == wire
    ensures events != [] && events[0].answer.NoAnswer? ==> |events| == 1 && result == Err(NoResponse)
    ensures events != [] && events[0].answer.Replied? ==>
              var status := events[0].answer.status;
              if retries && (status == 429 || status >= 500) then
                && |events| >= 3 && events[1] == Closed(base) && events[2].Waited?
                && CanWait(events[0].answer.header, 0, events[2].delay)
                && if events[2].cancelled then |events| == 3 && result == Err(Cancelled)
                   else
                     && |events| == 4 && events[3].Posted?
                     && events[3].provider == c.name && events[3].payload == events[0].payload
                     && if events[3].answer.NoAnswer? then result == Err(NoResponse)
                        else result == Ok(Response(events[3].answer.status, base + 3, 2,
                                                   if status == 429 then "rate_limited" else "upstream_5xx"))
              else |events| == 1 && result == Ok(Response(status, base, 1, ""))
  {
  }

  /** What a client call does to a settled log: the request stays lawful and tidy, there
      are at most two POSTs and one wait (one and none without retries), exactly the body
      that is returned is left open, and there is room for another POST only behind a
      retryable status. */
  ghost predicate Kept(log: seq<Event>, all: seq<Event>, retries: bool, result: CallResult) {
    && Tidy(all) && Lawful(all)
    && Within(log, all, if retries then 2 else 1, if retries then 1 else 0)
    && (result.Err? ==> Open(all) == {})
    && (result.Ok? ==>
          && Holds(all, result.response) && |log| <= result.response.body
          && (Clear(all) <==> Retryable(result.response.status)))
  }

  /** The result of a call whose last event is that POST. */
  ghost predicate Gives(result: CallResult, log: seq<Event>, post: Event) {
    && post.Posted?
    && match post.answer
       case NoAnswer => result.Err?
       case Replied(status, _) => result.Ok? && result.response.body == |log| && result.response.status == status
  }

  lemma LastPostKeeps(log: seq<Event>, start: seq<Event>, post: Event, retries: bool, result: CallResult)
    requires Settled(log) && Gives(result, log, post) && |start| <= |log|
    requires Within(start, log, if retries then 1 else 0, if retries then 1 else 0)
    ensures Kept(start, log + [post], retries, result)
  {
    PostKeeps(log, post);
  }

  lemma FourEvents(log: seq<Event>, events: seq<Event>)
    ensures |events| == 1 ==> log + events == log + [events[0]]
    ensures |events| == 3 ==> log + events == log + [events[0]] + [events[1]] + [events[2]]
    ensures |events| == 4 ==> log + events == log + [events[0]] + [events[1]] + [events[2]] + [events[3]]
  {
  }

  lemma ExchangeKeeps(log: seq<Event>, c: Client, wire: Option<Body>, retries: bool, events: seq<Event>,
                      result: CallResult)
    requires Settled(log) && Exchange(c, wire, retries, |log|, events, result)
    ensures Kept(log, log + events, retries, result)
  {
    FourEvents(log, events);
    if events == [] {
      assert log + events == log;
    } else if |events| == 1 {
      LastPostKeeps(log, log, events[0], retries, result);
    } else {
      PauseKeeps(log, events[0], events[2]);
      if |events| == 4 {
        LastPostKeeps(log + [events[0]] + [events[1]] + [events[2]], log, events[3], retries, result);
      }
    }
  }

  /** A returned response took two attempts exactly when it carries a retry reason. */
  lemma TwoAttemptsIffReason(c: Client, wire: Option<Body>, retries: bool, base: nat, events: seq<Event>,
                             result: CallResult)
    requires Exchange(c, wire, retries, base, events, result) && result.Ok?
    ensures WellFormed(result.response)
    ensures result.response.attempts == 2 ==> retries
  {
  }

  predicate WellFormed(response: Response) {
    && (response.attempts == 1 || response.attempts == 2)
    && (response.attempts == 2 <==> response.retryReason != "")
    && (response.retryReason == "" || response.retryReason == "rate_limited" || response.retryReason == "upstream_5xx")
  }
}
