/** Any number of chat, stream and embedding handlers running at once: admission,
    gauges and counters (internal/router/router.go:371-627, 1077-1082). */
module Handlers {
  import opened Sequences
  import opened MapSums
  import Provider

  datatype Kind = Chat | Stream | Embedding

  /** The deferred calls of a handler, in the order in which they are registered. */
  datatype Deferred = LeaveGauge | ReleaseSlot | CancelContext | CloseBody | LeaveStreams

  /** Before the statement named. */
  datatype Pc =
    | Arriving        // activeChat.Add(1) or activeEmbeddings.Add(1), with its deferred undo
    | Preparing       // read and decode the body, find the clients
    | AwaitingSlot    // the select on the semaphore
    | Calling         // the candidate loop
    | RouteRequests   // metric.requests.Add(1), creating the entry
    | RouteStatus     // statusMetric.Add(1)
    | RouteErrors     // metric.errors.Add(1)
    | RouteRetries    // metric.retries.Add
    | EnteringStream  // activeStreams.Add(1)
    | CountingStream  // streamsTotal.Add(1), and the deferred activeStreams.Add(-1)
    | CountingRetries // retries.Add
    | CountingReason  // recordRetryReason
    | Branching       // upstream error, stream or whole body
    | Relaying        // streamResponseWithUsage
    | Classifying(completed: bool)
    | Reading         // read and validate the whole body
    | Reporting       // reportUsage
    | Unwinding       // run the deferred calls, last registered first
    | Finished

  datatype Verdict = Unclassified | Completed | Aborted

  type Route = (string, string)

  /** `outcome` is history that no step reads: what relaying the stream, or reading and
      validating the whole body, came to. */
  datatype Handler = Handler(kind: Kind, pc: Pc, defers: seq<Deferred>, response: Option<Provider.Response>,
                             route: Route, verdict: Verdict, reports: nat, outcome: Option<bool>)

  datatype Choice = Go | Fail | Answer(response: Provider.Response, route: Route) | StreamEnds(completed: bool)

  function Fresh(kind: Kind): Handler {
    Handler(kind, Arriving, [], None, ("", ""), Unclassified, 0, None)
  }

  /** Which choices a handler has at its program point, apart from a free slot. */
  predicate Offers(h: Handler, c: Choice) {
    match h.pc
    case Preparing => c.Go? || c.Fail?
    case AwaitingSlot => c.Go? || c.Fail?
    case Calling => c.Fail? || (c.Answer? && Provider.WellFormed(c.response))
    case Relaying => c.StreamEnds?
    case Reading => c.Go? || c.Fail?
    case Finished => false
    case _ => c.Go?
  }

  function Status(h: Handler): int {
    if h.response.Some? then h.response.value.status else 0
  }

  /** `retryCount`. */
  function RetryCount(h: Handler): nat {
    if h.response.None? || h.response.value.attempts <= 1 then 0 else h.response.value.attempts - 1
  }

  function Reason(h: Handler): string {
    if h.response.Some? then h.response.value.retryReason else ""
  }

  /** The handler's own part of a step. */
  function Act(h: Handler, c: Choice): Handler
    requires Offers(h, c)
  {
    match h.pc
    case Arriving => h.(pc := Preparing, defers := h.defers + [LeaveGauge])
    case Preparing => h.(pc := if c.Go? then AwaitingSlot else Unwinding)
    case AwaitingSlot =>
      if c.Go? then h.(pc := Calling, defers := h.defers + [ReleaseSlot, CancelContext]) else h.(pc := Unwinding)
    case Calling =>
      if c.Fail? then h.(pc := Unwinding)
      else h.(pc := RouteRequests, defers := h.defers + [CloseBody], response := Some(c.response), route := c.route)
    case RouteRequests => h.(pc := RouteStatus)
    case RouteStatus => h.(pc := RouteErrors)
    case RouteErrors => h.(pc := RouteRetries)
    case RouteRetries => h.(pc := if h.kind.Stream? then EnteringStream else CountingRetries)
    case EnteringStream => h.(pc := CountingStream)
    case CountingStream => h.(pc := CountingRetries, defers := h.defers + [LeaveStreams])
    case CountingRetries => h.(pc := CountingReason)
    case CountingReason => h.(pc := Branching)
    case Branching => h.(pc := if Status(h) >= 400 then Unwinding else if h.kind.Stream? then Relaying else Reading)
    case Relaying => h.(pc := Classifying(c.completed), outcome := Some(c.completed))
    case Classifying(completed) =>
      h.(pc := if completed then Reporting else Unwinding, verdict := if completed then Completed else Aborted)
    case Reading => h.(pc := if c.Go? then Reporting else Unwinding, outcome := Some(c.Go?))
    case Reporting => h.(pc := Unwinding, reports := h.reports + 1)
    case Unwinding =>
      if h.defers == [] then h.(pc := Finished) else h.(defers := h.defers[..|h.defers| - 1])
    case Finished => h
  }

  /** Semaphores, gauges and counters. */
  datatype Tally = Tally(chatSlots: int, streamSlots: int, embeddingSlots: int,
                         activeChat: int, activeEmbeddings: int, activeStreams: int,
                         streamsTotal: int, completed: int, aborted: int,
                         retries: int, reasons: int, routeRetries: int)

  const NOTHING := Tally(0, 0, 0, 0, 0, 0, 0, 0, 0, 0, 0, 0)

  function Plus(a: Tally, b: Tally): Tally {
    Tally(a.chatSlots + b.chatSlots, a.streamSlots + b.streamSlots, a.embeddingSlots + b.embeddingSlots,
          a.activeChat + b.activeChat, a.activeEmbeddings + b.activeEmbeddings, a.activeStreams + b.activeStreams,
          a.streamsTotal + b.streamsTotal, a.completed + b.completed, a.aborted + b.aborted,
          a.retries + b.retries, a.reasons + b.reasons, a.routeRetries + b.routeRetries)
  }

  function AddSlot(t: Tally, kind: Kind, n: int): Tally {
    match kind
    case Chat => t.(chatSlots := t.chatSlots + n)
    case Stream => t.(streamSlots := t.streamSlots + n)
    case Embedding => t.(embeddingSlots := t.embeddingSlots + n)
  }

  function AddGauge(t: Tally, kind: Kind, n: int): Tally {
    if kind.Embedding? then t.(activeEmbeddings := t.activeEmbeddings + n) else t.(activeChat := t.activeChat + n)
  }

  /** What a deferred call does to the shared counters. */
  function Undo(t: Tally, kind: Kind, d: Deferred): Tally {
    match d
    case LeaveGauge => AddGauge(t, kind, -1)
    case ReleaseSlot => AddSlot(t, kind, -1)
    case CancelContext => t
    case CloseBody => t
    case LeaveStreams => t.(activeStreams := t.activeStreams - 1)
  }

  /** What a step does to the shared counters. */
  function Effect(t: Tally, h: Handler, c: Choice): Tally {
    match h.pc
    case Arriving => AddGauge(t, h.kind, 1)
    case AwaitingSlot => if c.Go? then AddSlot(t, h.kind, 1) else t
    case RouteRetries => t.(routeRetries := t.routeRetries + RetryCount(h))
    case EnteringStream => t.(activeStreams := t.activeStreams + 1)
    case CountingStream => t.(streamsTotal := t.streamsTotal + 1)
    case CountingRetries => t.(retries := t.retries + RetryCount(h))
    case CountingReason => if Reason(h) != "" then t.(reasons := t.reasons + 1) else t
    case Classifying(completed) =>
      if completed then t.(completed := t.completed + 1) else t.(aborted := t.aborted + 1)
    case Unwinding => if h.defers == [] then t else Undo(t, h.kind, h.defers[|h.defers| - 1])
    case _ => t
  }

  // ---------- What one handler stands for ----------

  function Rank(pc: Pc): nat {
    match pc
    case Arriving => 0 case Preparing => 1 case AwaitingSlot => 2 case Calling => 3
    case RouteRequests => 4 case RouteStatus => 5 case RouteErrors => 6 case RouteRetries => 7
    case EnteringStream => 8 case CountingStream => 9 case CountingRetries => 10 case CountingReason => 11
    case Branching => 12 case Relaying => 13 case Classifying(_) => 14 case Reading => 13 case Reporting => 15
    case Unwinding => 16 case Finished => 17
  }

  /** The response is there and the step at `pc` is behind the handler. */
  predicate Past(h: Handler, pc: Pc) {
    h.response.Some? && Rank(h.pc) > Rank(pc)
  }

  function One(b: bool): int {
    if b then 1 else 0
  }

  /** The contribution of a handler to every counter, read off its deferred calls and its progress. */
  function Weight(h: Handler): Tally {
    Tally(One(h.kind.Chat? && ReleaseSlot in h.defers),
          One(h.kind.Stream? && ReleaseSlot in h.defers),
          One(h.kind.Embedding? && ReleaseSlot in h.defers),
          One(!h.kind.Embedding? && LeaveGauge in h.defers),
          One(h.kind.Embedding? && LeaveGauge in h.defers),
          One(LeaveStreams in h.defers || h.pc.CountingStream?),
          One(h.kind.Stream? && Past(h, CountingStream)),
          One(h.verdict.Completed?),
          One(h.verdict.Aborted?),
          if Past(h, CountingRetries) then RetryCount(h) else 0,
          One(Past(h, CountingReason) && Reason(h) != ""),
          if Past(h, RouteRetries) then RetryCount(h) else 0)
  }

  const FULL := [LeaveGauge, ReleaseSlot, CancelContext, CloseBody, LeaveStreams]

  /** How many deferred calls are registered before a program point. */
  function Registered(h: Handler): nat {
    if Rank(h.pc) == 0 then 0
    else if Rank(h.pc) <= 2 then 1
    else if Rank(h.pc) == 3 then 3
    else if Rank(h.pc) <= 9 || !h.kind.Stream? then 4
    else 5
  }

  /** Last-in-first-out unwinding keeps the registered calls a prefix of the full list. */
  predicate Stacked(h: Handler) {
    && h.defers <= FULL
    && |h.defers| <= (if h.kind.Stream? then 5 else 4)
    && (Rank(h.pc) < 16 ==> |h.defers| == Registered(h))
    && (h.pc.Finished? ==> h.defers == [])
  }

  /** The response is there from the recording of the route on. */
  predicate Answered(h: Handler) {
    && (4 <= Rank(h.pc) < 16 ==> h.response.Some?)
    && (Rank(h.pc) < 4 ==> h.response.None?)
    && (h.response.Some? ==> Provider.WellFormed(h.response.value))
  }

  /** A stream is classified once, after a good status; usage is reported once, and for
      a stream only if it completed. */
  predicate Judged(h: Handler) {
    && (h.pc.EnteringStream? || h.pc.CountingStream? || h.pc.Relaying? || h.pc.Classifying? ==> h.kind.Stream?)
    && (h.pc.Reading? ==> !h.kind.Stream?)
    && (13 <= Rank(h.pc) <= 15 ==> Status(h) < 400)
    && (Rank(h.pc) < 15 ==> h.verdict.Unclassified?)
    && (!h.verdict.Unclassified? ==> h.kind.Stream? && h.response.Some? && Status(h) < 400)
    && (h.kind.Stream? && h.response.Some? && Status(h) < 400 && Rank(h.pc) >= 15 ==> !h.verdict.Unclassified?)
    && (h.pc.Reporting? && h.kind.Stream? ==> h.verdict.Completed?)
    && h.reports <= 1
    && (Rank(h.pc) <= 15 ==> h.reports == 0)
    && (h.reports == 1 ==> h.response.Some? && Status(h) < 400 && (h.kind.Stream? ==> h.verdict.Completed?))
  }

  /** The outcome decides the verdict of a stream, and whether usage is reported. */
  predicate Outcome(h: Handler) {
    && (Rank(h.pc) <= 13 ==> h.outcome.None?)
    && (h.pc.Classifying? ==> h.outcome == Some(h.pc.completed))
    && (h.outcome.Some? ==> h.response.Some? && Status(h) < 400)
    && (Rank(h.pc) >= 15 && h.response.Some? && Status(h) < 400 ==> h.outcome.Some?)
    && (h.pc.Reporting? ==> h.outcome == Some(true))
    && (Rank(h.pc) >= 16 ==> h.reports == if h.outcome == Some(true) then 1 else 0)
    && (Rank(h.pc) >= 15 && h.kind.Stream? ==>
          h.verdict == match h.outcome case None => Unclassified case Some(good) => if good then Completed else Aborted)
    && (!h.kind.Stream? ==> h.verdict.Unclassified?)
  }

  predicate Sound(h: Handler) {
    Stacked(h) && Answered(h) && Judged(h) && Outcome(h)
  }

  lemma StackedStep(h: Handler, c: Choice)
    requires Stacked(h) && Judged(h) && Offers(h, c)
    ensures Stacked(Act(h, c))
  {
  }

  lemma AnsweredStep(h: Handler, c: Choice)
    requires Answered(h) && Offers(h, c)
    ensures Answered(Act(h, c))
  {
  }

  lemma JudgedStep(h: Handler, c: Choice)
    requires Answered(h) && Judged(h) && Offers(h, c)
    ensures Judged(Act(h, c))
  {
  }

  lemma OutcomeStep(h: Handler, c: Choice)
    requires Answered(h) && Judged(h) && Outcome(h) && Offers(h, c)
    ensures Outcome(Act(h, c))
  {
  }

  lemma SoundStep(h: Handler, c: Choice)
    requires Sound(h) && Offers(h, c)
    ensures Sound(Act(h, c))
  {
    OutcomeStep(h, c);
    StackedStep(h, c);
    AnsweredStep(h, c);
    JudgedStep(h, c);
  }

  /** The registered calls are known by their number. */
  lemma Held(defers: seq<Deferred>)
    requires defers <= FULL
    ensures LeaveGauge in defers <==> |defers| >= 1
    ensures ReleaseSlot in defers <==> |defers| >= 2
    ensures LeaveStreams in defers <==> |defers| >= 5
    ensures |defers| > 0 ==> defers[|defers| - 1] == FULL[|defers| - 1]
  {
    assert forall i :: 0 <= i < |defers| ==> defers[i] == FULL[i];
    if |defers| >= 1 { assert defers[0] == LeaveGauge; }
    if |defers| >= 2 { assert defers[1] == ReleaseSlot; }
    if |defers| >= 5 { assert defers[4] == LeaveStreams; }
  }

  /** `Weight` in terms of the number of registered calls. */
  function WeightBy(h: Handler, n: nat): Tally {
    Tally(One(h.kind.Chat? && n >= 2), One(h.kind.Stream? && n >= 2), One(h.kind.Embedding? && n >= 2),
          One(!h.kind.Embedding? && n >= 1), One(h.kind.Embedding? && n >= 1),
          One(n >= 5 || h.pc.CountingStream?),
          One(h.kind.Stream? && Past(h, CountingStream)), One(h.verdict.Completed?), One(h.verdict.Aborted?),
          if Past(h, CountingRetries) then RetryCount(h) else 0,
          One(Past(h, CountingReason) && Reason(h) != ""),
          if Past(h, RouteRetries) then RetryCount(h) else 0)
  }

  lemma WeightIs(h: Handler)
    requires h.defers <= FULL
    ensures Weight(h) == WeightBy(h, |h.defers|)
  {
    Held(h.defers);
  }

  /** Every step changes the shared counters by exactly what it changes the handler's weight. */
  lemma StepWeighs(t: Tally, h: Handler, c: Choice)
    requires Sound(h) && Offers(h, c)
    ensures Plus(Effect(t, h, c), Weight(h)) == Plus(t, Weight(Act(h, c)))
  {
    SoundStep(h, c);
    WeightIs(h);
    WeightIs(Act(h, c));
    if h.pc.Unwinding? {
      UnwindingWeighs(t, h);
    } else {
      ForwardWeighs(t, h, c);
    }
  }

  lemma UndoWeighs(t: Tally, h: Handler, n: nat)
    requires h.pc.Unwinding? && 1 <= n <= 5
    ensures Plus(Undo(t, h.kind, FULL[n - 1]), WeightBy(h, n)) == Plus(t, WeightBy(h, n - 1))
  {
    assert FULL[0] == LeaveGauge && FULL[1] == ReleaseSlot && FULL[2] == CancelContext;
    assert FULL[3] == CloseBody && FULL[4] == LeaveStreams;
  }

  lemma UnwindingWeighs(t: Tally, h: Handler)
    requires h.defers <= FULL && h.pc.Unwinding?
    ensures
      var h' := Act(h, Go);
      Plus(Effect(t, h, Go), WeightBy(h, |h.defers|)) == Plus(t, WeightBy(h', |h'.defers|))
  {
    var n := |h.defers|;
    if n > 0 {
      Held(h.defers);
      UndoWeighs(t, h, n);
      DeferredOnly(h, Act(h, Go), n - 1);
    }
  }

  lemma DeferredOnly(h: Handler, h': Handler, n: nat)
    requires h' == h.(defers := h'.defers)
    ensures WeightBy(h', n) == WeightBy(h, n)
  {
  }

  lemma ForwardWeighs(t: Tally, h: Handler, c: Choice)
    requires Sound(h) && Offers(h, c) && !h.pc.Unwinding?
    ensures
      var h' := Act(h, c);
      Plus(Effect(t, h, c), WeightBy(h, |h.defers|)) == Plus(t, WeightBy(h', |h'.defers|))
  {
    if Rank(h.pc) <= 3 {
      EnteringWeighs(t, h, c);
    } else if Rank(h.pc) <= 11 {
      RecordingWeighs(t, h, c);
    } else {
      ServingWeighs(t, h, c);
    }
  }

  lemma ServingWeighs(t: Tally, h: Handler, c: Choice)
    requires Sound(h) && Offers(h, c) && 12 <= Rank(h.pc) <= 15
    ensures
      var h' := Act(h, c);
      Plus(Effect(t, h, c), WeightBy(h, |h.defers|)) == Plus(t, WeightBy(h', |h'.defers|))
  {
  }

  lemma EnteringWeighs(t: Tally, h: Handler, c: Choice)
    requires Sound(h) && Offers(h, c) && Rank(h.pc) <= 3
    ensures
      var h' := Act(h, c);
      Plus(Effect(t, h, c), WeightBy(h, |h.defers|)) == Plus(t, WeightBy(h', |h'.defers|))
  {
  }

  lemma RecordingWeighs(t: Tally, h: Handler, c: Choice)
    requires Sound(h) && Offers(h, c) && 4 <= Rank(h.pc) <= 11
    ensures
      var h' := Act(h, c);
      Plus(Effect(t, h, c), WeightBy(h, |h.defers|)) == Plus(t, WeightBy(h', |h'.defers|))
  {
  }

  // ---------- Route metrics ----------

  datatype RouteMetric = RouteMetric(requests: nat, errors: nat, retries: nat, statuses: map<int, nat>)

  function MetricOf(routes: map<Route, RouteMetric>, route: Route): RouteMetric {
    if route in routes then routes[route] else RouteMetric(0, 0, 0, map[])
  }

  /** What a step does to the entry of the handler's route. */
  function MetricEffect(m: RouteMetric, h: Handler): RouteMetric {
    match h.pc
    case RouteRequests => m.(requests := m.requests + 1)
    case RouteStatus => m.(statuses := Add(m.statuses, Status(h), 1))
    case RouteErrors => if Status(h) >= 400 then m.(errors := m.errors + 1) else m
    case RouteRetries => m.(retries := m.retries + RetryCount(h))
    case _ => m
  }

  /** What a step does to the route table; the entry is created on first use. */
  function RouteEffect(routes: map<Route, RouteMetric>, h: Handler): map<Route, RouteMetric> {
    if 4 <= Rank(h.pc) <= 7 then routes[h.route := MetricEffect(MetricOf(routes, h.route), h)] else routes
  }

  /** What a step does to the table of retry reasons. */
  function ReasonEffect(reasons: map<string, nat>, h: Handler): map<string, nat> {
    if h.pc.CountingReason? && Reason(h) != "" then Add(reasons, Reason(h), 1) else reasons
  }

  function Bad(statuses: map<int, nat>): map<int, nat> {
    map status | status in statuses && status >= 400 :: statuses[status]
  }

  /** A route entry in numbers: requests, answers counted by status, those of them with
      status 400 or more, errors, retries. */
  datatype RouteTally = RouteTally(requests: int, answers: int, bad: int, errors: int, retries: int)

  ghost function ReadRoute(m: RouteMetric): RouteTally {
    RouteTally(m.requests, Sum(m.statuses), Sum(Bad(m.statuses)), m.errors, m.retries)
  }

  function PlusRoute(a: RouteTally, b: RouteTally): RouteTally {
    RouteTally(a.requests + b.requests, a.answers + b.answers, a.bad + b.bad,
               a.errors + b.errors, a.retries + b.retries)
  }

  /** The contribution of a handler to the entry of `route`. */
  function RouteWeight(h: Handler, route: Route): RouteTally {
    if h.route != route then RouteTally(0, 0, 0, 0, 0)
    else
      RouteTally(One(Past(h, RouteRequests)), One(Past(h, RouteStatus)), One(Past(h, RouteStatus) && Status(h) >= 400),
                 One(Past(h, RouteErrors) && Status(h) >= 400), if Past(h, RouteRetries) then RetryCount(h) else 0)
  }

  lemma CountStatus(statuses: map<int, nat>, status: int)
    ensures Sum(Add(statuses, status, 1)) == Sum(statuses) + 1
    ensures Sum(Bad(Add(statuses, status, 1))) == Sum(Bad(statuses)) + One(status >= 400)
  {
    SumAdd(statuses, status, 1);
    if status >= 400 {
      assert Bad(Add(statuses, status, 1)) == Add(Bad(statuses), status, 1);
      SumAdd(Bad(statuses), status, 1);
    } else {
      assert Bad(Add(statuses, status, 1)) == Bad(statuses);
    }
  }

  lemma MetricWeighs(m: RouteMetric, h: Handler)
    requires Sound(h) && 4 <= Rank(h.pc) <= 7
    ensures PlusRoute(ReadRoute(MetricEffect(m, h)), RouteWeight(h, h.route))
            == PlusRoute(ReadRoute(m), RouteWeight(Act(h, Go), h.route))
  {
    match h.pc
    case RouteStatus => CountStatus(m.statuses, Status(h));
    case _ =>
  }

  lemma RouteStepWeighs(routes: map<Route, RouteMetric>, h: Handler, c: Choice, route: Route)
    requires Sound(h) && Offers(h, c)
    ensures PlusRoute(ReadRoute(MetricOf(RouteEffect(routes, h), route)), RouteWeight(h, route))
            == PlusRoute(ReadRoute(MetricOf(routes, route)), RouteWeight(Act(h, c), route))
  {
    if 4 <= Rank(h.pc) <= 7 {
      RecordingKeepsRoute(h, c);
      MetricOfEffect(routes, h, route);
      if route == h.route {
        MetricWeighs(MetricOf(routes, route), h);
      }
    } else {
      OtherStepsWeighNothing(h, c, route);
    }
  }

  lemma RecordingKeepsRoute(h: Handler, c: Choice)
    requires Offers(h, c) && 4 <= Rank(h.pc) <= 7
    ensures c == Go && Act(h, c).route == h.route
  {
  }

  lemma MetricOfEffect(routes: map<Route, RouteMetric>, h: Handler, route: Route)
    requires 4 <= Rank(h.pc) <= 7
    ensures MetricOf(RouteEffect(routes, h), route)
            == if route == h.route then MetricEffect(MetricOf(routes, route), h) else MetricOf(routes, route)
  {
  }

  lemma OtherStepsWeighNothing(h: Handler, c: Choice, route: Route)
    requires Answered(h) && Offers(h, c) && !(4 <= Rank(h.pc) <= 7)
    ensures RouteWeight(Act(h, c), route) == RouteWeight(h, route)
  {
  }

  function RetriesOf(routes: map<Route, RouteMetric>): map<Route, nat> {
    map route | route in routes :: routes[route].retries
  }

  lemma RetriesStep(routes: map<Route, RouteMetric>, h: Handler)
    ensures Sum(RetriesOf(RouteEffect(routes, h)))
            == Sum(RetriesOf(routes)) + if h.pc.RouteRetries? then RetryCount(h) else 0
  {
    if 4 <= Rank(h.pc) <= 7 {
      var n := if h.pc.RouteRetries? then RetryCount(h) else 0;
      assert RetriesOf(RouteEffect(routes, h)) == Add(RetriesOf(routes), h.route, n);
      SumAdd(RetriesOf(routes), h.route, n);
    }
  }

  // ---------- The whole system ----------

  /** Its counters as the code keeps them, except that the last two fields of
      `tally` are the totals over the two tables. */
  datatype System = System(capacity: Kind -> nat, tally: Tally, routes: map<Route, RouteMetric>,
                           reasons: map<string, nat>, handlers: seq<Handler>)

  datatype Event = Arrive(kind: Kind) | Step(handler: nat, choice: Choice)

  function Slots(t: Tally, kind: Kind): int {
    match kind
    case Chat => t.chatSlots
    case Stream => t.streamSlots
    case Embedding => t.embeddingSlots
  }

  function Start(capacity: Kind -> nat): System {
    System(capacity, NOTHING, map[], map[], [])
  }

  /** Taking a slot needs a free one; everything else only needs the handler to be there. */
  predicate Enabled(s: System, e: Event) {
    e.Step? ==>
      && e.handler < |s.handlers|
      && var h := s.handlers[e.handler];
         && Offers(h, e.choice)
         && (h.pc.AwaitingSlot? && e.choice.Go? ==> Slots(s.tally, h.kind) < s.capacity(h.kind))
  }

  function Apply(s: System, e: Event): System
    requires Enabled(s, e)
  {
    match e
    case Arrive(kind) => s.(handlers := s.handlers + [Fresh(kind)])
    case Step(i, c) =>
      var h := s.handlers[i];
      System(s.capacity, Effect(s.tally, h, c), RouteEffect(s.routes, h), ReasonEffect(s.reasons, h),
             s.handlers[i := Act(h, c)])
  }

  function Weights(handlers: seq<Handler>): seq<Tally> {
    Map(Weight, handlers)
  }

  function Weigher(route: Route): Handler -> RouteTally {
    (h: Handler) => RouteWeight(h, route)
  }

  function RouteWeights(handlers: seq<Handler>, route: Route): seq<RouteTally> {
    Map(Weigher(route), handlers)
  }

  function Total(weights: seq<Tally>): Tally {
    if weights == [] then NOTHING else Plus(Total(weights[..|weights| - 1]), weights[|weights| - 1])
  }

  function RouteTotal(weights: seq<RouteTally>): RouteTally {
    if weights == [] then RouteTally(0, 0, 0, 0, 0)
    else PlusRoute(RouteTotal(weights[..|weights| - 1]), weights[|weights| - 1])
  }

  lemma UpdateFront<T>(s: seq<T>, i: nat, x: T)
    requires i < |s|
    ensures s[i := x][..|s| - 1] == if i < |s| - 1 then s[..|s| - 1][i := x] else s[..|s| - 1]
    ensures s[i := x][|s| - 1] == if i < |s| - 1 then s[|s| - 1] else x
  {
  }

  lemma PlusLast(a: Tally, b: Tally, v: Tally, w: Tally, last: Tally)
    requires Plus(a, v) == Plus(b, w)
    ensures Plus(Plus(a, last), v) == Plus(Plus(b, last), w)
  {
  }

  lemma PlusSwap(a: Tally, v: Tally, w: Tally)
    ensures Plus(Plus(a, v), w) == Plus(Plus(a, w), v)
  {
  }

  lemma {:induction false} TotalUpdate(weights: seq<Tally>, i: nat, w: Tally)
    requires i < |weights|
    ensures Plus(Total(weights[i := w]), weights[i]) == Plus(Total(weights), w)
    decreases |weights|
  {
    var front, last := weights[..|weights| - 1], weights[|weights| - 1];
    UpdateFront(weights, i, w);
    if i < |front| {
      TotalUpdate(front, i, w);
      PlusLast(Total(front[i := w]), Total(front), weights[i], w, last);
    } else {
      PlusSwap(Total(front), w, last);
    }
  }

  lemma {:induction false} RouteTotalUpdate(weights: seq<RouteTally>, i: nat, w: RouteTally)
    requires i < |weights|
    ensures PlusRoute(RouteTotal(weights[i := w]), weights[i]) == PlusRoute(RouteTotal(weights), w)
    decreases |weights|
  {
    var front := weights[..|weights| - 1];
    UpdateFront(weights, i, w);
    if i < |front| {
      RouteTotalUpdate(front, i, w);
    }
  }

  /** If a counter moves as one handler's weight does, it keeps agreeing with the sum of the weights. */
  lemma TotalFollows(weights: seq<Tally>, i: nat, w: Tally, t: Tally, t': Tally)
    requires i < |weights| && t == Total(weights)
    requires Plus(t', weights[i]) == Plus(t, w)
    ensures t' == Total(weights[i := w])
  {
    TotalUpdate(weights, i, w);
  }

  lemma RouteTotalFollows(weights: seq<RouteTally>, i: nat, w: RouteTally, t: RouteTally, t': RouteTally)
    requires i < |weights| && t == RouteTotal(weights)
    requires PlusRoute(t', weights[i]) == PlusRoute(t, w)
    ensures t' == RouteTotal(weights[i := w])
  {
    RouteTotalUpdate(weights, i, w);
  }

  lemma TotalOfOneMore(weights: seq<Tally>)
    ensures Total(weights + [NOTHING]) == Total(weights)
  {
    assert (weights + [NOTHING])[..|weights|] == weights;
  }

  lemma RouteTotalOfOneMore(weights: seq<RouteTally>)
    ensures RouteTotal(weights + [RouteTally(0, 0, 0, 0, 0)]) == RouteTotal(weights)
  {
    assert (weights + [RouteTally(0, 0, 0, 0, 0)])[..|weights|] == weights;
  }

  predicate AllSound(s: System) {
    forall i :: 0 <= i < |s.handlers| ==> Sound(s.handlers[i])
  }

  /** Every shared counter is the sum of what the handlers stand for, and no semaphore is overfull. */
  predicate Counted(s: System) {
    && s.tally == Total(Weights(s.handlers))
    && forall kind :: Slots(s.tally, kind) <= s.capacity(kind)
  }

  ghost predicate Recorded(s: System) {
    && (forall route :: ReadRoute(MetricOf(s.routes, route)) == RouteTotal(RouteWeights(s.handlers, route)))
    && Sum(RetriesOf(s.routes)) == s.tally.routeRetries
    && Sum(s.reasons) == s.tally.reasons
    && s.reasons.Keys <= {"rate_limited", "upstream_5xx"}
  }

  // ---------- The tables, key by key ----------

  /** The handler has counted its answer under that route and status. */
  function AnsweredWith(route: Route, status: int): Handler -> bool {
    (h: Handler) => Past(h, RouteStatus) && h.route == route && Status(h) == status
  }

  /** The handler has counted that retry reason. */
  function RetriedFor(reason: string): Handler -> bool {
    (h: Handler) => Past(h, CountingReason) && Reason(h) == reason
  }

  ghost predicate Keyed(s: System) {
    && (forall route, status ::
          Get(MetricOf(s.routes, route).statuses, status) == Count(s.handlers, AnsweredWith(route, status)))
    && (forall reason :: reason != "" ==> Get(s.reasons, reason) == Count(s.handlers, RetriedFor(reason)))
  }

  function Count(handlers: seq<Handler>, p: Handler -> bool): nat {
    if handlers == [] then 0
    else Count(handlers[..|handlers| - 1], p) + if p(handlers[|handlers| - 1]) then 1 else 0
  }

  lemma CountAppend(handlers: seq<Handler>, h: Handler, p: Handler -> bool)
    ensures Count(handlers + [h], p) == Count(handlers, p) + One(p(h))
  {
    assert (handlers + [h])[..|handlers|] == handlers;
  }

  lemma {:induction false} CountUpdate(handlers: seq<Handler>, i: nat, h: Handler, p: Handler -> bool)
    requires i < |handlers|
    ensures Count(handlers[i := h], p) + One(p(handlers[i])) == Count(handlers, p) + One(p(h))
    decreases |handlers|
  {
    var front := handlers[..|handlers| - 1];
    UpdateFront(handlers, i, h);
    if i < |front| {
      CountUpdate(front, i, h, p);
    }
  }

  lemma ArrivalKeepsKeyed(s: System, kind: Kind)
    requires Keyed(s)
    ensures Keyed(Apply(s, Arrive(kind)))
  {
    var s' := Apply(s, Arrive(kind));
    forall route, status
      ensures Get(MetricOf(s'.routes, route).statuses, status) == Count(s'.handlers, AnsweredWith(route, status))
    {
      CountAppend(s.handlers, Fresh(kind), AnsweredWith(route, status));
    }
    forall reason | reason != "" ensures Get(s'.reasons, reason) == Count(s'.handlers, RetriedFor(reason)) {
      CountAppend(s.handlers, Fresh(kind), RetriedFor(reason));
    }
  }

  lemma StatusStep(routes: map<Route, RouteMetric>, h: Handler, c: Choice, route: Route, status: int)
    requires Answered(h) && Offers(h, c)
    ensures Get(MetricOf(RouteEffect(routes, h), route).statuses, status) + One(AnsweredWith(route, status)(h))
            == Get(MetricOf(routes, route).statuses, status) + One(AnsweredWith(route, status)(Act(h, c)))
  {
    if 4 <= Rank(h.pc) <= 7 { MetricOfEffect(routes, h, route); }
  }

  lemma ReasonStep(reasons: map<string, nat>, h: Handler, c: Choice, reason: string)
    requires Answered(h) && Offers(h, c) && reason != ""
    ensures Get(ReasonEffect(reasons, h), reason) + One(RetriedFor(reason)(h))
            == Get(reasons, reason) + One(RetriedFor(reason)(Act(h, c)))
  {
  }

  lemma StepKeepsKeyed(s: System, i: nat, c: Choice)
    requires AllSound(s) && Keyed(s) && Enabled(s, Step(i, c))
    ensures Keyed(Apply(s, Step(i, c)))
  {
    var h, s' := s.handlers[i], Apply(s, Step(i, c));
    forall route, status
      ensures Get(MetricOf(s'.routes, route).statuses, status) == Count(s'.handlers, AnsweredWith(route, status))
    {
      StatusStep(s.routes, h, c, route, status);
      CountUpdate(s.handlers, i, Act(h, c), AnsweredWith(route, status));
    }
    forall reason | reason != "" ensures Get(s'.reasons, reason) == Count(s'.handlers, RetriedFor(reason)) {
      ReasonStep(s.reasons, h, c, reason);
      CountUpdate(s.handlers, i, Act(h, c), RetriedFor(reason));
    }
  }

  ghost predicate Inv(s: System) {
    AllSound(s) && Counted(s) && Recorded(s) && Keyed(s)
  }

  lemma ArrivalKeepsCounted(s: System, kind: Kind)
    requires Counted(s)
    ensures Counted(Apply(s, Arrive(kind)))
  {
    MapAppend(Weight, s.handlers, Fresh(kind));
    FreshWeighsNothing(kind, ("", ""));
    TotalOfOneMore(Weights(s.handlers));
  }

  lemma FreshWeighsNothing(kind: Kind, route: Route)
    ensures Weight(Fresh(kind)) == NOTHING
    ensures Weigher(route)(Fresh(kind)) == RouteTally(0, 0, 0, 0, 0)
  {
    assert !Past(Fresh(kind), RouteRequests) && !Past(Fresh(kind), RouteStatus);
    assert !Past(Fresh(kind), RouteErrors) && !Past(Fresh(kind), RouteRetries);
  }

  lemma RouteArrival(handlers: seq<Handler>, kind: Kind, route: Route)
    ensures RouteTotal(RouteWeights(handlers + [Fresh(kind)], route)) == RouteTotal(RouteWeights(handlers, route))
  {
    MapAppend(Weigher(route), handlers, Fresh(kind));
    FreshWeighsNothing(kind, route);
    RouteTotalOfOneMore(RouteWeights(handlers, route));
  }

  lemma ArrivalKeepsRecorded(s: System, kind: Kind)
    requires Recorded(s)
    ensures Recorded(Apply(s, Arrive(kind)))
  {
    var s' := Apply(s, Arrive(kind));
    forall route ensures ReadRoute(MetricOf(s'.routes, route)) == RouteTotal(RouteWeights(s'.handlers, route)) {
      RouteArrival(s.handlers, kind, route);
    }
  }

  lemma StepKeepsCounted(s: System, i: nat, c: Choice)
    requires AllSound(s) && Counted(s) && Enabled(s, Step(i, c))
    ensures Counted(Apply(s, Step(i, c)))
  {
    var h := s.handlers[i];
    StepWeighs(s.tally, h, c);
    MapUpdate(Weight, s.handlers, i, Act(h, c));
    TotalFollows(Weights(s.handlers), i, Weight(Act(h, c)), s.tally, Effect(s.tally, h, c));
    SlotsStayBounded(s.tally, h, c, s.capacity);
  }

  /** Only a step that takes a slot raises an occupancy, and a step touches no semaphore but its own. */
  lemma SlotsStayBounded(t: Tally, h: Handler, c: Choice, capacity: Kind -> nat)
    requires Offers(h, c) && (h.pc.AwaitingSlot? && c.Go? ==> Slots(t, h.kind) < capacity(h.kind))
    requires forall kind :: Slots(t, kind) <= capacity(kind)
    ensures forall kind :: Slots(Effect(t, h, c), kind) <= capacity(kind)
    ensures forall kind :: kind != h.kind ==> Slots(Effect(t, h, c), kind) == Slots(t, kind)
  {
  }

  lemma StepKeepsRecorded(s: System, i: nat, c: Choice)
    requires AllSound(s) && Recorded(s) && Enabled(s, Step(i, c))
    ensures Recorded(Apply(s, Step(i, c)))
  {
    var h, s' := s.handlers[i], Apply(s, Step(i, c));
    forall route ensures ReadRoute(MetricOf(s'.routes, route)) == RouteTotal(RouteWeights(s'.handlers, route)) {
      RouteStepWeighs(s.routes, h, c, route);
      MapUpdate(Weigher(route), s.handlers, i, Act(h, c));
      RouteTotalFollows(RouteWeights(s.handlers, route), i, RouteWeight(Act(h, c), route),
                        ReadRoute(MetricOf(s.routes, route)), ReadRoute(MetricOf(s'.routes, route)));
    }
    RetriesStep(s.routes, h);
    ReasonsStep(s, h, c);
  }

  lemma ReasonsStep(s: System, h: Handler, c: Choice)
    requires Sound(h) && Offers(h, c)
    requires Sum(s.reasons) == s.tally.reasons && s.reasons.Keys <= {"rate_limited", "upstream_5xx"}
    ensures Sum(ReasonEffect(s.reasons, h)) == Effect(s.tally, h, c).reasons
    ensures ReasonEffect(s.reasons, h).Keys <= {"rate_limited", "upstream_5xx"}
    ensures Effect(s.tally, h, c).routeRetries == s.tally.routeRetries + if h.pc.RouteRetries? then RetryCount(h) else 0
  {
    SumAdd(s.reasons, Reason(h), 1);
  }

  lemma StepKeepsSound(s: System, e: Event)
    requires AllSound(s) && Enabled(s, e)
    ensures AllSound(Apply(s, e))
  {
    match e
    case Arrive(kind) =>
      assert Sound(Fresh(kind));
    case Step(i, c) =>
      SoundStep(s.handlers[i], c);
  }

  lemma StepKeepsInv(s: System, e: Event)
    requires Inv(s) && Enabled(s, e)
    ensures Inv(Apply(s, e))
  {
    StepKeepsSound(s, e);
    match e
    case Arrive(kind) =>
      ArrivalKeepsCounted(s, kind);
      ArrivalKeepsRecorded(s, kind);
      ArrivalKeepsKeyed(s, kind);
    case Step(i, c) =>
      StepKeepsKeyed(s, i, c);
      StepKeepsCounted(s, i, c);
      StepKeepsRecorded(s, i, c);
  }

  // ---------- Every reachable state ----------

  ghost predicate Feasible(s: System, events: seq<Event>)
    decreases |events|
  {
    events == [] || (Enabled(s, events[0]) && Feasible(Apply(s, events[0]), events[1..]))
  }

  ghost function Run(s: System, events: seq<Event>): System
    requires Feasible(s, events)
    decreases |events|
  {
    if events == [] then s else Run(Apply(s, events[0]), events[1..])
  }

  lemma {:induction false} RunKeepsInv(s: System, events: seq<Event>)
    requires Inv(s) && Feasible(s, events)
    ensures Inv(Run(s, events))
    decreases |events|
  {
    if events != [] {
      StepKeepsInv(s, events[0]);
      RunKeepsInv(Apply(s, events[0]), events[1..]);
    }
  }

  ghost predicate Reachable(s: System) {
    exists events :: Feasible(Start(s.capacity), events) && Run(Start(s.capacity), events) == s
  }

  lemma ReachableInv(s: System)
    requires Reachable(s)
    ensures Inv(s)
  {
    var events :| Feasible(Start(s.capacity), events) && Run(Start(s.capacity), events) == s;
    assert Weights([]) == [];
    forall route ensures RouteWeights([], route) == [] {}
    RunKeepsInv(Start(s.capacity), events);
  }

  lemma {:induction false} CountPositive(handlers: seq<Handler>, p: Handler -> bool)
    requires Count(handlers, p) > 0
    ensures exists i :: 0 <= i < |handlers| && p(handlers[i])
  {
    var front := handlers[..|handlers| - 1];
    if !p(handlers[|handlers| - 1]) {
      CountPositive(front, p);
      var i :| 0 <= i < |front| && p(front[i]);
      assert p(handlers[i]);
    }
  }

  /** Between acquiring and releasing a slot of the class. */
  predicate Holds(h: Handler, kind: Kind) {
    h.kind == kind && ReleaseSlot in h.defers
  }

  /** A counted stream whose upstream answered with an error status: neither completed nor aborted. */
  predicate EndedByStatus(h: Handler) {
    h.kind.Stream? && Past(h, CountingStream) && Status(h) >= 400
  }

  /** A counted stream that is still to be classified. */
  predicate Pending(h: Handler) {
    h.kind.Stream? && Past(h, CountingStream) && Status(h) < 400 && h.verdict.Unclassified?
  }

  lemma WeightRelations(h: Handler)
    requires Sound(h)
    ensures
      var w := Weight(h);
      && (forall kind :: Slots(w, kind) == One(Holds(h, kind)))
      && w.activeStreams <= w.streamSlots
      && w.streamsTotal == w.completed + w.aborted + One(EndedByStatus(h)) + One(Pending(h))
  {
    Held(h.defers);
  }

  lemma TotalLast(handlers: seq<Handler>)
    requires handlers != []
    ensures Total(Weights(handlers))
            == Plus(Total(Weights(handlers[..|handlers| - 1])), Weight(handlers[|handlers| - 1]))
  {
    assert Weights(handlers)[..|handlers| - 1] == Weights(handlers[..|handlers| - 1]);
  }

  lemma {:induction false} SlotsAreHolders(handlers: seq<Handler>, kind: Kind)
    requires forall i :: 0 <= i < |handlers| ==> Sound(handlers[i])
    ensures Slots(Total(Weights(handlers)), kind) == Count(handlers, (h: Handler) => Holds(h, kind))
  {
    if handlers != [] {
      SlotsAreHolders(handlers[..|handlers| - 1], kind);
      TotalLast(handlers);
      WeightRelations(handlers[|handlers| - 1]);
    }
  }

  lemma {:induction false} StreamsAddUp(handlers: seq<Handler>)
    requires forall i :: 0 <= i < |handlers| ==> Sound(handlers[i])
    ensures
      var t := Total(Weights(handlers));
      && t.activeStreams <= t.streamSlots
      && t.streamsTotal == t.completed + t.aborted + Count(handlers, EndedByStatus) + Count(handlers, Pending)
  {
    if handlers != [] {
      StreamsAddUp(handlers[..|handlers| - 1]);
      TotalLast(handlers);
      WeightRelations(handlers[|handlers| - 1]);
    }
  }

  /** Each semaphore is occupied by exactly the handlers of its class between acquire
      and release, and never beyond its capacity; active streams hold stream slots. */
  lemma Admission(s: System, kind: Kind)
    requires Reachable(s)
    ensures Slots(s.tally, kind) == Count(s.handlers, (h: Handler) => Holds(h, kind)) <= s.capacity(kind)
    ensures s.tally.activeStreams <= s.tally.streamSlots <= s.capacity(Stream)
  {
    ReachableInv(s);
    SlotsAreHolders(s.handlers, kind);
    StreamsAddUp(s.handlers);
    assert Slots(s.tally, Stream) == s.tally.streamSlots;
  }

  /** A step of one workload class leaves the other two semaphores alone. */
  lemma ClassesAreIsolated(s: System, i: nat, c: Choice, kind: Kind)
    requires Reachable(s) && Enabled(s, Step(i, c)) && kind != s.handlers[i].kind
    ensures Slots(Apply(s, Step(i, c)).tally, kind) == Slots(s.tally, kind)
  {
    ReachableInv(s);
    SlotsStayBounded(s.tally, s.handlers[i], c, s.capacity);
  }

  /** A choice that a handler not at the semaphore always has. */
  function NextChoice(h: Handler): Choice {
    if h.pc.Calling? then Fail else if h.pc.Relaying? then StreamEnds(false) else Go
  }

  lemma CanStep(s: System, j: nat)
    requires j < |s.handlers|
    requires
      var h := s.handlers[j];
      !h.pc.Finished? && (h.pc.AwaitingSlot? ==> Slots(s.tally, h.kind) < s.capacity(h.kind))
    ensures Enabled(s, Step(j, NextChoice(s.handlers[j])))
  {
  }

  /** Nobody holds a slot while waiting for one. */
  lemma HoldersDoNotWait(h: Handler, kind: Kind)
    requires Sound(h) && Holds(h, kind)
    ensures !h.pc.AwaitingSlot? && !h.pc.Finished?
  {
    Held(h.defers);
  }

  /** A full semaphore has a holder, and that holder can run. */
  lemma FullMeansRunning(s: System, kind: Kind) returns (j: nat)
    requires Inv(s) && Slots(s.tally, kind) == s.capacity(kind) > 0
    ensures j < |s.handlers| && Holds(s.handlers[j], kind) && !s.handlers[j].pc.AwaitingSlot?
    ensures Enabled(s, Step(j, NextChoice(s.handlers[j])))
  {
    SlotsAreHolders(s.handlers, kind);
    CountPositive(s.handlers, (h: Handler) => Holds(h, kind));
    j :| 0 <= j < |s.handlers| && Holds(s.handlers[j], kind);
    HoldersDoNotWait(s.handlers[j], kind);
    CanStep(s, j);
  }

  /** `j` can take a step without any cancellation, and if `i` waits for it, it runs
      with a slot that `i` does not have. */
  predicate Unblocks(s: System, i: nat, j: nat)
    requires i < |s.handlers| && j < |s.handlers|
  {
    var waiting, mover := s.handlers[i], s.handlers[j];
    && Enabled(s, Step(j, NextChoice(mover)))
    && (waiting.pc.AwaitingSlot? && j != i ==>
          Holds(mover, waiting.kind) && !mover.pc.AwaitingSlot? && !Holds(waiting, waiting.kind))
  }

  lemma SomeoneMoves(s: System, i: nat) returns (j: nat)
    requires i < |s.handlers| && !s.handlers[i].pc.Finished?
    requires Inv(s) && s.capacity(s.handlers[i].kind) > 0
    ensures j < |s.handlers| && Unblocks(s, i, j)
  {
    var h := s.handlers[i];
    if h.pc.AwaitingSlot? && Slots(s.tally, h.kind) == s.capacity(h.kind) {
      j := FullMeansRunning(s, h.kind);
      if Holds(h, h.kind) { HoldersDoNotWait(h, h.kind); }
    } else {
      CanStep(s, i);
      j := i;
    }
  }

  /** As long as a handler is unfinished, some handler can take a step. */
  lemma NoDeadlock(s: System, i: nat)
    requires i < |s.handlers| && !s.handlers[i].pc.Finished?
    requires Reachable(s) && s.capacity(s.handlers[i].kind) > 0
    ensures exists j :: 0 <= j < |s.handlers| && Unblocks(s, i, j)
  {
    ReachableInv(s);
    var j := SomeoneMoves(s, i);
  }

  /** Every counted stream is completed, aborted, ended by an error status, or not yet
      classified, and it is only one of these. */
  lemma StreamAccounting(s: System)
    requires Reachable(s)
    ensures s.tally.streamsTotal
            == s.tally.completed + s.tally.aborted + Count(s.handlers, EndedByStatus) + Count(s.handlers, Pending)
  {
    ReachableInv(s);
    StreamsAddUp(s.handlers);
  }

  /** No stream is classified twice, and usage is reported at most once: for a stream
      only after completion, for any request only after a good status. */
  lemma ClassifiedOnce(s: System, i: nat, c: Choice)
    requires Reachable(s) && Enabled(s, Step(i, c))
    ensures
      var before, after := s.handlers[i], Apply(s, Step(i, c)).handlers[i];
      && (!before.verdict.Unclassified? ==> after.verdict == before.verdict && !before.pc.Classifying?)
      && before.reports <= after.reports <= 1
      && (after.reports == 1 ==> Status(after) < 400 && (after.kind.Stream? ==> after.verdict.Completed?))
  {
    ReachableInv(s);
    SoundStep(s.handlers[i], c);
  }

  /** The outcome of a handler is set where its stream has been relayed, or its body
      read and validated, and nowhere else. */
  lemma OutcomeIs(h: Handler, c: Choice)
    requires Offers(h, c)
    ensures h.pc.Relaying? ==> Act(h, c).outcome == Some(c.completed)
    ensures h.pc.Reading? ==> Act(h, c).outcome == Some(c == Go)
    ensures !h.pc.Relaying? && !h.pc.Reading? ==> Act(h, c).outcome == h.outcome
  {
  }

  /** Usage is reported for a finished request exactly when its stream completed, or its
      body was read and accepted; and every answer with a status below 400 is served. */
  lemma UsageIsReported(s: System, i: nat)
    requires Reachable(s) && i < |s.handlers| && s.handlers[i].pc.Finished?
    ensures
      var h := s.handlers[i];
      && h.reports == (if h.outcome == Some(true) then 1 else 0)
      && (h.outcome.Some? <==> h.response.Some? && h.response.value.status < 400)
      && (h.kind.Stream? ==> (h.verdict.Completed? <==> h.outcome == Some(true)))
      && (h.kind.Stream? ==> (h.verdict.Aborted? <==> h.outcome == Some(false)))
  {
    ReachableInv(s);
  }

  predicate InChat(h: Handler) {
    !h.kind.Embedding? && LeaveGauge in h.defers
  }

  predicate InEmbeddings(h: Handler) {
    h.kind.Embedding? && LeaveGauge in h.defers
  }

  /** Between the two additions to the gauge of active streams. */
  predicate InStream(h: Handler) {
    LeaveStreams in h.defers || h.pc.CountingStream?
  }

  predicate CountedStream(h: Handler) {
    h.kind.Stream? && Past(h, CountingStream)
  }

  lemma {:induction false} TotalsAre(handlers: seq<Handler>)
    ensures
      var t := Total(Weights(handlers));
      && t.activeChat == Count(handlers, InChat) && t.activeEmbeddings == Count(handlers, InEmbeddings)
      && t.activeStreams == Count(handlers, InStream) && t.streamsTotal == Count(handlers, CountedStream)
      && t.completed == Count(handlers, (h: Handler) => h.verdict.Completed?)
      && t.aborted == Count(handlers, (h: Handler) => h.verdict.Aborted?)
  {
    if handlers != [] {
      TotalsAre(handlers[..|handlers| - 1]);
      TotalLast(handlers);
    }
  }

  /** Every gauge and stream counter is the number of handlers that it stands for. */
  lemma CountersAre(s: System)
    requires Reachable(s)
    ensures s.tally.activeChat == Count(s.handlers, InChat)
    ensures s.tally.activeEmbeddings == Count(s.handlers, InEmbeddings)
    ensures s.tally.activeStreams == Count(s.handlers, InStream)
    ensures s.tally.streamsTotal == Count(s.handlers, CountedStream)
    ensures s.tally.completed == Count(s.handlers, (h: Handler) => h.verdict.Completed?)
    ensures s.tally.aborted == Count(s.handlers, (h: Handler) => h.verdict.Aborted?)
  {
    ReachableInv(s);
    TotalsAre(s.handlers);
  }

  // ---------- At quiescence ----------

  predicate Quiet(s: System) {
    forall i :: 0 <= i < |s.handlers| ==> s.handlers[i].pc.Finished?
  }

  lemma QuietWeight(h: Handler)
    requires Sound(h) && h.pc.Finished?
    ensures
      var w := Weight(h);
      && w.chatSlots == w.streamSlots == w.embeddingSlots == 0
      && w.activeChat == w.activeEmbeddings == w.activeStreams == 0
      && w.retries == w.reasons == w.routeRetries
  {
  }

  lemma {:induction false} QuietTotals(handlers: seq<Handler>)
    requires forall i :: 0 <= i < |handlers| ==> Sound(handlers[i]) && handlers[i].pc.Finished?
    ensures
      var t := Total(Weights(handlers));
      && t.chatSlots == t.streamSlots == t.embeddingSlots == 0
      && t.activeChat == t.activeEmbeddings == t.activeStreams == 0
      && t.retries == t.reasons == t.routeRetries
  {
    if handlers != [] {
      QuietTotals(handlers[..|handlers| - 1]);
      TotalLast(handlers);
      QuietWeight(handlers[|handlers| - 1]);
    }
  }

  lemma QuietIsReleased(s: System)
    requires Inv(s) && Quiet(s)
    ensures forall kind :: Slots(s.tally, kind) == 0
    ensures s.tally.activeChat == s.tally.activeEmbeddings == s.tally.activeStreams == 0
  {
    QuietTotals(s.handlers);
  }

  /** Once every handler has returned, all slots and gauges are back to zero. */
  lemma EverythingIsReleased(s: System)
    requires Reachable(s) && Quiet(s)
    ensures forall kind :: Slots(s.tally, kind) == 0
    ensures s.tally.activeChat == s.tally.activeEmbeddings == s.tally.activeStreams == 0
  {
    ReachableInv(s);
    QuietIsReleased(s);
  }

  /** Once every handler has returned, the global retry counter equals both the sum
      over the retry reasons and the sum over the route entries. */
  lemma RetriesAreConserved(s: System)
    requires Reachable(s) && Quiet(s)
    ensures s.tally.retries == Sum(s.reasons) == Sum(RetriesOf(s.routes))
  {
    ReachableInv(s);
    QuietTotals(s.handlers);
  }

  lemma RouteTotalLast(handlers: seq<Handler>, route: Route)
    requires handlers != []
    ensures RouteTotal(RouteWeights(handlers, route))
            == PlusRoute(RouteTotal(RouteWeights(handlers[..|handlers| - 1], route)),
                         RouteWeight(handlers[|handlers| - 1], route))
  {
    assert RouteWeights(handlers, route)[..|handlers| - 1] == RouteWeights(handlers[..|handlers| - 1], route);
  }

  predicate RouteOrder(t: RouteTally, quiet: bool) {
    t.errors <= t.bad <= t.answers <= t.requests && (quiet ==> t.requests == t.answers && t.errors == t.bad)
  }

  lemma RouteWeightOrder(h: Handler, route: Route)
    ensures RouteOrder(RouteWeight(h, route), h.pc.Finished?)
  {
  }

  lemma {:induction false} RouteRelations(handlers: seq<Handler>, route: Route, quiet: bool)
    requires quiet ==> forall i :: 0 <= i < |handlers| ==> handlers[i].pc.Finished?
    ensures RouteOrder(RouteTotal(RouteWeights(handlers, route)), quiet)
  {
    if handlers != [] {
      RouteRelations(handlers[..|handlers| - 1], route, quiet);
      RouteTotalLast(handlers, route);
      RouteWeightOrder(handlers[|handlers| - 1], route);
    }
  }

  /** Per route the counters never run ahead of each other, and once every handler has
      returned, requests equal the sum of the status counts and errors the sum of those
      from 400 on. */
  lemma RouteConservation(s: System, route: Route)
    requires Reachable(s)
    ensures
      var m := MetricOf(s.routes, route);
      && m.errors <= Sum(Bad(m.statuses)) <= Sum(m.statuses) <= m.requests
      && (Quiet(s) ==> m.requests == Sum(m.statuses) && m.errors == Sum(Bad(m.statuses)))
  {
    ReachableInv(s);
    RouteRelations(s.handlers, route, Quiet(s));
    assert ReadRoute(MetricOf(s.routes, route)) == RouteTotal(RouteWeights(s.handlers, route));
  }

  /** The finished requests that a number of the metrics stands for. */
  function ServedBy(route: Route): Handler -> bool {
    (h: Handler) => h.response.Some? && h.route == route
  }

  function BadBy(route: Route): Handler -> bool {
    (h: Handler) => h.response.Some? && h.route == route && h.response.value.status >= 400
  }

  function RetriedBy(route: Route): Handler -> bool {
    (h: Handler) => h.response.Some? && h.route == route && h.response.value.attempts == 2
  }

  function AnsweredBy(route: Route, status: int): Handler -> bool {
    (h: Handler) => h.response.Some? && h.route == route && h.response.value.status == status
  }

  function RetriedBecause(reason: string): Handler -> bool {
    (h: Handler) => h.response.Some? && h.response.value.retryReason == reason
  }

  predicate Retried(h: Handler) {
    h.response.Some? && h.response.value.attempts == 2
  }

  lemma {:induction false} CountSame(handlers: seq<Handler>, p: Handler -> bool, q: Handler -> bool)
    requires forall i :: 0 <= i < |handlers| ==> p(handlers[i]) == q(handlers[i])
    ensures Count(handlers, p) == Count(handlers, q)
  {
    if handlers != [] { CountSame(handlers[..|handlers| - 1], p, q); }
  }

  lemma QuietRouteWeight(h: Handler, route: Route)
    requires Sound(h) && h.pc.Finished?
    ensures Weight(h).retries == One(Retried(h))
    ensures RouteWeight(h, route).requests == One(ServedBy(route)(h))
    ensures RouteWeight(h, route).errors == One(BadBy(route)(h))
    ensures RouteWeight(h, route).retries == One(RetriedBy(route)(h))
  {
  }

  lemma {:induction false} QuietRetries(handlers: seq<Handler>)
    requires forall i :: 0 <= i < |handlers| ==> Sound(handlers[i]) && handlers[i].pc.Finished?
    ensures Total(Weights(handlers)).retries == Count(handlers, Retried)
  {
    if handlers != [] {
      QuietRetries(handlers[..|handlers| - 1]);
      TotalLast(handlers);
      QuietRouteWeight(handlers[|handlers| - 1], ("", ""));
    }
  }

  lemma {:induction false} QuietRoute(handlers: seq<Handler>, route: Route)
    requires forall i :: 0 <= i < |handlers| ==> Sound(handlers[i]) && handlers[i].pc.Finished?
    ensures
      var t := RouteTotal(RouteWeights(handlers, route));
      && t.requests == Count(handlers, ServedBy(route))
      && t.errors == Count(handlers, BadBy(route))
      && t.retries == Count(handlers, RetriedBy(route))
  {
    if handlers != [] {
      QuietRoute(handlers[..|handlers| - 1], route);
      RouteTotalLast(handlers, route);
      QuietRouteWeight(handlers[|handlers| - 1], route);
    }
  }

  lemma QuietStatus(h: Handler, route: Route, status: int)
    requires h.pc.Finished?
    ensures AnsweredWith(route, status)(h) == AnsweredBy(route, status)(h)
  {
  }

  lemma QuietReason(h: Handler, reason: string)
    requires h.pc.Finished? && reason != ""
    ensures RetriedFor(reason)(h) == RetriedBecause(reason)(h)
  {
  }

  lemma QuietKeys(handlers: seq<Handler>, route: Route, status: int, reason: string)
    requires forall i :: 0 <= i < |handlers| ==> handlers[i].pc.Finished?
    requires reason != ""
    ensures Count(handlers, AnsweredWith(route, status)) == Count(handlers, AnsweredBy(route, status))
    ensures Count(handlers, RetriedFor(reason)) == Count(handlers, RetriedBecause(reason))
  {
    forall i | 0 <= i < |handlers|
      ensures AnsweredWith(route, status)(handlers[i]) == AnsweredBy(route, status)(handlers[i])
    {
      QuietStatus(handlers[i], route, status);
    }
    CountSame(handlers, AnsweredWith(route, status), AnsweredBy(route, status));
    forall i | 0 <= i < |handlers| ensures RetriedFor(reason)(handlers[i]) == RetriedBecause(reason)(handlers[i]) {
      QuietReason(handlers[i], reason);
    }
    CountSame(handlers, RetriedFor(reason), RetriedBecause(reason));
  }

  /** At rest every number of the metrics is a count of finished requests: retries those
      with two attempts, and each key of each table those that it names. */
  lemma TablesAre(s: System, route: Route, status: int, reason: string)
    requires Reachable(s) && Quiet(s) && reason != ""
    ensures s.tally.retries == Count(s.handlers, Retried)
    ensures Get(s.reasons, reason) == Count(s.handlers, RetriedBecause(reason))
    ensures
      var m := MetricOf(s.routes, route);
      && m.requests == Count(s.handlers, ServedBy(route))
      && m.errors == Count(s.handlers, BadBy(route))
      && m.retries == Count(s.handlers, RetriedBy(route))
      && Get(m.statuses, status) == Count(s.handlers, AnsweredBy(route, status))
  {
    ReachableInv(s);
    QuietRetries(s.handlers);
    QuietRoute(s.handlers, route);
    QuietKeys(s.handlers, route, status, reason);
    assert ReadRoute(MetricOf(s.routes, route)) == RouteTotal(RouteWeights(s.handlers, route));
  }

  // ---------- Every answer can be served ----------

  /** A handler that makes these choices one after the other. */
  ghost predicate Walks(h: Handler, choices: seq<Choice>, h': Handler)
    decreases |choices|
  {
    if choices == [] then h' == h
    else
      var n := |choices| - 1;
      exists m :: Walks(h, choices[..n], m) && Offers(m, choices[n]) && h' == Act(m, choices[n])
  }

  /** The choice that leads on to that answer, and from there to that outcome. */
  function Toward(h: Handler, response: Provider.Response, route: Route, good: bool): Choice {
    match h.pc
    case Calling => Answer(response, route)
    case Relaying => StreamEnds(good)
    case Reading => if good then Go else Fail
    case _ => Go
  }

  /** On the way to that answer and outcome. */
  predicate Underway(h: Handler, kind: Kind, response: Provider.Response, route: Route, good: bool) {
    && Sound(h) && h.kind == kind
    && (Rank(h.pc) >= 4 ==> h.response == Some(response) && h.route == route)
    && (h.outcome.Some? ==> h.outcome == Some(good))
  }

  lemma TowardKeeps(h: Handler, kind: Kind, response: Provider.Response, route: Route, good: bool)
    requires Underway(h, kind, response, route, good) && Provider.WellFormed(response) && !h.pc.Finished?
    ensures Offers(h, Toward(h, response, route, good))
    ensures Underway(Act(h, Toward(h, response, route, good)), kind, response, route, good)
  {
    SoundStep(h, Toward(h, response, route, good));
  }

  /** For every kind of request and every answer of its candidate loop there is a way
      through the handler, with either outcome for an answer below 400. */
  lemma EveryAnswerIsServed(kind: Kind, response: Provider.Response, route: Route, good: bool)
    returns (choices: seq<Choice>, h: Handler)
    requires Provider.WellFormed(response)
    ensures Walks(Fresh(kind), choices, h) && h.pc.Finished? && h.kind == kind
    ensures h.response == Some(response) && h.route == route
    ensures h.outcome == if response.status < 400 then Some(good) else None
    ensures h.reports == if response.status < 400 && good then 1 else 0
  {
    choices, h := [], Fresh(kind);
    while !h.pc.Finished?
      invariant Walks(Fresh(kind), choices, h) && Underway(h, kind, response, route, good)
      decreases Left(h)
    {
      var choice := Toward(h, response, route, good);
      TowardKeeps(h, kind, response, route, good);
      StepShortens(h, choice);
      assert (choices + [choice])[..|choices|] == choices;
      choices, h := choices + [choice], Act(h, choice);
    }
  }

  // ---------- Quiescence is reached ----------

  /** A bound on the steps that a handler has left: those to the unwinding, and one for
      each of at most five deferred calls. */
  function Left(h: Handler): nat {
    if h.pc.Finished? then 0
    else if h.pc.Unwinding? then |h.defers| + 1
    else 16 - Rank(h.pc) + 6
  }

  lemma StepShortens(h: Handler, c: Choice)
    requires Sound(h) && Offers(h, c)
    ensures Left(Act(h, c)) < Left(h) <= 22
  {
  }

  function TotalLeft(handlers: seq<Handler>): nat {
    if handlers == [] then 0 else TotalLeft(handlers[..|handlers| - 1]) + Left(handlers[|handlers| - 1])
  }

  lemma {:induction false} LeftUpdate(handlers: seq<Handler>, i: nat, h: Handler)
    requires i < |handlers|
    ensures TotalLeft(handlers[i := h]) + Left(handlers[i]) == TotalLeft(handlers) + Left(h)
    decreases |handlers|
  {
    var front := handlers[..|handlers| - 1];
    UpdateFront(handlers, i, h);
    if i < |front| {
      LeftUpdate(front, i, h);
    }
  }

  lemma {:induction false} LeftAtMost(handlers: seq<Handler>)
    requires forall i :: 0 <= i < |handlers| ==> Stacked(handlers[i])
    ensures TotalLeft(handlers) <= 22 * |handlers|
  {
    if handlers != [] { LeftAtMost(handlers[..|handlers| - 1]); }
  }

  /** No request arrives any more. */
  predicate Closing(events: seq<Event>) {
    forall event | event in events :: event.Step?
  }

  lemma StepUsesUp(s: System, e: Event)
    requires AllSound(s) && Enabled(s, e) && e.Step?
    ensures TotalLeft(Apply(s, e).handlers) < TotalLeft(s.handlers)
    ensures |Apply(s, e).handlers| == |s.handlers| && Apply(s, e).capacity == s.capacity
  {
    StepShortens(s.handlers[e.handler], e.choice);
    LeftUpdate(s.handlers, e.handler, Act(s.handlers[e.handler], e.choice));
  }

  lemma {:induction false} RunUsesUp(s: System, events: seq<Event>)
    requires Inv(s) && Feasible(s, events) && Closing(events)
    ensures |events| + TotalLeft(Run(s, events).handlers) <= TotalLeft(s.handlers)
    ensures Run(s, events).capacity == s.capacity
    decreases |events|
  {
    if events != [] {
      assert events[0] in events;
      StepKeepsInv(s, events[0]);
      StepUsesUp(s, events[0]);
      RunUsesUp(Apply(s, events[0]), events[1..]);
    }
  }

  predicate CanMove(s: System) {
    exists j | 0 <= j < |s.handlers| :: Enabled(s, Step(j, NextChoice(s.handlers[j])))
  }

  /** When requests stop arriving, every run makes at most 22 steps per handler, and it
      can go on, without any cancellation, until every handler has returned. */
  lemma EveryRunComesToRest(s: System, events: seq<Event>)
    requires Reachable(s) && Feasible(s, events) && Closing(events)
    requires forall kind :: s.capacity(kind) > 0
    ensures |events| <= 22 * |s.handlers|
    ensures CanMove(Run(s, events)) || Quiet(Run(s, events))
  {
    ReachableInv(s);
    LeftAtMost(s.handlers);
    RunUsesUp(s, events);
    RunKeepsInv(s, events);
    var end := Run(s, events);
    if !Quiet(end) {
      var i :| 0 <= i < |end.handlers| && !end.handlers[i].pc.Finished?;
      var j := SomeoneMoves(end, i);
      assert Enabled(end, Step(j, NextChoice(end.handlers[j])));
    }
  }

  lemma {:induction false} Drain(s: System) returns (events: seq<Event>)
    requires Inv(s) && forall kind :: s.capacity(kind) > 0
    ensures Feasible(s, events) && Closing(events) && Quiet(Run(s, events))
    decreases TotalLeft(s.handlers)
  {
    if Quiet(s) {
      events := [];
    } else {
      var i :| 0 <= i < |s.handlers| && !s.handlers[i].pc.Finished?;
      var j := SomeoneMoves(s, i);
      var e := Step(j, NextChoice(s.handlers[j]));
      StepKeepsInv(s, e);
      StepUsesUp(s, e);
      var rest := Drain(Apply(s, e));
      events := [e] + rest;
      assert events[1..] == rest;
    }
  }

  /** From every reachable state the handlers at work can finish, and then everything is released. */
  lemma RestIsReachable(s: System) returns (events: seq<Event>)
    requires Reachable(s) && forall kind :: s.capacity(kind) > 0
    ensures Feasible(s, events) && Closing(events) && Quiet(Run(s, events))
    ensures
      var end := Run(s, events).tally;
      && (forall kind :: Slots(end, kind) == 0)
      && end.activeChat == end.activeEmbeddings == end.activeStreams == 0
  {
    ReachableInv(s);
    events := Drain(s);
    RunKeepsInv(s, events);
    QuietIsReleased(Run(s, events));
  }
}
