/** Every run of loop and watchdog is a script of the relay loop: what is proved about
    scripts holds for the interleaved runs (internal/router/router.go:645-699, 744-805). */
module StreamRuns {
  import opened Sequences
  import opened DoneScanner
  import opened StreamLoop
  import W = Watchdog

  ghost predicate NoneEnds(turns: seq<Turn>) {
    forall turn :: turn in turns ==> !Ends(turn)
  }

  /** The current turn records the read behind the loop's error variable. */
  predicate Tells(turn: Turn, err: W.LoopError) {
    && turn.write == Written
    && if turn.expired then err == W.DeadlineExceeded else err != W.DeadlineExceeded && turn.err == W.Plain(err)
  }

  ghost predicate RanToEnd(turns: seq<Turn>) {
    turns != [] && NoneEnds(turns[..|turns| - 1]) && Ends(turns[|turns| - 1])
  }

  /** The turns behind the loop, and the current one, are those of a script. */
  ghost predicate ScriptInv(s: W.State) {
    var l, turn, turns := s.loop, s.past.turn, s.past.turns;
    && (W.Stopping(l.at) || NoneEnds(turns))
    && match l.at
       case Reading => Relaying(turns, l.relayed, l.marker)
       case Checking(_, err) => Relaying(turns, l.relayed, l.marker) && err != W.DeadlineExceeded
       case Writing(chunk, err) =>
         Relaying(turns, l.relayed, l.marker) && Tells(turn, err) && turn.chunk == chunk && chunk != []
       case Resetting(err) => Relaying(turns + [turn], l.relayed, l.marker) && Tells(turn, err)
       case Deciding(err) => Relaying(turns + [turn], l.relayed, l.marker) && Tells(turn, err)
       case _ => RanToEnd(turns) && (l.verdict.Completed? <==> Completed(turns))
  }

  lemma AddTurn(turns: seq<Turn>, turn: Turn, relayed: Bytes, marker: bool)
    requires Relaying(turns, relayed, marker) && !FailsWriting(turn)
    ensures Relaying(turns + [turn], relayed + turn.chunk, Contains(relayed + turn.chunk, MARKER))
    ensures turn.chunk == [] ==> Relaying(turns + [turn], relayed, marker)
  {
    RelayTurn(turns, turn, relayed, marker);
    LatchStep(relayed, turn.chunk);
    if turn.chunk == [] { assert relayed + turn.chunk == relayed; }
  }

  lemma CheckKeepsScript(s: W.State)
    requires ScriptInv(s) && s.loop.at.Checking?
    ensures ScriptInv(W.LoopApply(s, W.Check))
  {
    var turn := W.LoopApply(s, W.Check).past.turn;
    AddTurn(s.past.turns, turn, s.loop.relayed, s.loop.marker);
  }

  lemma WriteKeepsScript(s: W.State, write: Write)
    requires ScriptInv(s) && W.LoopInv(s) && s.loop.at.Writing?
    ensures ScriptInv(W.LoopApply(s, W.Write(write)))
  {
    var turn, turns := s.past.turn.(write := write), s.past.turns;
    if write.Written? {
      AddTurn(turns, turn, s.loop.relayed, s.loop.marker);
      assert turn == s.past.turn;
    } else {
      assert FailsWriting(turn);
      assert (turns + [turn])[..|turns|] == turns;
      assert turn in turns + [turn];
    }
  }

  lemma DecideKeepsScript(s: W.State)
    requires ScriptInv(s) && W.LoopInv(s) && s.loop.at.Deciding?
    ensures ScriptInv(W.LoopApply(s, W.Decide))
  {
    var turn, turns := s.past.turn, s.past.turns;
    assert (turns + [turn])[..|turns|] == turns;
    if s.loop.at.err.Nil? {
      assert !Ends(turn);
    } else {
      assert Ends(turn);
    }
  }

  /** The turns and the loop are all that a script looks at. */
  lemma SameScript(s: W.State, s': W.State)
    requires ScriptInv(s) && s'.loop == s.loop
    requires s'.past.turn == s.past.turn && s'.past.turns == s.past.turns
    ensures ScriptInv(s')
  {
  }

  lemma OthersKeepLoop(s: W.State, step: W.Step)
    requires W.Enabled(s, step) && !step.ByLoop?
    ensures
      var s' := W.Apply(s, step);
      s'.loop == s.loop && s'.past.turn == s.past.turn && s'.past.turns == s.past.turns
  {
  }

  lemma LoopKeepsScript(s: W.State, step: W.LoopStep)
    requires ScriptInv(s) && W.LoopInv(s) && W.LoopEnabled(s, step)
    ensures ScriptInv(W.LoopApply(s, step))
  {
    match step
    case Check => CheckKeepsScript(s);
    case Write(write) => WriteKeepsScript(s, write);
    case Decide => DecideKeepsScript(s);
    case _ =>
  }

  lemma StepKeepsScript(s: W.State, step: W.Step)
    requires ScriptInv(s) && W.LoopInv(s) && W.Enabled(s, step)
    ensures ScriptInv(W.Apply(s, step))
  {
    match step
    case ByLoop(l) => LoopKeepsScript(s, l);
    case _ =>
      OthersKeepLoop(s, step);
      SameScript(s, W.Apply(s, step));
  }

  lemma {:induction false} RunKeepsScript(s: W.State, steps: seq<W.Step>)
    requires W.Inv(s) && ScriptInv(s) && W.Feasible(s, steps)
    ensures ScriptInv(W.Run(s, steps)) && W.Inv(W.Run(s, steps))
    decreases |steps|
  {
    if steps != [] {
      StepKeepsScript(s, steps[0]);
      W.StepKeepsInv(s, steps[0]);
      RunKeepsScript(W.Apply(s, steps[0]), steps[1..]);
    }
  }

  lemma {:induction false} TakenAll(turns: seq<Turn>)
    requires turns == [] || NoneEnds(turns[..|turns| - 1])
    ensures Taken(turns) == turns
  {
    if |turns| > 1 {
      var rest := turns[1..];
      assert turns[0] in turns[..|turns| - 1];
      forall turn | turn in rest[..|rest| - 1] ensures !Ends(turn) {
        assert turn in turns[..|turns| - 1];
      }
      TakenAll(rest);
    }
  }

  /** In every interleaving, the turns that the loop has made are a script that the
      relay loop takes to its end; the loop has returned iff that script is finished,
      and its verdict is the verdict on the script. */
  lemma EveryRunIsAScript(timeout: W.Time, synchronous: bool, steps: seq<W.Step>)
    requires W.Feasible(W.Init(timeout, synchronous), steps)
    ensures
      var s := W.Run(W.Init(timeout, synchronous), steps);
      var turns := s.past.turns;
      && Taken(turns) == turns
      && (W.Stopping(s.loop.at) <==> Finished(turns))
      && (s.loop.verdict.Completed? <==> Completed(turns))
  {
    var s := W.Run(W.Init(timeout, synchronous), steps);
    RunKeepsScript(W.Init(timeout, synchronous), steps);
    TakenAll(s.past.turns);
    if !W.Stopping(s.loop.at) && s.past.turns != [] {
      assert !Ends(s.past.turns[|s.past.turns| - 1]);
    }
  }

  /** A stream that counts as completed, with all interleavings of the watchdog: the
      client has received exactly the bytes read, and they hold the marker. */
  lemma CompletedRunIsWhole(timeout: W.Time, synchronous: bool, steps: seq<W.Step>)
    requires W.Feasible(W.Init(timeout, synchronous), steps)
    requires W.Run(W.Init(timeout, synchronous), steps).loop.verdict.Completed?
    ensures
      var turns := W.Run(W.Init(timeout, synchronous), steps).past.turns;
      Received(turns) == Body(turns) && Contains(Received(turns), MARKER)
  {
    EveryRunIsAScript(timeout, synchronous, steps);
    ClientSeesPrefix(W.Run(W.Init(timeout, synchronous), steps).past.turns);
  }
}
