/**
 What the Bridge promises over every run: crashes after any step, expiry, takeover, any runtime, any control traffic.
 */
module BridgeTheorems {
  import opened Wrappers
  import opened BridgeLedger
  import opened BridgeContext
  import opened BridgeInvariant
  import opened BridgeMachine
  import opened BridgeSafety
  import opened BridgeSessions
  import opened BridgeCalls
  import opened BridgeRuns
  import Claims
  import CatchUp

  lemma Reachable(s: State, acts: seq<Action>)
    requires Initial(s)
    ensures Inv(Run(s, acts))
  {
    hide Inv, Initial;
    InitialInv(s);
    RunInv(s, acts);
  }

  // ---------------------------------------------------------------- never replayed blindly

  /** The calls of `runtime.deliver` for a Record that were not resolved as a proven pre-spawn failure. */
  function CallsFor(s: State, position: nat): set<nat> {
    set i | 0 <= i < |s.calls| && CountsFor(s.db, s.calls[i], position)
  }

  predicate CountsFor(db: Ledger, m: Mark, position: nat) {
    HasMarker(db, m) && db.deliveries[m.did].position == position && !MarkerAt(db, m).PrespawnFailure?
  }

  /** A call that may have run is covered by the last marker of its attempt. */
  lemma CountedIsLast(s: State, i: nat, position: nat)
    requires Inv(s) && i in CallsFor(s, position)
    ensures var m := s.calls[i];
            m.did in AttemptsOf(s.db, position) && m.n == |s.db.deliveries[m.did].markers| - 1
  {
    InvParts(s);
    var m := s.calls[i];
    assert NotHalt(s.db, m);
    hide Inv, LedgerOk, SessionsOk, ProcsOk, MarksOk, CallbacksOk;
    Row(s.db, m.did);
    LastOnly(s.db.deliveries[m.did], m.n);
  }

  lemma LastOnly(a: Attempt, n: nat)
    requires MarkersOk(a) && n < |a.markers| && !a.markers[n].PrespawnFailure? && !a.markers[n].ControlHalt?
    ensures n == |a.markers| - 1
  {
  }

  /** At most one call per attempt counts, so the counted calls are no more than the attempts. */
  lemma {:induction false} CallsWithinAttempts(s: State, position: nat, indices: set<nat>, attempts: set<nat>)
    requires Inv(s) && indices <= CallsFor(s, position)
    requires attempts == set i | i in indices :: s.calls[i].did
    ensures |indices| <= |attempts|
    decreases |indices|
  {
    hide Inv;
    if indices != {} {
      var i :| i in indices;
      var rest := indices - {i};
      var others := set j | j in rest :: s.calls[j].did;
      forall j | j in rest ensures s.calls[j].did != s.calls[i].did {
        OneCallPerAttempt(s, position, i, j);
      }
      assert attempts == others + {s.calls[i].did};
      CallsWithinAttempts(s, position, rest, others);
    }
  }

  lemma OneCallPerAttempt(s: State, position: nat, i: nat, j: nat)
    requires Inv(s) && i in CallsFor(s, position) && j in CallsFor(s, position) && i != j
    ensures s.calls[i].did != s.calls[j].did
  {
    CountedIsLast(s, i, position);
    CountedIsLast(s, j, position);
    InvParts(s);
    hide Inv, LedgerOk, SessionsOk, ProcsOk, MarksOk, CallbacksOk;
  }

  /** Over every run, a Record is delivered at most once, and once more for every consumed RETRY authorization: never blindly
      replayed. */
  lemma DeliverBound(s0: State, acts: seq<Action>, position: nat)
    requires Initial(s0)
    ensures var s := Run(s0, acts); |CallsFor(s, position)| <= 1 + |RetriesOf(s.db, position)|
  {
    hide Initial, Inv;
    var s := Run(s0, acts);
    Reachable(s0, acts);
    var indices := CallsFor(s, position);
    var attempts := set i | i in indices :: s.calls[i].did;
    CallsWithinAttempts(s, position, indices, attempts);
    forall d | d in attempts ensures d in AttemptsOf(s.db, position) {
      var i :| i in indices && s.calls[i].did == d;
      CountedIsLast(s, i, position);
    }
    SubsetSize(attempts, AttemptsOf(s.db, position));
    CountsAt(s, position);
  }

  lemma CountsAt(s: State, position: nat)
    requires Inv(s)
    ensures |AttemptsOf(s.db, position)| <= 1 + |RetriesOf(s.db, position)|
  {
    assert CountsOk(s.db);
  }

  /** An attempt whose `deliver` may have run has an unresolved marker, or is no longer NOT_STARTED. */
  lemma MayHaveRun(s0: State, acts: seq<Action>, i: nat)
    requires Initial(s0) && i < |Run(s0, acts).calls|
    ensures var s := Run(s0, acts); var m := s.calls[i];
            HasMarker(s.db, m)
            && (MarkerAt(s.db, m).PrespawnFailure? || MarkerAt(s.db, m).Open? || !s.db.deliveries[m.did].certainty.NotStarted?)
  {
    hide Initial;
    var s := Run(s0, acts);
    Reachable(s0, acts);
    InvParts(s);
    assert s.calls[i] in s.calls && NotHalt(s.db, s.calls[i]);
    hide Inv, LedgerOk, SessionsOk, ProcsOk, MarksOk, Run;
    Row(s.db, s.calls[i].did);
    PromotedHasMoved(s.db.deliveries[s.calls[i].did], s.calls[i].n);
  }

  lemma PromotedHasMoved(a: Attempt, n: nat)
    requires MarkersOk(a) && n < |a.markers|
    ensures a.markers[n].Promoted? ==> !a.certainty.NotStarted?
  {
    if a.markers[n].Promoted? { LastOnly(a, n); }
  }

  // ---------------------------------------------------------------- nothing is skipped

  /** Every position up to the Offset is the peer's own Record, a reconcile Record, control intent (accepted, if it is for the
      peer), or settled: terminal, refused, rejected or cancelled. */
  lemma NothingSkipped(s0: State, acts: seq<Action>, k: nat)
    requires Initial(s0) && 1 <= k <= Run(s0, acts).db.offset
    ensures Accounted(Run(s0, acts).db, k)
  {
    hide Initial, Inv;
    Reachable(s0, acts);
    InvParts(Run(s0, acts));
    hide Run;
  }

  /** An attempt that is neither acknowledged nor the newest was given up to a RETRY. */
  lemma OnlyNewestPending(s0: State, acts: seq<Action>, did: nat)
    requires Initial(s0)
    requires did + 1 < |Run(s0, acts).db.deliveries| && !Run(s0, acts).db.deliveries[did].acked
    ensures var db := Run(s0, acts).db; did in db.retries && db.retries[did].consumed.Some?
  {
    hide Initial, Inv;
    Reachable(s0, acts);
    InvParts(Run(s0, acts));
    Row(Run(s0, acts).db, did);
    hide Run;
  }

  // ---------------------------------------------------------------- cancel is final

  /** The cycle is past the last gate before the invoke. */
  predicate PastGates(pc: Pc, did: nat) {
    (pc.Cleared? || pc.Armed?) && pc.turn.did == did
  }

  ghost predicate Barred(s: State, did: nat) {
    CancelApplies(s.db, did) && forall o :: o in s.procs ==> !PastGates(s.procs[o].pc, did)
  }

  lemma GateBars(db: Ledger, pc: Pc, input: Input, ok: bool, did: nat)
    requires CancelApplies(db, did) && !PastGates(pc, did)
    ensures var m := GateStep(db, pc, input, ok); m.Goes? ==> !PastGates(m.pc, did)
  {
    hide CancelApplies, Paused, MustTake, RejectSelector;
  }

  lemma OthersBar(db: Ledger, pc: Pc, input: Input, ok: bool, claim: nat, now: real, b: CatchUp.Budget, did: nat)
    requires !PastGates(pc, did)
    ensures var m := StartStep(db, pc, input, ok, claim); m.Goes? ==> !PastGates(m.pc, did)
    ensures var m := SessionStep(db, pc, input, ok, b); m.Goes? ==> !PastGates(m.pc, did)
    ensures var m := SettleStep(db, pc, input, ok, now); m.Goes? ==> !PastGates(m.pc, did)
    ensures var m := OffsetStep(db, pc, input, ok); m.Goes? ==> !PastGates(m.pc, did)
  {
    hide PromoteUnresolved, Paused, RetryBlocked, BeginAttempt, RejectSelector, Taint, RefusalOf, FailedBefore, IsControl, Resumable, TurnFor,
         CreateSession, ResumeSession, LoseSession, FinalizeTerminal, AppendResponse, BindResponse, NoteCancelled, AdvanceOffset,
         Tombstone, SettleRefusal, AckCancelled, Ack;
  }

  lemma InvokeBars(db: Ledger, pc: Pc, input: Input, ok: bool, did: nat)
    requires !PastGates(pc, did)
    ensures var m := InvokeStep(db, pc, input, ok); m.Goes? ==> !PastGates(m.pc, did)
  {
    hide MarkInvocation, ResolveInvocation, Transition, LoseSession, Taint, BindExecution;
  }

  lemma MoveBars(db: Ledger, pc: Pc, input: Input, ok: bool, claim: nat, now: real, b: CatchUp.Budget, did: nat)
    requires CancelApplies(db, did) && !PastGates(pc, did)
    ensures var m := MoveOf(db, pc, input, ok, claim, now, b); m.Goes? ==> !PastGates(m.pc, did)
  {
    hide StartStep, GateStep, SessionStep, InvokeStep, SettleStep, OffsetStep, CancelApplies, PastGates;
    GateBars(db, pc, input, ok, did);
    OthersBar(db, pc, input, ok, claim, now, b, did);
    InvokeBars(db, pc, input, ok, did);
    assert !PastGates(Idle, did) by { IdleNotPast(did); }
  }

  lemma IdleNotPast(did: nat)
    ensures !PastGates(Idle, did)
  {
  }

  /** Actions that are not steps of a cycle call nothing, and leave every cycle where it is, or at rest. */
  lemma OtherActions(s: State, a: Action)
    requires !a.Step?
    ensures Next(s, a).calls == s.calls
    ensures forall o :: o in Next(s, a).procs ==>
              var pc := Next(s, a).procs[o].pc; pc.Idle? || (o in s.procs && pc == s.procs[o].pc)
  {
    hide StepHandler, Finalized, Unproven, Ended, RegisterRetry, AppendRecord, MoveOf;
    HandlerBars(s, a);
  }

  lemma HandlerBars(s: State, a: Action)
    ensures StepHandler(s, a).procs == s.procs && StepHandler(s, a).calls == s.calls
  {
    hide AcceptControl, FenceControl, CompleteControl;
  }

  /** No step calls `deliver` on a barred attempt or brings a cycle past its gates. */
  lemma NextBars(s: State, a: Action, did: nat)
    requires Inv(s) && Barred(s, did)
    ensures Barred(Next(s, a), did)
    ensures forall m :: m in Next(s, a).calls && m.did == did ==> m in s.calls
  {
    hide Inv, Grows, CancelApplies, StepProc;
    NextInv(s, a);
    CancelStays(s.db, Next(s, a).db, did);
    if a.Step? {
      if a.owner in s.procs { StepBars(s, a.owner, a.input, did); }
    } else {
      hide Next;
      OtherActions(s, a);
    }
  }

  lemma StepBars(s: State, owner: string, input: Input, did: nat)
    requires owner in s.procs && Barred(s, did)
    ensures var s' := StepProc(s, owner, input);
            (forall m :: m in s'.calls && m.did == did ==> m in s.calls)
            && (forall o :: o in s'.procs ==> !PastGates(s'.procs[o].pc, did))
  {
    hide CancelApplies, MoveProc, MustTake, Intake;
    var p := s.procs[owner];
    if input.Take? && (p.pc.Sweeping? || p.pc.Scan?) { IntakeBars(s, p.pc.cursor + 1, input.lease, Some(p.token)); }
    if input.Stranded? { IntakeBars(s, input.position, input.lease, Some(p.token)); }
    ProcBars(s, owner, input, did);
  }

  lemma ProcBars(s: State, owner: string, input: Input, did: nat)
    requires owner in s.procs && Barred(s, did)
    ensures var s' := MoveProc(s, owner, input);
            s'.calls == s.calls && forall o :: o in s'.procs ==> !PastGates(s'.procs[o].pc, did)
  {
    hide CancelApplies, MoveOf, Unproven, Ended;
    var p := s.procs[owner];
    MoveBars(s.db, p.pc, input, TokenPasses(s, p.token), p.token.generation, s.kernel.now, s.budget, did);
  }

  lemma IntakeBars(s: State, position: nat, lease: nat, token: Option<Claims.Token>)
    ensures Intake(s, position, lease, token).procs == s.procs && Intake(s, position, lease, token).calls == s.calls
  {
    hide AcceptControl;
  }

  lemma {:induction false} RunBars(s: State, acts: seq<Action>, did: nat)
    requires Inv(s) && Barred(s, did)
    ensures forall m :: m in Run(s, acts).calls && m.did == did ==> m in s.calls
    decreases |acts|
  {
    hide Inv, Next, Barred;
    if acts != [] {
      NextBars(s, acts[0], did);
      NextInv(s, acts[0]);
      RunBars(Next(s, acts[0]), acts[1..], did);
    }
  }

  /** A cancel that applies to a NOT_STARTED attempt with no open marker is final: no cycle of any owner ever calls `deliver` on
      the attempt again, across crashes, takeovers, pauses and resumes. */
  lemma CancelIsFinal(s0: State, before: seq<Action>, after: seq<Action>, did: nat)
    requires Initial(s0)
    requires var db := Run(s0, before).db;
             CancelApplies(db, did) && db.deliveries[did].certainty.NotStarted? && NoOpen(db.deliveries[did])
    ensures var s := Run(s0, before);
            forall m :: m in Run(s, after).calls && m.did == did ==> m in s.calls
  {
    var s := Run(s0, before);
    hide Initial, Inv, Run;
    Reachable(s0, before);
    InvParts(s);
    Row(s.db, did);
    hide *;
    forall o | o in s.procs ensures !PastGates(s.procs[o].pc, did) {
      BeforeGates(s, did, o);
    }
    RunBars(s, after, did);
  }

  lemma BeforeGates(s: State, did: nat, owner: string)
    requires MarksOk(s) && owner in s.procs && did < |s.db.deliveries| && MarkersOk(s.db.deliveries[did])
    requires s.db.deliveries[did].certainty.NotStarted? && NoOpen(s.db.deliveries[did])
    ensures !PastGates(s.procs[owner].pc, did)
  {
    assert MarkOk(s, owner);
    if PastGates(s.procs[owner].pc, did) {
      PromotedHasMoved(s.db.deliveries[did], s.procs[owner].pc.n);
      LastOnly(s.db.deliveries[did], s.procs[owner].pc.n);
      assert false;
    }
  }

  // ---------------------------------------------------------------- pause holds

  /** The cycle has read the pause state for the last time before the invoke. */
  predicate PastPause(pc: Pc) {
    (pc.Unpaused? && pc.site.AtMarked?) || pc.Cleared? || pc.Armed?
  }

  lemma GatePauses(db: Ledger, pc: Pc, input: Input, ok: bool)
    requires Paused(db) && !PastPause(pc)
    ensures var m := GateStep(db, pc, input, ok); m.Goes? ==> !PastPause(m.pc)
  {
    hide CancelApplies, Paused, MustTake, RejectSelector;
  }

  lemma OthersPause(db: Ledger, pc: Pc, input: Input, ok: bool, claim: nat, now: real, b: CatchUp.Budget)
    requires !PastPause(pc)
    ensures var m := StartStep(db, pc, input, ok, claim); m.Goes? ==> !PastPause(m.pc)
    ensures var m := SessionStep(db, pc, input, ok, b); m.Goes? ==> !PastPause(m.pc)
    ensures var m := InvokeStep(db, pc, input, ok); m.Goes? ==> !PastPause(m.pc)
  {
    hide PromoteUnresolved, Paused, RetryBlocked, BeginAttempt, RejectSelector, Taint, RefusalOf, FailedBefore, IsControl, Resumable, TurnFor,
         CreateSession, ResumeSession, LoseSession, Tombstone, MarkInvocation, ResolveInvocation, Transition, BindExecution;
  }

  lemma SettlePauses(db: Ledger, pc: Pc, input: Input, ok: bool, now: real)
    requires !PastPause(pc)
    ensures var m := SettleStep(db, pc, input, ok, now); m.Goes? ==> !PastPause(m.pc)
    ensures var m := OffsetStep(db, pc, input, ok); m.Goes? ==> !PastPause(m.pc)
  {
    hide LoseSession, FinalizeTerminal, AppendResponse, BindResponse, NoteCancelled, AdvanceOffset, SettleRefusal, AckCancelled, Ack;
  }

  lemma MovePauses(db: Ledger, pc: Pc, input: Input, ok: bool, claim: nat, now: real, b: CatchUp.Budget)
    requires Paused(db) && !PastPause(pc)
    ensures var m := MoveOf(db, pc, input, ok, claim, now, b); m.Goes? ==> !PastPause(m.pc)
  {
    hide StartStep, GateStep, SessionStep, InvokeStep, SettleStep, OffsetStep, Paused;
    GatePauses(db, pc, input, ok);
    OthersPause(db, pc, input, ok, claim, now, b);
    SettlePauses(db, pc, input, ok, now);
  }

  ghost predicate Held(s: State) {
    Paused(s.db) && forall o :: o in s.procs ==> !PastPause(s.procs[o].pc)
  }

  lemma ProcPauses(s: State, owner: string, input: Input)
    requires owner in s.procs && Held(s)
    ensures var s' := MoveProc(s, owner, input);
            s'.calls == s.calls && forall o :: o in s'.procs ==> !PastPause(s'.procs[o].pc)
  {
    hide Paused, MoveOf, Unproven, Ended;
    var p := s.procs[owner];
    MovePauses(s.db, p.pc, input, TokenPasses(s, p.token), p.token.generation, s.kernel.now, s.budget);
  }

  lemma NextPauses(s: State, a: Action)
    requires Held(s)
    ensures Next(s, a).calls == s.calls && forall o :: o in Next(s, a).procs ==> !PastPause(Next(s, a).procs[o].pc)
  {
    if a.Step? {
      hide StepProc, Paused, StepHandler, Called, Followed, RegisterRetry, AppendRecord;
      if a.owner in s.procs { StepPauses(s, a.owner, a.input); }
    } else {
      hide Paused, Next;
      OtherActions(s, a);
    }
  }

  lemma StepPauses(s: State, owner: string, input: Input)
    requires Held(s) && owner in s.procs
    ensures var s' := StepProc(s, owner, input); s'.calls == s.calls && forall o :: o in s'.procs ==> !PastPause(s'.procs[o].pc)
  {
    hide Paused, MoveProc, MustTake, Intake, Claims.Heartbeat;
    var p := s.procs[owner];
    if input.Take? && (p.pc.Sweeping? || p.pc.Scan?) { IntakeBars(s, p.pc.cursor + 1, input.lease, Some(p.token)); }
    if input.Stranded? { IntakeBars(s, input.position, input.lease, Some(p.token)); }
    ProcPauses(s, owner, input);
  }

  /** The scope stays paused along the run. */
  ghost predicate PausedThroughout(s: State, acts: seq<Action>)
    decreases |acts|
  {
    Paused(s.db) && (acts != [] ==> PausedThroughout(Next(s, acts[0]), acts[1..]))
  }

  /** While a scope stays paused, and no cycle is already past its last look at the pause state, nothing is delivered: whatever owners,
      handlers and crashes do. */
  lemma {:induction false} PauseHolds(s: State, acts: seq<Action>)
    requires PausedThroughout(s, acts) && forall o :: o in s.procs ==> !PastPause(s.procs[o].pc)
    ensures Run(s, acts).calls == s.calls
    decreases |acts|
  {
    hide Paused, Next, PastPause;
    if acts != [] {
      NextPauses(s, acts[0]);
      PauseHolds(Next(s, acts[0]), acts[1..]);
    }
  }
}
