/**
 Control intent over every run: leases, targets, outcomes and the pause state.
 */
module BridgeControl {
  import opened Wrappers
  import opened BridgeLedger
  import opened BridgeContext
  import opened BridgeInvariant
  import opened BridgeMachine
  import opened BridgeSafety
  import opened BridgeRuns
  import opened BridgeTheorems
  import Claims
  import CatchUp

  /** The intent accepted so far: positions and kinds, whatever became of them. */
  function Intent(db: Ledger): map<nat, Kind> {
    map c | c in db.controls :: db.controls[c].kind
  }

  /** The pause state depends only on the accepted intent: not on handling order, leases, targets or outcomes. */
  lemma PauseFollowsIntent(db: Ledger, db': Ledger)
    requires Intent(db) == Intent(db')
    ensures Paused(db) == Paused(db')
  {
    hide Intent;
    if Paused(db) { PauseImplied(db, db'); }
    if Paused(db') { PauseImplied(db', db); }
  }

  lemma PauseImplied(db: Ledger, db': Ledger)
    requires Intent(db) == Intent(db') && Paused(db)
    ensures Paused(db')
  {
    var c :| c in db.controls && db.controls[c].kind.Pause? && forall d :: d in db.controls && d > c ==> !db.controls[d].kind.Resume?;
    assert c in Intent(db) && c in Intent(db');
    forall d | d in db'.controls && d > c ensures !db'.controls[d].kind.Resume? {
      assert d in Intent(db') && d in Intent(db);
    }
  }

  /** Reachable ledgers over the same log that accepted the same positions agree on being paused. */
  lemma PauseFollowsPositions(db: Ledger, db': Ledger)
    requires LedgerOk(db) && LedgerOk(db') && db.log == db'.log && db.controls.Keys == db'.controls.Keys
    ensures Paused(db) == Paused(db')
  {
    hide LedgerOk, Paused, ControlFor, Intent;
    forall c | c in db.controls.Keys ensures c in db'.controls && db.controls[c].kind == db'.controls[c].kind {
      assert c in db'.controls.Keys;
      ControlAt(db, c);
      ControlAt(db', c);
    }
    IntentOf(db, db');
    PauseFollowsIntent(db, db');
  }

  lemma IntentOf(db: Ledger, db': Ledger)
    requires db.controls.Keys == db'.controls.Keys
    requires forall c :: c in db.controls.Keys ==> c in db'.controls && db.controls[c].kind == db'.controls[c].kind
    ensures Intent(db) == Intent(db')
  {
    assert Intent(db).Keys == db.controls.Keys && Intent(db').Keys == db'.controls.Keys;
  }

  /** Over every run: an accepted control keeps its target once chosen and its outcome once written, and there is exactly one
      evidence row when there is an outcome, none before. */
  lemma ControlOnce(s0: State, before: seq<Action>, after: seq<Action>, c: nat)
    requires Initial(s0) && c in Run(s0, before).db.controls
    ensures var row := Run(s0, before).db.controls[c]; var db := Run(Run(s0, before), after).db;
            c in db.controls
            && (row.target.Some? ==> db.controls[c].target == row.target)
            && (row.outcome.Some? ==> db.controls[c].outcome == row.outcome)
            && multiset(db.evidence)[Note(ControlApplied(c), None)] == if db.controls[c].outcome.Some? then 1 else 0
  {
    hide Initial, Inv;
    var s := Run(s0, before);
    Reachable(s0, before);
    RunInv(s, after);
    InvParts(Run(s, after));
    hide Run, SessionsOk, ProcsOk, MarksOk, CallsOk, CallbacksOk;
    EvidenceAt(Run(s, after).db, c);
    assert ControlGrows(s.db.controls[c], Run(s, after).db.controls[c]);
  }

  lemma EvidenceAt(db: Ledger, c: nat)
    requires LedgerOk(db)
    ensures multiset(db.evidence)[Note(ControlApplied(c), None)] == if c in db.controls && db.controls[c].outcome.Some? then 1 else 0
  {
    assert EvidenceOk(db);
  }

  // ---------------------------------------------------------------- who writes an outcome

  predicate Decided(db: Ledger, c: nat) {
    c in db.controls && db.controls[c].outcome.Some?
  }

  lemma StartControls(db: Ledger, pc: Pc, input: Input, ok: bool, claim: nat)
    ensures var m := StartStep(db, pc, input, ok, claim); !m.Stays? ==> m.db.controls == db.controls
  {
    hide Paused, RetryBlocked, Taint, RefusalOf, FailedBefore, IsControl, LastOpen;
    PromoteControls(db, |db.deliveries|);
    assert PromoteUnresolved(db) == PromoteFirst(db, |db.deliveries|);
    hide PromoteFirst, PromoteUnresolved;
  }

  lemma {:induction false} PromoteControls(db: Ledger, n: nat)
    requires n <= |db.deliveries|
    ensures PromoteFirst(db, n).controls == db.controls
    decreases n
  {
    if n > 0 { PromoteControls(db, n - 1); }
  }

  lemma GateControls(db: Ledger, pc: Pc, input: Input, ok: bool)
    ensures var m := GateStep(db, pc, input, ok); !m.Stays? ==> m.db.controls == db.controls
  {
    hide Paused, MustTake, CancelApplies, LastOpen;
  }

  lemma SessionControls(db: Ledger, pc: Pc, input: Input, ok: bool, b: CatchUp.Budget)
    ensures var m := SessionStep(db, pc, input, ok, b); !m.Stays? ==> m.db.controls == db.controls
  {
    hide TurnFor, NativeDelta, LocalDelta, LastOpen;
  }

  lemma InvokeControls(db: Ledger, pc: Pc, input: Input, ok: bool)
    ensures var m := InvokeStep(db, pc, input, ok); !m.Stays? ==> m.db.controls == db.controls
  {
    hide Taint, LastOpen;
  }

  lemma SettleControls(db: Ledger, pc: Pc, input: Input, ok: bool, now: real)
    ensures var m := SettleStep(db, pc, input, ok, now); !m.Stays? ==> m.db.controls == db.controls
  {
    hide CommitNative, AppendResponse;
    AppendControls(db, pc, input);
  }

  lemma AppendControls(db: Ledger, pc: Pc, input: Input)
    ensures pc.Responding? && input.Json? && AppendResponse(db, pc.did, pc.payload, input.json, input.tokens).Ok? ==>
              AppendResponse(db, pc.did, pc.payload, input.json, input.tokens).value.0.controls == db.controls
  {
  }

  lemma MoveControls(db: Ledger, pc: Pc, input: Input, ok: bool, claim: nat, now: real, b: CatchUp.Budget)
    ensures var m := MoveOf(db, pc, input, ok, claim, now, b); !m.Stays? ==> m.db.controls == db.controls
  {
    hide StartStep, GateStep, SessionStep, InvokeStep, SettleStep;
    StartControls(db, pc, input, ok, claim);
    GateControls(db, pc, input, ok);
    SessionControls(db, pc, input, ok, b);
    InvokeControls(db, pc, input, ok);
    SettleControls(db, pc, input, ok, now);
  }

  /** The action takes in the control Record at `c`: a handler of its own, a sweep or a scan that comes to it, or a gate that finds it stranded. */
  predicate TakesIn(s: State, a: Action, c: nat) {
    || (a.Accept? && a.position == c)
    || (a.Step? && a.owner in s.procs && StepTakesIn(s.procs[a.owner].pc, a.input, c))
  }

  predicate StepTakesIn(pc: Pc, input: Input, c: nat) {
    ((pc.Sweeping? || pc.Scan?) && input.Take? && pc.cursor + 1 == c) || (pc.Gate? && input.Stranded? && input.position == c)
  }

  /** Control intent for the peer that has no runtime effect. */
  predicate Effectless(db: Ledger, c: nat) {
    ControlFor(db, c) && EffectOf(At(db, c).kind).NoEffect?
  }

  /** An outcome appears only where the intake of the control decides one without an effect, or where the current holder of the control's
      unexpired lease completes it (and, inside a cycle, still has the claim). */
  ghost predicate RightfulWriter(s: State, a: Action, c: nat) {
    || (TakesIn(s, a, c) && Effectless(s.db, c))
    || (a.Complete? && a.id in s.handlers && s.handlers[a.id].position == c
        && HoldsLease(s.db, c, a.id, s.handlers[a.id].attempts, s.kernel.now)
        && (s.handlers[a.id].token.Some? ==> TokenPasses(s, s.handlers[a.id].token.value)))
  }

  lemma AcceptWrites(db: Ledger, position: nat, lease: Lease, now: real, claim: Option<Claims.Row>, workspace: string, c: nat)
    requires !Decided(db, c) && AcceptControl(db, position, lease, now, claim, workspace).Ok?
    ensures Decided(AcceptControl(db, position, lease, now, claim, workspace).value.0, c)
            ==> c == position && Effectless(db, c)
  {
    hide Taint, ControlTarget, NoEffectOutcome;
  }

  lemma IntakeWrites(s: State, position: nat, lease: nat, token: Option<Claims.Token>, c: nat)
    requires !Decided(s.db, c)
    ensures Decided(Intake(s, position, lease, token).db, c) ==> c == position && Effectless(s.db, c)
  {
    hide AcceptControl, Decided, Effectless;
    var l, claim := Lease(lease, s.kernel.now + s.lease), Claims.RowOf(s.kernel, s.scope);
    if AcceptControl(s.db, position, l, s.kernel.now, claim, s.kernel.workspace).Ok? {
      AcceptWrites(s.db, position, l, s.kernel.now, claim, s.kernel.workspace, c);
    }
  }

  lemma StepWrites(s: State, owner: string, input: Input, c: nat)
    requires owner in s.procs && !Decided(s.db, c)
    ensures Decided(StepProc(s, owner, input).db, c) ==> StepTakesIn(s.procs[owner].pc, input, c) && Effectless(s.db, c)
  {
    hide MoveProc, MustTake, Intake, Effectless;
    var p := s.procs[owner];
    if input.Take? && (p.pc.Sweeping? || p.pc.Scan?) { IntakeWrites(s, p.pc.cursor + 1, input.lease, Some(p.token), c); }
    if input.Stranded? { IntakeWrites(s, input.position, input.lease, Some(p.token), c); }
    ProcWrites(s, owner, input);
  }

  lemma ProcWrites(s: State, owner: string, input: Input)
    requires owner in s.procs
    ensures MoveProc(s, owner, input).db.controls == s.db.controls
  {
    hide MoveOf, Unproven, Ended;
    var p := s.procs[owner];
    MoveControls(s.db, p.pc, input, TokenPasses(s, p.token), p.token.generation, s.kernel.now, s.budget);
  }

  lemma HandlerWrites(s: State, a: Action, c: nat)
    requires !Decided(s.db, c)
    ensures Decided(StepHandler(s, a).db, c) ==> RightfulWriter(s, a, c)
  {
    hide FenceControl, Intake, Effectless;
    if a.Accept? { IntakeWrites(s, a.position, a.id, None, c); }
  }

  /** Not a step of a cycle, nor of a handler. */
  predicate IsOther(a: Action) {
    a.Kernel? || a.Append? || a.Close? || a.Authorize? || a.Begin? || a.Crash? || a.Callback? || a.Follow? || a.Lapse?
  }

  lemma FinalControls(db: Ledger, did: nat, value: string, vendor: Option<string>, p: Option<Provenance>, now: real)
    ensures FinalizeTerminal(db, did, value, vendor, p, now).Ok? ==>
              FinalizeTerminal(db, did, value, vendor, p, now).value.0.controls == db.controls
  {
    hide CommitNative;
  }

  lemma CalledWrites(s: State, id: nat, token: Claims.Token, did: nat, value: string, vendor: Option<string>)
    ensures Called(s, id, token, did, value, vendor).db.controls == s.db.controls
  {
    CalledIs(s, id, token, did, value, vendor);
    FinalControls(s.db, did, value, vendor, None, s.kernel.now);
    hide Called, FinalizeTerminal, Unproven, Ended, TokenPasses;
  }

  lemma FollowedWrites(s: State, id: nat, input: Input)
    requires id in s.callbacks
    ensures Followed(s, id, input).db.controls == s.db.controls
  {
    hide MoveOf;
    var p := s.callbacks[id];
    MoveControls(s.db, p.pc, input, TokenPasses(s, p.token), p.token.generation, s.kernel.now, s.budget);
  }

  lemma OtherWrites(s: State, a: Action, c: nat)
    requires !Decided(s.db, c) && IsOther(a)
    ensures !Decided(Next(s, a).db, c)
  {
    hide StepHandler, StepProc, Called, Followed;
    if a.Callback? { CalledWrites(s, a.id, a.token, a.did, a.value, a.vendor); }
    if a.Follow? && a.id in s.callbacks { FollowedWrites(s, a.id, a.input); }
  }

  lemma OutcomeWriter(s: State, a: Action, c: nat)
    requires !Decided(s.db, c) && Decided(Next(s, a).db, c)
    ensures RightfulWriter(s, a, c)
  {
    if a.Step? {
      hide StepHandler, StepProc, Decided;
      if a.owner in s.procs { StepWrites(s, a.owner, a.input, c); }
    } else if IsOther(a) {
      hide Next;
      OtherWrites(s, a, c);
    } else {
      hide StepProc, StepHandler, Decided, RightfulWriter;
      HandlerWrites(s, a, c);
    }
  }

  /** The outcome of a control that has an effect is written by at most one handler: when it was written, the writer held the
      current unexpired lease; after that no handler of any later run writes it. */
  lemma {:induction false} OneOutcomeWriter(s: State, acts: seq<Action>, c: nat)
    requires Inv(s) && !Decided(s.db, c) && Decided(Run(s, acts).db, c)
    ensures exists i :: 0 <= i < |acts| && WritesAt(s, acts, i, c)
    decreases |acts|
  {
    hide Inv, Next, Decided;
    var s1 := Next(s, acts[0]);
    NextInv(s, acts[0]);
    if Decided(s1.db, c) {
      OutcomeWriter(s, acts[0], c);
      RunInv(s1, acts[1..]);
      FirstWrites(s, acts, c);
    } else {
      OneOutcomeWriter(s1, acts[1..], c);
      var i :| 0 <= i < |acts[1..]| && WritesAt(s1, acts[1..], i, c);
      LaterWrites(s, acts, i, c);
    }
  }

  /** The i-th action decides `c`, by right, and the outcome it writes is the final one. */
  ghost predicate WritesAt(s: State, acts: seq<Action>, i: nat, c: nat)
    requires i < |acts|
  {
    var before := Run(s, acts[..i]);
    !Decided(before.db, c) && RightfulWriter(before, acts[i], c)
    && Decided(Next(before, acts[i]).db, c) && Decided(Run(s, acts).db, c)
    && Run(s, acts).db.controls[c].outcome == Next(before, acts[i]).db.controls[c].outcome
  }

  lemma FirstWrites(s: State, acts: seq<Action>, c: nat)
    requires acts != [] && !Decided(s.db, c) && RightfulWriter(s, acts[0], c) && Decided(Next(s, acts[0]).db, c)
    requires Grows(Next(s, acts[0]).db, Run(Next(s, acts[0]), acts[1..]).db)
    ensures WritesAt(s, acts, 0, c)
  {
    hide Next, RightfulWriter;
    assert acts[..0] == [];
    var db, db' := Next(s, acts[0]).db, Run(s, acts).db;
    assert ControlGrows(db.controls[c], db'.controls[c]);
  }

  lemma LaterWrites(s: State, acts: seq<Action>, i: nat, c: nat)
    requires acts != [] && i < |acts[1..]| && WritesAt(Next(s, acts[0]), acts[1..], i, c)
    ensures WritesAt(s, acts, i + 1, c)
  {
    assert acts[..i + 1][1..] == acts[1..][..i];
    hide Next, RightfulWriter, Decided;
  }

  lemma {:induction false} RunConcat(s: State, a: seq<Action>, b: seq<Action>)
    ensures Run(s, a + b) == Run(Run(s, a), b)
    decreases |a|
  {
    hide Next;
    if a == [] {
      assert a + b == b;
    } else {
      assert (a + b)[1..] == a[1..] + b;
      RunConcat(Next(s, a[0]), a[1..], b);
    }
  }

  lemma {:induction false} DecidedStays(s: State, acts: seq<Action>, c: nat)
    requires Inv(s) && Decided(s.db, c)
    ensures Decided(Run(s, acts).db, c)
  {
    hide Inv, Run;
    RunInv(s, acts);
    var db' := Run(s, acts).db;
    assert c in db'.controls && ControlGrows(s.db.controls[c], db'.controls[c]);
  }

  /** No two actions of a run write the outcome of the same control. */
  lemma AtMostOneWrite(s: State, acts: seq<Action>, i: nat, j: nat, c: nat)
    requires Inv(s) && i < j < |acts| && WritesAt(s, acts, i, c)
    ensures !WritesAt(s, acts, j, c)
  {
    hide Inv, Next, Decided, RightfulWriter;
    var mid := Next(Run(s, acts[..i]), acts[i]);
    RunInv(s, acts[..i]);
    NextInv(Run(s, acts[..i]), acts[i]);
    DecidedStays(mid, acts[i + 1..j], c);
    assert acts[..j] == acts[..i] + ([acts[i]] + acts[i + 1..j]);
    RunConcat(s, acts[..i], [acts[i]] + acts[i + 1..j]);
    assert ([acts[i]] + acts[i + 1..j])[1..] == acts[i + 1..j];
  }

  // ---------------------------------------------------------------- who runs an effect

  /** A runtime effect is started only by the holder of the current unexpired lease, with a current token if it carries one, on the
      attempt chosen at intake, while that attempt may still be running under the claim it was started under. */
  lemma EffectIsFenced(s: State, a: Action, id: nat)
    requires id in Next(s, a).handlers && Next(s, a).handlers[id].phase.Acting?
    requires !(id in s.handlers && s.handlers[id].phase.Acting?)
    ensures a.Fence? && a.id == id && id in s.handlers
    ensures var h := s.handlers[id];
            && HoldsLease(s.db, h.position, id, h.attempts, s.kernel.now)
            && (h.token.Some? ==> TokenPasses(s, h.token.value))
            && s.db.controls[h.position].target.Some? && s.db.controls[h.position].target.value.Running?
            && var t := s.db.controls[h.position].target.value;
               && t.delivery < |s.db.deliveries| && !s.db.deliveries[t.delivery].acked
               && (s.db.deliveries[t.delivery].certainty.MayHaveStarted? || s.db.deliveries[t.delivery].certainty.Started?)
               && Claims.RowOf(s.kernel, s.scope).Some? && Claims.RowOf(s.kernel, s.scope).value.generation == t.claim
  {
    if a.Step? {
      hide StepHandler, StepProc;
      if a.owner in s.procs { StepStartsFencing(s, a.owner, a.input, id); }
    } else if a.Accept? {
      hide StepProc;
      IntakeStartsFencing(s, a.position, a.id, None, id);
      hide Intake;
    } else if a.Fence? {
      hide StepProc;
      FenceStarts(s, a.id, a.supported, id);
      hide StepHandler;
    } else if IsOther(a) {
      hide StepProc, StepHandler, Called, Followed, RegisterRetry, AppendRecord;
      if a.Callback? { CalledFrame(s, a.id, a.token, a.did, a.value, a.vendor); }
      if a.Follow? && a.id in s.callbacks { FollowedFrame(s, a.id, a.input); }
    } else {
      hide StepProc, Intake, CompleteControl;
    }
  }

  /** The fence lets an effect start only under all its conditions. */
  lemma FenceStarts(s: State, handler: nat, supported: bool, id: nat)
    requires var s' := StepHandler(s, Fence(handler, supported));
             id in s'.handlers && s'.handlers[id].phase.Acting? && !(id in s.handlers && s.handlers[id].phase.Acting?)
    ensures handler == id && id in s.handlers
    ensures var h := s.handlers[id];
            && HoldsLease(s.db, h.position, id, h.attempts, s.kernel.now)
            && (h.token.Some? ==> TokenPasses(s, h.token.value))
            && s.db.controls[h.position].target.Some? && s.db.controls[h.position].target.value.Running?
            && var t := s.db.controls[h.position].target.value;
               && t.delivery < |s.db.deliveries| && !s.db.deliveries[t.delivery].acked
               && (s.db.deliveries[t.delivery].certainty.MayHaveStarted? || s.db.deliveries[t.delivery].certainty.Started?)
               && Claims.RowOf(s.kernel, s.scope).Some? && Claims.RowOf(s.kernel, s.scope).value.generation == t.claim
  {
    hide TokenPasses;
  }

  lemma IntakeStartsFencing(s: State, position: nat, lease: nat, token: Option<Claims.Token>, id: nat)
    ensures id in Intake(s, position, lease, token).handlers && Intake(s, position, lease, token).handlers[id].phase.Acting?
            ==> id in s.handlers && s.handlers[id].phase.Acting?
  {
    hide AcceptControl;
  }

  lemma StepStartsFencing(s: State, owner: string, input: Input, id: nat)
    requires owner in s.procs
    ensures id in StepProc(s, owner, input).handlers && StepProc(s, owner, input).handlers[id].phase.Acting?
            ==> id in s.handlers && s.handlers[id].phase.Acting?
  {
    hide MoveProc, MustTake, Intake;
    var p := s.procs[owner];
    if input.Take? && (p.pc.Sweeping? || p.pc.Scan?) { IntakeStartsFencing(s, p.pc.cursor + 1, input.lease, Some(p.token), id); }
    if input.Stranded? { IntakeStartsFencing(s, input.position, input.lease, Some(p.token), id); }
    MoveHandlers(s, owner, input);
  }

  lemma MoveHandlers(s: State, owner: string, input: Input)
    requires owner in s.procs
    ensures MoveProc(s, owner, input).handlers == s.handlers
  {
    hide MoveOf, Unproven, Ended;
  }
}
