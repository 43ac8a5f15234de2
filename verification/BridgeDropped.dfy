/**
 A delivery acknowledged without its response: over every later run no cycle comes back to it, and only the callback that holds its result
 can still answer.
 */
module BridgeDropped {
  import opened Wrappers
  import opened BridgeLedger
  import opened BridgeContext
  import opened BridgeInvariant
  import opened BridgeMachine
  import opened BridgeSafety
  import opened BridgeRuns
  import opened BridgeResponses
  import opened BridgeContinuity
  import Claims
  import CatchUp

  /** The delivery a cycle is at. */
  function About(pc: Pc): Option<nat> {
    match pc
    case Gate(site) => SiteDid(site)
    case Sweeping(_, site) => SiteDid(site)
    case Swept(site) => SiteDid(site)
    case Unpaused(site) => SiteDid(site)
    case Admitted(did) => Some(did)
    case Creating(did) => Some(did)
    case Resolved(did, _) => Some(did)
    case Passed(t) => Some(t.did)
    case Halting(t, _, _) => Some(t.did)
    case Cleared(t, _) => Some(t.did)
    case Armed(t, _) => Some(t.did)
    case Live(t, _, _) => Some(t.did)
    case Naming(t, _, _) => Some(t.did)
    case Finalizing(t, _, _) => Some(t.did)
    case Noting(t, _) => Some(t.did)
    case Settling(did, _) => Some(did)
    case Losing(did) => Some(did)
    case Materializing(did) => Some(did)
    case Responding(did, _) => Some(did)
    case Binding(did, _) => Some(did)
    case Advancing(_, _, ThenAck(did)) => Some(did)
    case Acking(did) => Some(did)
    case Cancelling(did) => Some(did)
    case CancelAcking(did) => Some(did)
    case _ => None
  }

  /** Terminal, acknowledged, and no cycle with the claim is at it. */
  ghost predicate LeftAlone(s: State, did: nat) {
    && did < |s.db.deliveries| && s.db.deliveries[did].certainty.Terminal? && s.db.deliveries[did].acked
    && forall o :: o in s.procs && Holds(s.kernel, s.procs[o].token) ==> About(s.procs[o].pc) != Some(did)
  }

  // ---------------------------------------------------------------- no cycle comes to it

  /** A cycle's next delivery is the one it was at, or one it has just picked: never a terminal one that is acknowledged. */
  predicate MovesOn(db: Ledger, pc: Pc, m: Move) {
    m.Goes? && About(m.pc).Some? && About(m.pc) != About(pc) ==>
      var did := About(m.pc).value;
      did >= |db.deliveries| || !db.deliveries[did].certainty.Terminal? || !db.deliveries[did].acked
  }

  lemma StartAbout(db: Ledger, pc: Pc, input: Input, ok: bool, claim: nat)
    ensures MovesOn(db, pc, StartStep(db, pc, input, ok, claim))
  {
    hide PromoteUnresolved, Paused, RetryBlocked, LastAttempt, IsControl, RejectSelector, Taint, RefusalOf, FailedBefore, Addressed, Insert;
  }

  lemma GateAbout(db: Ledger, pc: Pc, input: Input, ok: bool)
    ensures MovesOn(db, pc, GateStep(db, pc, input, ok))
  {
    hide Paused, RejectSelector, CancelApplies, MustTake;
  }

  lemma SessionAbout(db: Ledger, pc: Pc, input: Input, ok: bool, b: CatchUp.Budget)
    ensures MovesOn(db, pc, SessionStep(db, pc, input, ok, b))
  {
    hide TurnFor, RejectSelector, Resumable, CreateSession, ResumeSession, Tombstone, LoseSession;
    if pc.Resolved? && pc.did < |db.deliveries| && pc.session < |db.sessions| && TurnFor(db, pc.did, pc.session, b).Some? {
      TurnDid(db, pc.did, pc.session, b);
    }
  }

  lemma TurnDid(db: Ledger, did: nat, g: nat, b: CatchUp.Budget)
    requires did < |db.deliveries| && g < |db.sessions| && TurnFor(db, did, g, b).Some?
    ensures TurnFor(db, did, g, b).value.did == did
  {
    hide NativeDelta, BootstrapOf, LocalDelta, UnseenRedirects, Positions, LocalSeen, OwnAnswers, Ran, LastRun;
  }

  lemma InvokeAbout(db: Ledger, pc: Pc, input: Input, ok: bool)
    ensures MovesOn(db, pc, InvokeStep(db, pc, input, ok))
  {
    hide MarkInvocation, ResolveInvocation, Transition, BindExecution, Taint, LoseSession;
  }

  lemma SettleAbout(db: Ledger, pc: Pc, input: Input, ok: bool, now: real)
    ensures MovesOn(db, pc, SettleStep(db, pc, input, ok, now)) && MovesOn(db, pc, OffsetStep(db, pc, input, ok))
  {
    hide FinalizeTerminal, AppendResponse, BindResponse, NoteCancelled, LoseSession, SettleRefusal, AckCancelled, Ack, AdvanceOffset;
  }

  lemma MovesAbout(db: Ledger, pc: Pc, input: Input, ok: bool, claim: nat, now: real, b: CatchUp.Budget)
    ensures MovesOn(db, pc, MoveOf(db, pc, input, ok, claim, now, b))
  {
    hide StartStep, GateStep, SessionStep, InvokeStep, SettleStep, OffsetStep, MovesOn;
    StartAbout(db, pc, input, ok, claim);
    GateAbout(db, pc, input, ok);
    SessionAbout(db, pc, input, ok, b);
    InvokeAbout(db, pc, input, ok);
    SettleAbout(db, pc, input, ok, now);
    var m := MoveOf(db, pc, input, ok, claim, now, b);
    if !m.Goes? { NoMove(db, pc, m); }
  }

  lemma NoMove(db: Ledger, pc: Pc, m: Move)
    requires !m.Goes?
    ensures MovesOn(db, pc, m)
  {
  }

  /** Whoever holds the claim after a step either held it before, where it is now or still on its way, or has just started. */
  ghost predicate KeepsAway(s: State, s': State, did: nat) {
    forall o :: o in s'.procs && Holds(s'.kernel, s'.procs[o].token) && About(s'.procs[o].pc) == Some(did) ==>
      o in s.procs && Holds(s.kernel, s.procs[o].token) && About(s.procs[o].pc) == Some(did)
  }

  lemma MovedAway(s: State, owner: string, input: Input, did: nat)
    requires owner in s.procs && did < |s.db.deliveries| && s.db.deliveries[did].certainty.Terminal? && s.db.deliveries[did].acked
    ensures KeepsAway(s, MoveProc(s, owner, input), did)
  {
    var p, m := s.procs[owner], CycleMove(s, owner, input);
    MovedIs(s, owner, input);
    MovesAbout(s.db, p.pc, input, TokenPasses(s, p.token), p.token.generation, s.kernel.now, s.budget);
    if !m.Stays? { LeftParts(s, owner, m); }
    hide MoveOf, MoveProc, Left, Ended, Holds, TokenPasses;
  }

  lemma TakenAway(s: State, owner: string, lease: nat, did: nat)
    requires owner in s.procs && (s.procs[owner].pc.Sweeping? || s.procs[owner].pc.Scan?)
    ensures KeepsAway(s, TakeIn(s, owner, lease), did)
  {
    var pc := s.procs[owner].pc;
    TakenIn(s, owner, lease);
    assert pc.Sweeping? ==> About(Sweeping(pc.cursor + 1, pc.site)) == About(pc);
    assert About(Advancing(pc.cursor + 1, None, ThenScan)) == None;
    hide *;
    AtAway(s, TakeIn(s, owner, lease), owner,
           if pc.Sweeping? then Sweeping(pc.cursor + 1, pc.site) else Advancing(pc.cursor + 1, None, ThenScan), did);
  }

  lemma TakenIn(s: State, owner: string, lease: nat)
    requires owner in s.procs && (s.procs[owner].pc.Sweeping? || s.procs[owner].pc.Scan?)
    ensures var pc := s.procs[owner].pc;
            SetAt(s, TakeIn(s, owner, lease), owner,
                  if pc.Sweeping? then Sweeping(pc.cursor + 1, pc.site) else Advancing(pc.cursor + 1, None, ThenScan))
  {
    IntakeIs(s, s.procs[owner].pc.cursor + 1, lease, Some(s.procs[owner].token));
    hide Intake;
  }

  ghost predicate SetAt(s: State, s': State, owner: string, pc: Pc)
    requires owner in s.procs
  {
    s'.kernel == s.kernel && s'.procs == s.procs[owner := s.procs[owner].(pc := pc)]
  }

  lemma AtAway(s: State, s': State, owner: string, pc: Pc, did: nat)
    requires owner in s.procs && SetAt(s, s', owner, pc) && (About(pc) == None || About(pc) == About(s.procs[owner].pc))
    ensures KeepsAway(s, s', did)
  {
    hide Holds, About;
  }

  lemma IntakeAway(s: State, position: nat, lease: nat, token: Option<Claims.Token>, did: nat)
    ensures KeepsAway(s, Intake(s, position, lease, token), did)
  {
    IntakeIs(s, position, lease, token);
    hide Intake, Holds;
  }

  lemma BeatAway(s: State, owner: string, did: nat)
    requires owner in s.procs
    ensures KeepsAway(s, Heartbeat(s, owner), did)
  {
  }

  lemma CallAway(s: State, owner: string, did: nat)
    requires owner in s.procs && s.procs[owner].pc.Armed?
    ensures KeepsAway(s, Call(s, owner), did)
  {
    hide Holds;
  }

  lemma StepAway(s: State, owner: string, input: Input, did: nat)
    requires owner in s.procs && did < |s.db.deliveries| && s.db.deliveries[did].certainty.Terminal? && s.db.deliveries[did].acked
    ensures KeepsAway(s, StepProc(s, owner, input), did)
  {
    hide KeepsAway, MoveProc, TakeIn, Intake, Call, Heartbeat, MustTake;
    var p := s.procs[owner];
    if (p.pc.Sweeping? || p.pc.Scan?) && input.Take? && input.lease !in s.handlers && MustTake(s.db, p.pc.cursor) {
      TakenAway(s, owner, input.lease, did);
    } else if p.pc.Gate? && input.Stranded? && input.position in s.db.controls {
      IntakeAway(s, input.position, input.lease, Some(p.token), did);
    } else if p.pc.Armed? && input.Go? {
      CallAway(s, owner, did);
    } else if p.pc.Live? && input.Beat? {
      BeatAway(s, owner, did);
    } else {
      MovedAway(s, owner, input, did);
    }
  }

  /** A token that did not hold the claim does not come to hold it. */
  lemma ClaimAway(s: State, s': State, did: nat)
    requires ProcsOk(s) && RowMovesOn(s.kernel, s'.kernel, s.scope)
    requires forall o :: o in s'.procs ==> s'.procs[o].pc.Idle? || (o in s.procs && s'.procs[o] == s.procs[o])
    ensures KeepsAway(s, s', did)
  {
    forall o | o in s'.procs && Holds(s'.kernel, s'.procs[o].token) && About(s'.procs[o].pc) == Some(did)
      ensures o in s.procs && Holds(s.kernel, s.procs[o].token) && About(s.procs[o].pc) == Some(did)
    {
      assert ProcOk(s, o);
      HoldsBefore(s.kernel, s'.kernel, s.procs[o].token);
      hide View;
    }
  }

  lemma SameRow(k: Claims.State, scope: Claims.Scope)
    ensures RowMovesOn(k, k, scope)
  {
  }

  lemma OtherAway(s: State, a: Action, did: nat)
    requires Inv(s) && !a.Step?
    ensures KeepsAway(s, Next(s, a), did)
  {
    assert ProcsOk(s) by { InvParts(s); }
    OtherKernel(s, a);
    if a.Callback? { CalledFrame(s, a.id, a.token, a.did, a.value, a.vendor); } else { OtherFrame(s, a); }
    hide Inv, ProcsOk, KeepsAway, RowMovesOn, Called;
    if a.Callback? { assert Next(s, a) == Called(s, a.id, a.token, a.did, a.value, a.vendor); }
    hide Next;
    ClaimAway(s, Next(s, a), did);
  }

  lemma OtherKernel(s: State, a: Action)
    requires !a.Step?
    ensures RowMovesOn(s.kernel, Next(s, a).kernel, s.scope)
  {
    SameRow(s.kernel, s.scope);
    hide Called, Followed, StepHandler, RowMovesOn, Claims.Acquire, Claims.Next, RegisterRetry, AppendRecord;
    match a
    case Kernel(act) => if !act.Restore? { KernelMovesOn(s.kernel, act, s.scope); }
    case Begin(owner, lease, workspace) =>
      if Next(s, a) != s { AcquireMovesOn(s.kernel, s.scope, owner, lease, workspace); }
    case Callback(id, token, did, value, vendor) => CalledFrame(s, id, token, did, value, vendor);
    case Follow(id, input) => if id in s.callbacks { FollowedFrame(s, id, input); }
    case _ => HandlerFrame(s, a);
  }

  lemma NextAway(s: State, a: Action, did: nat)
    requires Inv(s) && did < |s.db.deliveries| && s.db.deliveries[did].certainty.Terminal? && s.db.deliveries[did].acked
    ensures KeepsAway(s, Next(s, a), did)
  {
    hide Inv, KeepsAway, StepProc, Holds;
    if a.Step? {
      if a.owner in s.procs { StepAway(s, a.owner, a.input, did); } else { SameAway(s, did); }
    } else {
      hide Next;
      OtherAway(s, a, did);
    }
  }

  lemma SameAway(s: State, did: nat)
    ensures KeepsAway(s, s, did)
  {
    hide Holds, About;
  }

  // ---------------------------------------------------------------- only its callback answers

  /** A callback under a current token binds the response of the delivery. */
  predicate BindsLate(s: State, a: Action, did: nat) {
    a.Follow? && a.input.Go? && a.id in s.callbacks && TokenPasses(s, s.callbacks[a.id].token)
    && s.callbacks[a.id].pc.Binding? && s.callbacks[a.id].pc.did == did
  }

  ghost predicate NeverBound(s: State, acts: seq<Action>, did: nat)
    decreases |acts|
  {
    acts != [] ==> !BindsLate(s, acts[0], did) && NeverBound(Next(s, acts[0]), acts[1..], did)
  }

  /** A delivery left alone stays so, and gets its response exactly from a callback that binds it. */
  lemma NextLeft(s: State, a: Action, did: nat)
    requires Inv(s) && LeftAlone(s, did)
    ensures LeftAlone(Next(s, a), did)
    ensures s.db.deliveries[did].response.None? ==> (Next(s, a).db.deliveries[did].response.None? <==> !BindsLate(s, a, did))
  {
    hide *;
    NextAlone(s, a, did);
    LeftInRange(s, did);
    LeftInRange(Next(s, a), did);
    if s.db.deliveries[did].response.None? { LeftResponse(s, a, did); }
  }

  lemma LeftInRange(s: State, did: nat)
    requires LeftAlone(s, did)
    ensures did < |s.db.deliveries|
  {
  }

  lemma StillDone(db: Ledger, db': Ledger, did: nat)
    requires Grows(db, db') && did < |db.deliveries| && db.deliveries[did].certainty.Terminal? && db.deliveries[did].acked
    ensures did < |db'.deliveries| && db'.deliveries[did].certainty.Terminal? && db'.deliveries[did].acked
  {
    assert AttemptGrows(db.deliveries[did], db'.deliveries[did]);
  }

  lemma LeftResponse(s: State, a: Action, did: nat)
    requires Inv(s) && LeftAlone(s, did) && s.db.deliveries[did].response.None?
    ensures did < |Next(s, a).db.deliveries|
    ensures Next(s, a).db.deliveries[did].response.None? <==> !BindsLate(s, a, did)
  {
    NextRows(s, a);
    if TouchedBy(s, a) == Some(did) {
      LeftTouched(s, a, did);
    } else {
      hide Next, Inv, TokenPasses, Holds;
      assert RowMoves(s.db.deliveries[did], Next(s, a).db.deliveries[did]);
    }
  }

  lemma LeftTouched(s: State, a: Action, did: nat)
    requires Inv(s) && LeftAlone(s, did) && s.db.deliveries[did].response.None? && TouchedBy(s, a) == Some(did)
    ensures did < |Next(s, a).db.deliveries|
    ensures Next(s, a).db.deliveries[did].response.None? <==> !BindsLate(s, a, did)
  {
    hide *;
    LeftInRange(s, did);
    TouchedActs(s, a);
    NextTouches(s, a);
    if a.Step? {
      var p := s.procs[a.owner];
      LeftBehind(s, a.owner, did);
      NotBound(s, a, did);
      WritesNothing(s.db.deliveries, Next(s, a).db.deliveries, p.pc);
    } else {
      var p := s.callbacks[a.id];
      FollowerRow(s, a.id);
      BoundBy(s, a, did);
      WritesBinding(s.db.deliveries, Next(s, a).db.deliveries, p.pc, a.input.Go? && TokenPasses(s, p.token), did);
    }
  }

  /** A cycle still at the delivery has lost the claim. */
  lemma LeftBehind(s: State, owner: string, did: nat)
    requires LeftAlone(s, did) && owner in s.procs && Touched(s.procs[owner].pc) == Some(did)
    ensures !TokenPasses(s, s.procs[owner].token)
  {
    if TokenPasses(s, s.procs[owner].token) { PassesHolds(s, s.procs[owner].token); }
    hide TokenPasses, Holds;
  }

  lemma NotBound(s: State, a: Action, did: nat)
    requires a.Step?
    ensures !BindsLate(s, a, did)
  {
  }

  lemma BoundBy(s: State, a: Action, did: nat)
    requires a.Follow? && a.id in s.callbacks
    ensures var p := s.callbacks[a.id];
            BindsLate(s, a, did) <==> a.input.Go? && TokenPasses(s, p.token) && p.pc.Binding? && p.pc.did == did
  {
    hide TokenPasses;
  }

  lemma WritesNothing(ds: seq<Attempt>, ds': seq<Attempt>, pc: Pc)
    requires Touched(pc).Some? && WritesRow(ds, ds', pc, false)
    ensures ds' == ds
  {
  }

  lemma WritesBinding(ds: seq<Attempt>, ds': seq<Attempt>, pc: Pc, goes: bool, did: nat)
    requires Touched(pc) == Some(did) && did < |ds| && WritesRow(ds, ds', pc, goes) && !pc.Naming?
    ensures |ds'| == |ds|
    ensures ds[did].response.None? ==> (ds'[did].response.None? <==> !(goes && pc.Binding? && pc.did == did))
  {
  }

  /** Over every run from there: the delivery stays unanswered exactly as long as no callback binds its response. */
  lemma {:induction false} LeftUnanswered(s: State, acts: seq<Action>, did: nat)
    requires Inv(s) && LeftAlone(s, did) && s.db.deliveries[did].response.None?
    ensures LeftAlone(Run(s, acts), did)
    ensures Run(s, acts).db.deliveries[did].response.None? <==> NeverBound(s, acts, did)
    decreases |acts|
  {
    hide Inv, Next, BindsLate;
    if acts != [] {
      var s' := Next(s, acts[0]);
      NextInv(s, acts[0]);
      NextLeft(s, acts[0], did);
      hide LeftAlone;
      if s'.db.deliveries[did].response.None? { LeftUnanswered(s', acts[1..], did); } else { LeftBound(s', acts[1..], did); }
    }
  }

  lemma {:induction false} LeftBound(s: State, acts: seq<Action>, did: nat)
    requires Inv(s) && LeftAlone(s, did) && s.db.deliveries[did].response.Some?
    ensures LeftAlone(Run(s, acts), did) && Run(s, acts).db.deliveries[did].response.Some?
    decreases |acts|
  {
    hide Inv, Next;
    if acts != [] {
      NextInv(s, acts[0]);
      NextAlone(s, acts[0], did);
      ResponseStays(s.db, Next(s, acts[0]).db, did);
      hide LeftAlone;
      LeftBound(Next(s, acts[0]), acts[1..], did);
    }
  }

  lemma NextAlone(s: State, a: Action, did: nat)
    requires Inv(s) && LeftAlone(s, did)
    ensures LeftAlone(Next(s, a), did)
  {
    NextInv(s, a);
    NextAway(s, a, did);
    StillDone(s.db, Next(s, a).db, did);
    hide Inv, Next, Holds, About, Grows;
  }

  lemma ResponseStays(db: Ledger, db': Ledger, did: nat)
    requires Grows(db, db') && did < |db.deliveries| && db.deliveries[did].response.Some?
    ensures did < |db'.deliveries| && db'.deliveries[did].response.Some?
  {
    assert AttemptGrows(db.deliveries[did], db'.deliveries[did]);
  }

  /** A response dropped by the settlement of a refusal: over every later run no cycle with the claim is ever at that delivery again, and it
      stays unanswered exactly if no callback binds its response. */
  lemma DroppedForever(s: State, a: Action, acts: seq<Action>, did: nat)
    requires Inv(s) && DropsResponse(s, a, did)
    ensures var s' := Next(s, a);
            && LeftAlone(Run(s', acts), did)
            && (LacksResponse(Run(s', acts).db, did) <==> NeverBound(s', acts, did))
  {
    DroppedExactly(s, a, did);
    NextInv(s, a);
    DropLeaves(s, a, did);
    hide Inv, Next, DropsResponse;
    LeftUnanswered(Next(s, a), acts, did);
  }

  lemma DropLeaves(s: State, a: Action, did: nat)
    requires Inv(s) && DropsResponse(s, a, did) && LacksResponse(Next(s, a).db, did)
    ensures LeftAlone(Next(s, a), did)
  {
    InvParts(s);
    PassesHolds(s, s.procs[a.owner].token);
    DropStep(s, a, did);
    hide Inv, LedgerOk, SessionsOk, ProcsOk, MarksOk, CallsOk, CallbacksOk, Next, TokenPasses, Holds;
    forall o | o in s.procs && o != a.owner ensures !Holds(s.kernel, s.procs[o].token) {
      OneHolder(s, a.owner, o);
    }
  }

  lemma DropStep(s: State, a: Action, did: nat)
    requires DropsResponse(s, a, did)
    ensures var s' := Next(s, a); s'.kernel == s.kernel && s'.procs == s.procs[a.owner := s.procs[a.owner].(pc := Idle)]
  {
    hide TokenPasses;
  }
}
