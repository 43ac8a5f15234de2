/**
 Uncertain context is never resumed: once an attempt may have run with an unknown end, its command-line session is lost for good.
 */
module BridgeTaint {
  import opened Wrappers
  import opened BridgeLedger
  import opened BridgeContext
  import opened BridgeInvariant
  import opened BridgeMachine
  import opened BridgeSafety
  import opened BridgeSessions
  import opened BridgeRuns
  import opened BridgeTheorems
  import Claims
  import CatchUp

  /** Sessions are never removed, keep their runtime kind, and do not come back once lost or tombstoned. */
  predicate SessionsKeep(ss: seq<Session>, ss': seq<Session>) {
    |ss| <= |ss'| && forall g :: 0 <= g < |ss| ==> ss'[g].cli == ss[g].cli && (!Usable(ss[g]) ==> !Usable(ss'[g]))
  }

  /** An uncertain attempt's command-line session is not usable. */
  predicate TaintedAt(db: Ledger, did: nat)
    requires did < |db.deliveries|
  {
    var a := db.deliveries[did];
    a.session.Some? ==> a.session.value < |db.sessions|
                        && (a.certainty.MayHaveStarted? && db.sessions[a.session.value].cli ==> !Usable(db.sessions[a.session.value]))
  }

  ghost predicate TaintOk(db: Ledger) {
    forall did :: 0 <= did < |db.deliveries| ==> TaintedAt(db, did)
  }

  /** No attempt becomes uncertain or changes its session; new attempts have none. */
  predicate Calm(db: Ledger, db': Ledger) {
    && |db.deliveries| <= |db'.deliveries|
    && (forall i :: 0 <= i < |db.deliveries| ==>
          db'.deliveries[i].session == db.deliveries[i].session
          && (db'.deliveries[i].certainty.MayHaveStarted? ==> db.deliveries[i].certainty.MayHaveStarted?))
    && (forall i :: |db.deliveries| <= i < |db'.deliveries| ==> db'.deliveries[i].session.None?)
  }

  predicate CalmMove(db: Ledger, m: Move) {
    !m.Stays? ==> Calm(db, m.db) && SessionsKeep(db.sessions, m.db.sessions)
  }

  lemma CalmKeeps(db: Ledger, db': Ledger)
    requires TaintOk(db) && Calm(db, db') && SessionsKeep(db.sessions, db'.sessions)
    ensures TaintOk(db')
  {
    forall did | 0 <= did < |db'.deliveries| ensures TaintedAt(db', did) {
      assert did < |db.deliveries| ==> TaintedAt(db, did);
    }
  }

  lemma SameIsCalm(db: Ledger)
    ensures Calm(db, db) && SessionsKeep(db.sessions, db.sessions)
  {
  }

  lemma TamedKeeps(ss: seq<Session>, ss': seq<Session>)
    requires Tamed(ss, ss')
    ensures SessionsKeep(ss, ss')
  {
    forall g | 0 <= g < |ss| ensures ss'[g].cli == ss[g].cli && (!Usable(ss[g]) ==> !Usable(ss'[g])) {
      assert Tamer(ss[g], ss'[g]);
    }
  }

  lemma CommitKeeps(ss: seq<Session>, g: Option<nat>, position: nat, vendor: Option<string>, p: Option<Provenance>)
    ensures SessionsKeep(ss, CommitNative(ss, g, position, vendor, p))
  {
  }

  // ---------------------------------------------------------------- the writes that matter

  lemma TaintedBy(ss: seq<Session>, g: nat)
    requires g < |ss|
    ensures var ss' := Taint(ss, Some(g)); |ss'| == |ss| && (ss'[g].cli ==> !Usable(ss'[g]))
  {
  }

  lemma UncertainTaints(db: Ledger, did: nat, a: Attempt, note: Note)
    requires TaintOk(db) && did < |db.deliveries| && a.session == db.deliveries[did].session
    ensures TaintOk(Put(db, did, a, note).(sessions := Taint(db.sessions, a.session)))
  {
    var db' := Put(db, did, a, note).(sessions := Taint(db.sessions, a.session));
    TaintTamed(db.sessions, a.session);
    TamedKeeps(db.sessions, db'.sessions);
    if a.session.Some? {
      assert TaintedAt(db, did);
      TaintedBy(db.sessions, a.session.value);
    }
    hide Taint;
    forall i | 0 <= i < |db'.deliveries| ensures TaintedAt(db', i) {
      assert TaintedAt(db, i);
    }
  }

  lemma TransitionTaints(db: Ledger, did: nat, to: Certainty, event: Event)
    requires TaintOk(db)
    ensures Transition(db, did, to, event).Ok? ==> TaintOk(Transition(db, did, to, event).value)
  {
    if Transition(db, did, to, event).Ok? {
      hide Taint, TaintOk;
      var a := db.deliveries[did].(certainty := to);
      if to.MayHaveStarted? {
        UncertainTaints(db, did, a, Note(event, Some(did)));
      } else {
        SameIsCalm(db);
        CalmKeeps(db, Put(db, did, a, Note(event, Some(did))));
      }
    }
  }

  lemma {:induction false} PromoteTaints(db: Ledger, n: nat)
    requires TaintOk(db) && n <= |db.deliveries|
    ensures TaintOk(PromoteFirst(db, n))
    decreases n
  {
    hide TaintOk, Taint, LastOpen;
    if n > 0 {
      PromoteTaints(db, n - 1);
      var prev := PromoteFirst(db, n - 1);
      var a := prev.deliveries[n - 1];
      if Dangling(a) {
        UncertainTaints(prev, n - 1, a.(certainty := MayHaveStarted, markers := PromoteMarkers(a.markers)), Note(RecoveredNote, Some(n - 1)));
      }
    }
  }

  lemma BindTaints(db: Ledger, did: nat, g: nat, sessions: seq<Session>)
    requires TaintOk(db) && BindSession(db, did, g).Ok? && g < |sessions| && SessionsKeep(db.sessions, sessions)
    ensures TaintOk(BindSession(db, did, g).value.(sessions := sessions))
  {
    var db' := BindSession(db, did, g).value.(sessions := sessions);
    hide LastOpen;
    forall i | 0 <= i < |db'.deliveries| ensures TaintedAt(db', i) {
      assert TaintedAt(db, i);
    }
  }

  // ---------------------------------------------------------------- every step

  lemma StartTaints(db: Ledger, pc: Pc, input: Input, ok: bool, claim: nat)
    requires TaintOk(db)
    ensures var m := StartStep(db, pc, input, ok, claim); !m.Stays? ==> TaintOk(m.db)
  {
    hide PromoteUnresolved, Paused, BeginAttempt, RetryBlocked, IsControl, Inspect, TaintOk;
    match pc
    case Idle =>
      PromoteTaints(db, |db.deliveries|);
      PromoteIs(db);
    case Swept(AtStart) => InspectCalm(db, ok, input); if !Inspect(db, ok, input).Stays? { CalmKeeps(db, Inspect(db, ok, input).db); }
    case Chosen(position, retry) => BeginCalm(db, position, retry, claim);
    case _ =>
  }

  lemma InspectCalm(db: Ledger, ok: bool, input: Input)
    ensures CalmMove(db, Inspect(db, ok, input))
  {
    hide Paused, RetryBlocked, RejectSelector, Taint, RefusalOf, FailedBefore, Calm, SessionsKeep;
    SameIsCalm(db);
    RejectCalm(db);
    if Inflight(db).Some? {
      var ss := Taint(db.sessions, db.deliveries[Inflight(db).value].session);
      TaintTamed(db.sessions, db.deliveries[Inflight(db).value].session);
      TamedKeeps(db.sessions, ss);
      SessionsCalm(db, ss);
    }
  }

  lemma SessionsCalm(db: Ledger, ss: seq<Session>)
    ensures Calm(db, db.(sessions := ss))
  {
  }

  lemma RejectCalm(db: Ledger)
    ensures forall did: nat, code :: RejectSelector(db, did, code).Ok? ==>
              Calm(db, RejectSelector(db, did, code).value) && SessionsKeep(db.sessions, RejectSelector(db, did, code).value.sessions)
  {
    hide LastOpen;
  }

  lemma BeginCalm(db: Ledger, position: nat, retry: Option<nat>, claim: nat)
    requires TaintOk(db)
    ensures BeginAttempt(db, position, retry, claim).Ok? ==> TaintOk(BeginAttempt(db, position, retry, claim).value.0)
  {
    hide TaintOk, LastAttempt;
    if BeginAttempt(db, position, retry, claim).Ok? {
      SameIsCalm(db);
      CalmKeeps(db, BeginAttempt(db, position, retry, claim).value.0);
    }
  }

  lemma GateTaints(db: Ledger, pc: Pc, input: Input, ok: bool)
    requires TaintOk(db)
    ensures var m := GateStep(db, pc, input, ok); !m.Stays? ==> TaintOk(m.db)
  {
    hide Paused, RejectSelector, MustTake, CancelApplies, TaintOk, Calm, SessionsKeep;
    RejectCalm(db);
    if pc.Gate? && input.Refuse? && pc.site.AtBegun? && RejectSelector(db, pc.site.did, input.code).Ok? {
      CalmKeeps(db, RejectSelector(db, pc.site.did, input.code).value);
    }
  }

  lemma SessionTaints(db: Ledger, pc: Pc, input: Input, ok: bool, b: CatchUp.Budget)
    requires TaintOk(db)
    ensures var m := SessionStep(db, pc, input, ok, b); !m.Stays? ==> TaintOk(m.db)
  {
    match pc
    case Admitted(did) => AdmittedTaints(db, did, input, ok, b);
    case Creating(did) =>
      hide TaintOk, CreateSession;
      if input.Create? && CreateSession(db, did, input.cli).Ok? { CreateTaints(db, did, input.cli); }
    case _ => hide TurnFor, TaintOk;
  }

  lemma CreateTaints(db: Ledger, did: nat, cli: bool)
    requires TaintOk(db) && CreateSession(db, did, cli).Ok?
    ensures TaintOk(CreateSession(db, did, cli).value)
  {
    hide TaintOk, BindSession;
    BindKeepsSessions(db, did, |db.sessions|);
    SessionWritesTamed(db, did, 0, cli);
    TamedKeeps(db.sessions, CreateSession(db, did, cli).value.sessions);
    BindTaints(db, did, |db.sessions|, CreateSession(db, did, cli).value.sessions);
  }

  lemma AdmittedTaints(db: Ledger, did: nat, input: Input, ok: bool, b: CatchUp.Budget)
    requires TaintOk(db)
    ensures var m := SessionStep(db, Admitted(did), input, ok, b); !m.Stays? ==> TaintOk(m.db)
  {
    hide TaintOk, RejectSelector, ResumeSession, NativeDelta, LocalDelta, LoseSession, Tombstone, Tamed, Calm, SessionsKeep;
    match input
    case Refuse(code) =>
      RejectCalm(db);
      if RejectSelector(db, did, code).Ok? { CalmKeeps(db, RejectSelector(db, did, code).value); }
    case Prune(g) => WritesTaint(db, did, g);
    case ResumeFails(g, lost) => WritesTaint(db, did, g);
    case Resume(g) =>
      if g < |db.sessions| && Usable(db.sessions[g]) && ResumeSession(db, did, g).Ok? { ResumeTaints(db, did, g); }
    case _ =>
  }

  lemma WritesTaint(db: Ledger, did: nat, g: nat)
    requires TaintOk(db)
    ensures TaintOk(LoseSession(db, g)) && TaintOk(Tombstone(db, g))
  {
    hide TaintOk;
    SessionWritesTamed(db, did, g, false);
    TamedKeeps(db.sessions, LoseSession(db, g).sessions);
    TamedKeeps(db.sessions, Tombstone(db, g).sessions);
    CalmKeeps(db, LoseSession(db, g));
    CalmKeeps(db, Tombstone(db, g));
  }

  lemma ResumeTaints(db: Ledger, did: nat, g: nat)
    requires TaintOk(db) && g < |db.sessions| && Usable(db.sessions[g]) && ResumeSession(db, did, g).Ok?
    ensures TaintOk(ResumeSession(db, did, g).value)
  {
    hide TaintOk, BindSession;
    BindKeepsSessions(db, did, g);
    SessionWritesTamed(db, did, g, false);
    TamedKeeps(db.sessions, ResumeSession(db, did, g).value.sessions);
    BindTaints(db, did, g, ResumeSession(db, did, g).value.sessions);
  }

  lemma InvokeTaints(db: Ledger, pc: Pc, input: Input, ok: bool)
    requires TaintOk(db)
    ensures var m := InvokeStep(db, pc, input, ok); !m.Stays? ==> TaintOk(m.db)
  {
    match pc
    case Live(t, n, started) =>
      hide TaintOk, Transition, ResolveInvocation;
      TransitionTaints(db, t.did, Started, StartedNote);
      TransitionTaints(db, t.did, MayHaveStarted, StartUncertain);
      MarkersCalm(db, t.did, PrespawnFailure, "");
    case Passed(t) => hide TaintOk, MarkInvocation; MarkersCalm(db, t.did, PrespawnFailure, "");
    case Halting(t, n, cancel) => hide TaintOk, ResolveInvocation; MarkersCalm(db, t.did, ControlHalt, "");
    case Naming(t, n, e) => hide TaintOk, BindExecution; MarkersCalm(db, t.did, ControlHalt, e);
    case Ditching(g, tainted) =>
      hide TaintOk, LoseSession, Taint;
      WritesTaint(db, 0, g);
      TaintTamed(db.sessions, Some(g));
      TamedKeeps(db.sessions, Taint(db.sessions, Some(g)));
      CalmKeeps(db, db.(sessions := Taint(db.sessions, Some(g))));
    case _ =>
  }

  lemma MarkersCalm(db: Ledger, did: nat, reason: Marker, execution: string)
    requires TaintOk(db)
    ensures MarkInvocation(db, did).Ok? ==> TaintOk(MarkInvocation(db, did).value)
    ensures ResolveInvocation(db, did, reason).Ok? ==> TaintOk(ResolveInvocation(db, did, reason).value)
    ensures BindExecution(db, did, execution).Ok? ==> TaintOk(BindExecution(db, did, execution).value)
  {
    hide TaintOk, LastOpen;
    SameIsCalm(db);
    if MarkInvocation(db, did).Ok? { CalmKeeps(db, MarkInvocation(db, did).value); }
    if ResolveInvocation(db, did, reason).Ok? { CalmKeeps(db, ResolveInvocation(db, did, reason).value); }
    if BindExecution(db, did, execution).Ok? { CalmKeeps(db, BindExecution(db, did, execution).value); }
  }

  lemma FinalizeCalm(db: Ledger, did: nat, value: string, vendor: Option<string>, p: Option<Provenance>, now: real)
    requires TaintOk(db)
    ensures FinalizeTerminal(db, did, value, vendor, p, now).Ok? ==> TaintOk(FinalizeTerminal(db, did, value, vendor, p, now).value.0)
  {
    hide TaintOk, CommitNative;
    if FinalizeTerminal(db, did, value, vendor, p, now).Ok? {
      SameIsCalm(db);
      CommitKeeps(db.sessions, db.deliveries[did].session, db.deliveries[did].position, vendor, p);
      CalmKeeps(db, FinalizeTerminal(db, did, value, vendor, p, now).value.0);
    }
  }

  lemma FinalizedTaints(db: Ledger, ok: bool, did: nat, value: string, vendor: Option<string>, p: Option<Provenance>, now: real)
    requires TaintOk(db)
    ensures var m := Finalized(db, ok, did, value, vendor, p, now); !m.Stays? ==> TaintOk(m.db)
  {
    FinalizeCalm(db, did, value, vendor, p, now);
    SameIsCalm(db);
    CalmKeeps(db, db.(evidence := db.evidence + [Note(StaleTerminal, Some(did))]));
    hide TaintOk, FinalizeTerminal;
  }

  lemma SettleTaints(db: Ledger, pc: Pc, input: Input, ok: bool, now: real)
    requires TaintOk(db)
    ensures var m := SettleStep(db, pc, input, ok, now); !m.Stays? ==> TaintOk(m.db)
  {
    if pc.Finalizing? {
      hide TaintOk, Finalized;
      FinalizedTaints(db, ok, pc.turn.did, pc.value, pc.vendor, Some(ProvenanceOf(pc.turn)), now);
    } else {
      SettleCalm(db, pc, input, ok, now);
      hide SettleStep;
      if !SettleStep(db, pc, input, ok, now).Stays? { CalmKeeps(db, SettleStep(db, pc, input, ok, now).db); }
    }
  }

  lemma SettleCalm(db: Ledger, pc: Pc, input: Input, ok: bool, now: real)
    requires !pc.Finalizing?
    ensures CalmMove(db, SettleStep(db, pc, input, ok, now))
  {
    SettleTamed(db, pc, input, ok, now);
    var m := SettleStep(db, pc, input, ok, now);
    if !m.Stays? { TamedKeeps(db.sessions, m.db.sessions); }
    hide AppendResponse, SessionsKeep, Tamed;
    AppendCalm(db, pc, input);
  }

  lemma AppendCalm(db: Ledger, pc: Pc, input: Input)
    ensures pc.Responding? && input.Json? && AppendResponse(db, pc.did, pc.payload, input.json, input.tokens).Ok? ==>
              Calm(db, AppendResponse(db, pc.did, pc.payload, input.json, input.tokens).value.0)
  {
    SameIsCalm(db);
  }

  lemma OffsetTaints(db: Ledger, pc: Pc, input: Input, ok: bool)
    requires TaintOk(db)
    ensures var m := OffsetStep(db, pc, input, ok); !m.Stays? ==> TaintOk(m.db)
  {
    hide TaintOk;
    SameIsCalm(db);
    var m := OffsetStep(db, pc, input, ok);
    if !m.Stays? { CalmKeeps(db, m.db); }
  }

  lemma MoveTaints(db: Ledger, pc: Pc, input: Input, ok: bool, claim: nat, now: real, b: CatchUp.Budget)
    requires TaintOk(db)
    ensures var m := MoveOf(db, pc, input, ok, claim, now, b); !m.Stays? ==> TaintOk(m.db)
  {
    hide StartStep, GateStep, SessionStep, InvokeStep, SettleStep, OffsetStep, TaintOk;
    StartTaints(db, pc, input, ok, claim);
    GateTaints(db, pc, input, ok);
    SessionTaints(db, pc, input, ok, b);
    InvokeTaints(db, pc, input, ok);
    SettleTaints(db, pc, input, ok, now);
    OffsetTaints(db, pc, input, ok);
  }

  // ---------------------------------------------------------------- every run

  /** A quiet change of the ledger keeps it. */
  lemma FadeTaints(db: Ledger, db': Ledger)
    requires TaintOk(db) && db'.deliveries == db.deliveries && AllFade(db.sessions, db'.sessions)
    ensures TaintOk(db')
  {
    FadeIsTame(db.sessions, db'.sessions);
    TamedKeeps(db.sessions, db'.sessions);
    CalmKeeps(db, db');
  }

  lemma IntakeTaints(s: State, position: nat, lease: nat, token: Option<Claims.Token>)
    requires TaintOk(s.db)
    ensures TaintOk(Intake(s, position, lease, token).db)
  {
    hide TaintOk, AllFade;
    SameFades(s.db.sessions);
    IntakeFades(s, position, lease, token);
    hide Intake;
    FadeTaints(s.db, Intake(s, position, lease, token).db);
  }

  lemma IntakeFades(s: State, position: nat, lease: nat, token: Option<Claims.Token>)
    ensures var db' := Intake(s, position, lease, token).db;
            db' == s.db.(controls := db'.controls, sessions := db'.sessions, evidence := db'.evidence) && AllFade(s.db.sessions, db'.sessions)
  {
    hide AcceptControl, AllFade;
    SameFades(s.db.sessions);
    AcceptFades(s.db, position, Lease(lease, s.kernel.now + s.lease), s.kernel.now, Claims.RowOf(s.kernel, s.scope), s.kernel.workspace);
  }

  lemma AcceptFades(db: Ledger, position: nat, lease: Lease, now: real, claim: Option<Claims.Row>, workspace: string)
    ensures AcceptControl(db, position, lease, now, claim, workspace).Ok? ==>
              var db' := AcceptControl(db, position, lease, now, claim, workspace).value.0;
              db' == db.(controls := db'.controls, sessions := db'.sessions, evidence := db'.evidence) && AllFade(db.sessions, db'.sessions)
  {
    hide Taint, AllFade, ControlTarget, EffectOf, NoEffectOutcome, ControlFor;
    SameFades(db.sessions);
    AnyTaintFades(db.sessions);
  }

  lemma HandlerTaints(s: State, a: Action)
    requires TaintOk(s.db)
    ensures TaintOk(StepHandler(s, a).db)
  {
    hide TaintOk, FenceControl, Intake;
    if a.Accept? {
      IntakeTaints(s, a.position, a.id, None);
    } else {
      SameFades(s.db.sessions);
      FadeTaints(s.db, StepHandler(s, a).db);
    }
  }

  lemma StepTaints(s: State, owner: string, input: Input)
    requires owner in s.procs && TaintOk(s.db)
    ensures TaintOk(StepProc(s, owner, input).db)
  {
    hide TaintOk, MoveProc, MustTake, Intake;
    var p := s.procs[owner];
    if input.Take? && (p.pc.Sweeping? || p.pc.Scan?) { IntakeTaints(s, p.pc.cursor + 1, input.lease, Some(p.token)); }
    if input.Stranded? { IntakeTaints(s, input.position, input.lease, Some(p.token)); }
    ProcTaints(s, owner, input);
  }

  lemma ProcTaints(s: State, owner: string, input: Input)
    requires owner in s.procs && TaintOk(s.db)
    ensures TaintOk(MoveProc(s, owner, input).db)
  {
    hide TaintOk, MoveOf, Unproven, Ended;
    var p := s.procs[owner];
    MoveTaints(s.db, p.pc, input, TokenPasses(s, p.token), p.token.generation, s.kernel.now, s.budget);
  }

  lemma NextTaints(s: State, a: Action)
    requires TaintOk(s.db)
    ensures TaintOk(Next(s, a).db)
  {
    hide TaintOk, StepProc, StepHandler, Finalized, Unproven, Ended, RegisterRetry, AllFade, AppendRecord, MoveOf;
    SameFades(s.db.sessions);
    match a
    case Append(r) => AppendIs(s.db, r); FadeTaints(s.db, AppendRecord(s.db, r));
    case Close => FadeTaints(s.db, Next(s, a).db);
    case Authorize(record) => RetryFades(s.db, record);
    case Step(owner, input) => if owner in s.procs { StepTaints(s, owner, input); }
    case Follow(id, input) =>
      if id in s.callbacks {
        var p := s.callbacks[id];
        MoveTaints(s.db, p.pc, input, TokenPasses(s, p.token), p.token.generation, s.kernel.now, s.budget);
      }
    case Callback(id, token, did, value, vendor) =>
      FinalizedTaints(s.db, true, did, value, vendor, None, s.kernel.now);
      FinalizedTaints(s.db, false, did, value, vendor, None, s.kernel.now);
    case _ => HandlerTaints(s, a);
  }

  lemma RetryFades(db: Ledger, record: nat)
    requires TaintOk(db)
    ensures RegisterRetry(db, record).Ok? ==> TaintOk(RegisterRetry(db, record).value)
  {
    hide TaintOk;
    SameFades(db.sessions);
    if RegisterRetry(db, record).Ok? { FadeTaints(db, RegisterRetry(db, record).value); }
  }

  lemma {:induction false} RunTaints(s: State, acts: seq<Action>)
    requires TaintOk(s.db)
    ensures TaintOk(Run(s, acts).db)
    decreases |acts|
  {
    hide TaintOk, Next;
    if acts != [] {
      NextTaints(s, acts[0]);
      RunTaints(Next(s, acts[0]), acts[1..]);
    }
  }

  /** Over every run: a command-line session in which an attempt may have run with an unknown end is not usable, so no later Record is
      ever resumed in it. */
  lemma UncertainNeverResumed(s0: State, acts: seq<Action>, did: nat, g: nat, position: nat)
    requires Initial(s0)
    requires var db := Run(s0, acts).db;
             did < |db.deliveries| && db.deliveries[did].certainty.MayHaveStarted? && db.deliveries[did].session == Some(g)
             && g < |db.sessions| && db.sessions[g].cli
    ensures !Resumable(Run(s0, acts).db, g, position, s0.budget)
  {
    hide NativeDelta, LocalDelta;
    assert TaintOk(s0.db);
    RunTaints(s0, acts);
    hide Run;
    assert TaintedAt(Run(s0, acts).db, did);
  }

  // ---------------------------------------------------------------- no resume while an end is open

  /** The attempt may have run, and how it ended is not known: uncertain, started without a result, or under a marker nobody resolved. */
  predicate Unfinished(a: Attempt) {
    a.certainty.MayHaveStarted? || (a.certainty.Started? && a.outcome.None?) || (a.certainty.NotStarted? && !NoOpen(a))
  }

  /** The step resumes session `g` for the attempt its cycle is about. */
  ghost predicate Resumes(s: State, a: Action, g: nat) {
    a.Step? && a.owner in s.procs && s.procs[a.owner].pc.Admitted? && a.input == Input.Resume(g)
    && a.owner in Next(s, a).procs && Next(s, a).procs[a.owner].pc.Resolved?
  }

  lemma ResumeNeeds(s: State, a: Action, g: nat)
    requires Resumes(s, a, g)
    ensures TokenPasses(s, s.procs[a.owner].token)
    ensures var did := s.procs[a.owner].pc.did; did < |s.db.deliveries| && Resumable(s.db, g, s.db.deliveries[did].position, s.budget)
  {
    hide Resumable, ResumeSession, TokenPasses;
  }

  /** While the newest attempt is ready to run, every started attempt has a result and every unstarted one has no open marker. */
  lemma ReadyFinished(db: Ledger, did: nat, other: nat)
    requires LedgerOk(db) && Ready(db, did) && !db.deliveries[did].acked && other < |db.deliveries|
    ensures Unfinished(db.deliveries[other]) ==> db.deliveries[other].certainty.MayHaveStarted?
  {
    Row(db, other);
    if other in db.retries { RetryOf(db, other); }
    hide LedgerOk, Deliverable, Answers, CancelApplies, RefusalNoted;
  }

  lemma RetryOf(db: Ledger, r: nat)
    requires LedgerOk(db) && r in db.retries
    ensures r < |db.deliveries| && (db.deliveries[r].certainty.MayHaveStarted? || db.deliveries[r].certainty.Terminal?)
  {
    hide AttemptsOk, Ordered, CountsOk, OffsetOk, ResponsesOk, ControlsOk, EvidenceOk;
  }

  /** Over every run: no step of any owner resumes the session of an attempt whose end is open. For an uncertain one that holds of
      command-line sessions; a started one, or one under an open marker, blocks every resume in the scope. */
  lemma UnfinishedNeverResumed(s0: State, acts: seq<Action>, a: Action, did: nat, g: nat)
    requires Initial(s0)
    requires var db := Run(s0, acts).db;
             && did < |db.deliveries| && Unfinished(db.deliveries[did])
             && (db.deliveries[did].certainty.MayHaveStarted? ==>
                   db.deliveries[did].session == Some(g) && g < |db.sessions| && db.sessions[g].cli)
    ensures !Resumes(Run(s0, acts), a, g)
  {
    var s := Run(s0, acts);
    Reachable(s0, acts);
    RunBudget(s0, acts);
    hide Inv, Run, Initial, Resumes;
    if Resumes(s, a, g) {
      ResumeNeeds(s, a, g);
      ResumeReady(s, a, g);
      var position := s.db.deliveries[s.procs[a.owner].pc.did].position;
      ReadyFinished(s.db, s.procs[a.owner].pc.did, did);
      hide *;
      if s.db.deliveries[did].certainty.MayHaveStarted? { UncertainNeverResumed(s0, acts, did, g, position); }
      assert false;
    }
  }

  lemma ResumeReady(s: State, a: Action, g: nat)
    requires Inv(s) && Resumes(s, a, g) && TokenPasses(s, s.procs[a.owner].token)
    ensures var did := s.procs[a.owner].pc.did;
            LedgerOk(s.db) && did < |s.db.deliveries| && Ready(s.db, did) && !s.db.deliveries[did].acked
  {
    PassesHolds(s, s.procs[a.owner].token);
    OwnView(s, a.owner);
    hide Inv, LedgerOk, Next, TokenPasses;
  }

  /** The budget never changes. */
  lemma {:induction false} RunBudget(s: State, acts: seq<Action>)
    ensures Run(s, acts).budget == s.budget
    decreases |acts|
  {
    hide Next;
    if acts != [] {
      NextBudget(s, acts[0]);
      RunBudget(Next(s, acts[0]), acts[1..]);
    }
  }

  lemma NextBudget(s: State, a: Action)
    ensures Next(s, a).budget == s.budget
  {
    hide StepProc, StepHandler, Called, Followed, RegisterRetry, AppendRecord, Claims.Acquire;
    match a
    case Step(owner, input) => if owner in s.procs { StepBudget(s, owner, input); }
    case Callback(id, token, did, value, vendor) => CalledFrame(s, id, token, did, value, vendor);
    case Follow(id, input) => if id in s.callbacks { FollowedFrame(s, id, input); }
    case _ => HandlerBudget(s, a);
  }

  lemma HandlerBudget(s: State, a: Action)
    ensures StepHandler(s, a).budget == s.budget
  {
    hide FenceControl, CompleteControl, Intake;
    if a.Accept? { IntakeIs(s, a.position, a.id, None); }
  }

  lemma StepBudget(s: State, owner: string, input: Input)
    requires owner in s.procs
    ensures StepProc(s, owner, input).budget == s.budget
  {
    hide MoveProc, MustTake, Intake, Claims.Heartbeat;
    var p := s.procs[owner];
    if input.Take? && (p.pc.Sweeping? || p.pc.Scan?) { IntakeIs(s, p.pc.cursor + 1, input.lease, Some(p.token)); }
    if input.Stranded? { IntakeIs(s, input.position, input.lease, Some(p.token)); }
    MoveBudget(s, owner, input);
  }

  lemma MoveBudget(s: State, owner: string, input: Input)
    requires owner in s.procs
    ensures MoveProc(s, owner, input).budget == s.budget
  {
    hide MoveOf, Unproven, Ended;
  }
}
