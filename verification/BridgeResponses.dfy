/**
 The result of a delivery and its one response, over every run: also when callbacks race under one token, when somebody else uses the
 response key, and when a callback finalizes before the execution id is stored.
 */
module BridgeResponses {
  import opened Wrappers
  import opened BridgeLedger
  import opened BridgeContext
  import opened BridgeInvariant
  import opened BridgeMachine
  import opened BridgeSafety
  import opened BridgeCalls
  import opened BridgeRuns
  import opened BridgeTheorems
  import Claims
  import CatchUp

  // ---------------------------------------------------------------- terminal truth

  /** Once terminal, the result, its time and the bound response never change, whatever callbacks, cycles and clients do. */
  lemma TerminalTruth(s: State, acts: seq<Action>, did: nat)
    requires Inv(s) && did < |s.db.deliveries| && s.db.deliveries[did].certainty.Terminal?
    ensures var db := Run(s, acts).db;
            did < |db.deliveries| && db.deliveries[did].certainty.Terminal?
            && SameAnswer(PayloadOf(db.deliveries[did]), PayloadOf(s.db.deliveries[did]))
            && db.deliveries[did].outcome == s.db.deliveries[did].outcome
            && (s.db.deliveries[did].response.Some? ==> db.deliveries[did].response == s.db.deliveries[did].response)
  {
    hide Inv;
    RunInv(s, acts);
    assert AttemptGrows(s.db.deliveries[did], Run(s, acts).db.deliveries[did]);
    hide Run;
  }

  /** A later result for a terminal delivery: the same one is a duplicate, another one a conflict, and either is evidence only. */
  lemma LaterResults(db: Ledger, did: nat, value: string, vendor: Option<string>, p: Option<Provenance>, now: real)
    requires LedgerOk(db) && did < |db.deliveries| && db.deliveries[did].certainty.Terminal?
    ensures FinalizeTerminal(db, did, value, vendor, p, now).Ok?
    ensures var (db', settled) := FinalizeTerminal(db, did, value, vendor, p, now).value;
            (settled.Duplicate? <==> PayloadOf(db.deliveries[did]).answer == value) && !settled.First?
            && db' == db.(evidence := db'.evidence)
  {
    Row(db, did);
  }

  // ---------------------------------------------------------------- the session, execution id, response and acknowledgement of a row

  predicate RowMoves(a: Attempt, b: Attempt) {
    && (b.session == a.session || (a.certainty.NotStarted? && LastOpen(a.markers).None?))
    && b.execution == a.execution && b.response == a.response && (b.acked ==> a.acked || a.certainty.NotStarted?)
    && (b.certainty.Terminal? ==> a.certainty.Terminal? || (!a.certainty.NotStarted? && a.outcome.None?))
  }

  predicate RowsMove(db: Ledger, db': Ledger, except: Option<nat>) {
    && |db.deliveries| <= |db'.deliveries|
    && (forall i :: 0 <= i < |db.deliveries| ==> except == Some(i) || RowMoves(db.deliveries[i], db'.deliveries[i]))
    && (forall i :: |db.deliveries| <= i < |db'.deliveries| ==> db'.deliveries[i].certainty.NotStarted?)
  }

  /** The row whose execution id, response or acknowledgement a step from here may write. */
  function Touched(pc: Pc): Option<nat> {
    match pc
    case Naming(t, _, _) => Some(t.did)
    case Binding(did, _) => Some(did)
    case Acking(did) => Some(did)
    case _ => None
  }

  /** What it writes there. */
  function Written(pc: Pc, a: Attempt): Attempt {
    match pc
    case Naming(_, _, e) => a.(execution := Some(e))
    case Binding(_, k) => if a.response.Some? then a else a.(response := Some(k))
    case Acking(_) => a.(acked := true)
    case _ => a
  }

  predicate MoveRows(db: Ledger, pc: Pc, m: Move) {
    !m.Stays? ==> RowsMove(db, m.db, Touched(pc)) && (!pc.Responding? ==> m.db.log == db.log)
  }

  lemma SameRows(db: Ledger, db': Ledger, except: Option<nat>)
    requires db'.deliveries == db.deliveries
    ensures RowsMove(db, db', except)
  {
  }

  lemma {:induction false} PromoteRows(db: Ledger, n: nat)
    requires n <= |db.deliveries|
    ensures RowsMove(db, PromoteFirst(db, n), None) && PromoteFirst(db, n).log == db.log
    decreases n
  {
    hide Taint, LastOpen;
    if n > 0 {
      PromoteRows(db, n - 1);
      var prev, next := PromoteFirst(db, n - 1), PromoteFirst(db, n);
      forall i | 0 <= i < |db.deliveries| ensures RowMoves(db.deliveries[i], next.deliveries[i]) {
        assert RowMoves(db.deliveries[i], prev.deliveries[i]);
        assert i != n - 1 ==> next.deliveries[i] == prev.deliveries[i];
      }
    }
  }

  lemma RejectRows(db: Ledger)
    ensures forall did: nat, code :: RejectSelector(db, did, code).Ok? ==>
              RowsMove(db, RejectSelector(db, did, code).value, None) && RejectSelector(db, did, code).value.log == db.log
  {
    hide LastOpen;
  }

  lemma BeginRows(db: Ledger, position: nat, retry: Option<nat>, claim: nat)
    ensures BeginAttempt(db, position, retry, claim).Ok? ==>
              var db' := BeginAttempt(db, position, retry, claim).value.0; RowsMove(db, db', None) && db'.log == db.log
  {
    hide LastAttempt;
  }

  lemma InspectRows(db: Ledger, ok: bool, input: Input)
    ensures MoveRows(db, Swept(AtStart), Inspect(db, ok, input))
  {
    hide Paused, RetryBlocked, RejectSelector, Taint, RefusalOf, FailedBefore, RowsMove;
    SameRows(db, db, None);
    RejectRows(db);
    if Inflight(db).Some? { SameRows(db, db.(sessions := Taint(db.sessions, db.deliveries[Inflight(db).value].session)), None); }
  }

  lemma StartRows(db: Ledger, pc: Pc, input: Input, ok: bool, claim: nat)
    ensures MoveRows(db, pc, StartStep(db, pc, input, ok, claim))
  {
    hide PromoteUnresolved, Paused, RetryBlocked, BeginAttempt, IsControl, RowsMove, Inspect;
    SameRows(db, db, None);
    SameRows(db, db, Touched(pc));
    match pc
    case Idle =>
      PromoteRows(db, |db.deliveries|);
      PromoteIs(db);
    case Swept(AtStart) => InspectRows(db, ok, input);
    case Chosen(position, retry) => BeginRows(db, position, retry, claim);
    case _ =>
  }

  lemma GateRows(db: Ledger, pc: Pc, input: Input, ok: bool)
    ensures MoveRows(db, pc, GateStep(db, pc, input, ok))
  {
    hide Paused, RejectSelector, MustTake, CancelApplies, RowsMove;
    SameRows(db, db, None);
    RejectRows(db);
  }

  lemma SessionRows(db: Ledger, pc: Pc, input: Input, ok: bool, b: CatchUp.Budget)
    ensures MoveRows(db, pc, SessionStep(db, pc, input, ok, b))
  {
    hide TurnFor, RejectSelector, NativeDelta, LocalDelta, RowsMove, CreateSession, ResumeSession;
    SameRows(db, db, None);
    RejectRows(db);
    match pc
    case Admitted(did) =>
      if input.Prune? { SameRows(db, Tombstone(db, input.session), None); }
      if input.ResumeFails? { SameRows(db, LoseSession(db, input.session), None); }
      if input.Resume? && input.session < |db.sessions| { BindRows(db, did, input.session, false); }
    case Creating(did) => BindRows(db, did, |db.sessions|, if input.Create? then input.cli else false);
    case _ =>
  }

  lemma BindRows(db: Ledger, did: nat, g: nat, cli: bool)
    ensures g < |db.sessions| && ResumeSession(db, did, g).Ok? ==>
              RowsMove(db, ResumeSession(db, did, g).value, None) && ResumeSession(db, did, g).value.log == db.log
    ensures CreateSession(db, did, cli).Ok? ==>
              RowsMove(db, CreateSession(db, did, cli).value, None) && CreateSession(db, did, cli).value.log == db.log
  {
    hide LastOpen;
  }

  lemma InvokeRows(db: Ledger, pc: Pc, input: Input, ok: bool)
    ensures MoveRows(db, pc, InvokeStep(db, pc, input, ok))
  {
    hide Taint, RowsMove, Transition, MarkInvocation, ResolveInvocation;
    SameRows(db, db, Touched(pc));
    match pc
    case Passed(t) => MarkerRows(db, t.did, ControlHalt);
    case Halting(t, _, _) => MarkerRows(db, t.did, ControlHalt);
    case Live(t, _, _) =>
      MarkerRows(db, t.did, PrespawnFailure);
      CertaintyRows(db, t.did, Started, StartedNote);
      CertaintyRows(db, t.did, MayHaveStarted, StartUncertain);
    case Naming(t, _, e) => if t.did < |db.deliveries| { NameRows(db, t.did, e); }
    case Ditching(g, _) =>
      SameRows(db, db.(sessions := Taint(db.sessions, Some(g))), None);
      SameRows(db, LoseSession(db, g), None);
    case _ =>
  }

  lemma MarkerRows(db: Ledger, did: nat, reason: Marker)
    ensures MarkInvocation(db, did).Ok? ==> var db' := MarkInvocation(db, did).value; RowsMove(db, db', None) && db'.log == db.log
    ensures ResolveInvocation(db, did, reason).Ok? ==>
              var db' := ResolveInvocation(db, did, reason).value; RowsMove(db, db', None) && db'.log == db.log
  {
    hide LastOpen;
  }

  lemma CertaintyRows(db: Ledger, did: nat, to: Certainty, event: Event)
    requires !to.Terminal?
    ensures Transition(db, did, to, event).Ok? ==>
              var db' := Transition(db, did, to, event).value; RowsMove(db, db', None) && db'.log == db.log
  {
    hide Taint;
  }

  lemma NameRows(db: Ledger, did: nat, e: string)
    requires did < |db.deliveries|
    ensures var db' := BindExecution(db, did, e).value; RowsMove(db, db', Some(did)) && db'.log == db.log
  {
  }

  lemma FinalRows(db: Ledger, did: nat, value: string, vendor: Option<string>, p: Option<Provenance>, now: real)
    requires FinalizeTerminal(db, did, value, vendor, p, now).Ok?
    ensures var db' := FinalizeTerminal(db, did, value, vendor, p, now).value.0; RowsMove(db, db', None) && db'.log == db.log
  {
    hide CommitNative;
  }

  lemma FinalizedRows(db: Ledger, ok: bool, did: nat, value: string, vendor: Option<string>, p: Option<Provenance>, now: real)
    ensures var m := Finalized(db, ok, did, value, vendor, p, now); !m.Stays? ==> RowsMove(db, m.db, None) && m.db.log == db.log
  {
    hide FinalizeTerminal, RowsMove;
    SameRows(db, db, None);
    SameRows(db, db.(evidence := db.evidence + [Note(StaleTerminal, Some(did))]), None);
    if FinalizeTerminal(db, did, value, vendor, p, now).Ok? { FinalRows(db, did, value, vendor, p, now); }
  }

  lemma SettleRows(db: Ledger, pc: Pc, input: Input, ok: bool, now: real)
    ensures MoveRows(db, pc, SettleStep(db, pc, input, ok, now))
  {
    hide Finalized, RowsMove, AppendResponse, LoseSession;
    if pc.Finalizing? {
      FinalizedRows(db, ok, pc.turn.did, pc.value, pc.vendor, Some(ProvenanceOf(pc.turn)), now);
    } else {
      SameRows(db, db, Touched(pc));
      RespondRows(db, pc, input);
      WrittenRows(db, pc);
      AckedRows(db, pc);
    }
  }

  /** What the settling transactions write. */
  lemma WrittenRows(db: Ledger, pc: Pc)
    ensures pc.Noting? ==> var d := NoteRefusal(db, pc.turn.did, pc.code); RowsMove(db, d, None) && d.log == db.log
    ensures pc.Settling? && SettleRefusal(db, pc.did, pc.code).Ok? ==>
              var d := SettleRefusal(db, pc.did, pc.code).value; RowsMove(db, d, None) && d.log == db.log
    ensures pc.Losing? && pc.did < |db.deliveries| && db.deliveries[pc.did].session.Some? ==>
              var d := LoseSession(db, db.deliveries[pc.did].session.value); RowsMove(db, d, None) && d.log == db.log
  {
    hide LastOpen;
  }

  lemma AckedRows(db: Ledger, pc: Pc)
    ensures pc.Binding? && BindResponse(db, pc.did, pc.k).Ok? ==>
              var d := BindResponse(db, pc.did, pc.k).value; RowsMove(db, d, Some(pc.did)) && d.log == db.log
    ensures pc.Cancelling? && pc.did < |db.deliveries| ==>
              var d := NoteCancelled(db, pc.did, db.deliveries[pc.did].position); RowsMove(db, d, None) && d.log == db.log
    ensures pc.CancelAcking? && AckCancelled(db, pc.did).Ok? ==>
              var d := AckCancelled(db, pc.did).value; RowsMove(db, d, None) && d.log == db.log
    ensures pc.Acking? && Ack(db, pc.did).Ok? ==> var d := Ack(db, pc.did).value; RowsMove(db, d, Some(pc.did)) && d.log == db.log
  {
    hide LastOpen;
  }

  lemma RespondRows(db: Ledger, pc: Pc, input: Input)
    ensures pc.Responding? && input.Json? && AppendResponse(db, pc.did, pc.payload, input.json, input.tokens).Ok? ==>
              RowsMove(db, AppendResponse(db, pc.did, pc.payload, input.json, input.tokens).value.0, None)
  {
    hide FindKey, Carries;
  }

  lemma OffsetRows(db: Ledger, pc: Pc, input: Input, ok: bool)
    ensures MoveRows(db, pc, OffsetStep(db, pc, input, ok))
  {
  }

  lemma MovesRows(db: Ledger, pc: Pc, input: Input, ok: bool, claim: nat, now: real, b: CatchUp.Budget)
    ensures MoveRows(db, pc, MoveOf(db, pc, input, ok, claim, now, b))
  {
    hide StartStep, GateStep, SessionStep, InvokeStep, SettleStep, OffsetStep, RowsMove;
    SameRows(db, db, Touched(pc));
    StartRows(db, pc, input, ok, claim);
    GateRows(db, pc, input, ok);
    SessionRows(db, pc, input, ok, b);
    InvokeRows(db, pc, input, ok);
    SettleRows(db, pc, input, ok, now);
    OffsetRows(db, pc, input, ok);
  }

  /** What a step of the whole system may write of a row. */
  function TouchedBy(s: State, a: Action): Option<nat> {
    if a.Step? && a.owner in s.procs then Touched(s.procs[a.owner].pc)
    else if a.Follow? && a.id in s.callbacks then Touched(s.callbacks[a.id].pc)
    else None
  }

  lemma AcceptRows(db: Ledger, position: nat, lease: Lease, now: real, claim: Option<Claims.Row>, workspace: string)
    ensures AcceptControl(db, position, lease, now, claim, workspace).Ok? ==>
              var db' := AcceptControl(db, position, lease, now, claim, workspace).value.0; db'.deliveries == db.deliveries && db'.log == db.log
  {
    hide Taint, ControlTarget, EffectOf, NoEffectOutcome, IsControl;
  }

  lemma IntakeRows(s: State, position: nat, lease: nat, token: Option<Claims.Token>)
    ensures var s' := Intake(s, position, lease, token); s'.db.deliveries == s.db.deliveries && s'.db.log == s.db.log
  {
    hide AcceptControl;
    AcceptRows(s.db, position, Lease(lease, s.kernel.now + s.lease), s.kernel.now, Claims.RowOf(s.kernel, s.scope), s.kernel.workspace);
  }

  lemma StepRows(s: State, owner: string, input: Input)
    requires owner in s.procs
    ensures RowsMove(s.db, StepProc(s, owner, input).db, Touched(s.procs[owner].pc))
    ensures !s.procs[owner].pc.Responding? ==> StepProc(s, owner, input).db.log == s.db.log
  {
    hide MoveProc, MustTake, Intake, RowsMove;
    var p := s.procs[owner];
    SameRows(s.db, s.db, Touched(p.pc));
    if input.Take? && (p.pc.Sweeping? || p.pc.Scan?) { TakenRows(s, p.pc.cursor + 1, input.lease, Some(p.token), Touched(p.pc)); }
    if input.Stranded? { TakenRows(s, input.position, input.lease, Some(p.token), Touched(p.pc)); }
    ProcRows(s, owner, input);
  }

  lemma TakenRows(s: State, position: nat, lease: nat, token: Option<Claims.Token>, except: Option<nat>)
    ensures var s' := Intake(s, position, lease, token); RowsMove(s.db, s'.db, except) && s'.db.log == s.db.log
  {
    IntakeRows(s, position, lease, token);
    SameRows(s.db, Intake(s, position, lease, token).db, except);
    hide *;
  }

  lemma ProcRows(s: State, owner: string, input: Input)
    requires owner in s.procs
    ensures RowsMove(s.db, MoveProc(s, owner, input).db, Touched(s.procs[owner].pc))
    ensures !s.procs[owner].pc.Responding? ==> MoveProc(s, owner, input).db.log == s.db.log
  {
    hide MoveOf, Unproven, Ended, RowsMove;
    var p := s.procs[owner];
    SameRows(s.db, s.db, Touched(p.pc));
    MovesRows(s.db, p.pc, input, TokenPasses(s, p.token), p.token.generation, s.kernel.now, s.budget);
  }

  lemma CalledRows(s: State, id: nat, token: Claims.Token, did: nat, value: string, vendor: Option<string>)
    ensures var s' := Called(s, id, token, did, value, vendor); RowsMove(s.db, s'.db, None) && s'.db.log == s.db.log
  {
    CalledIs(s, id, token, did, value, vendor);
    var f := FinalizeTerminal(s.db, did, value, vendor, None, s.kernel.now);
    SameRows(s.db, s.db, None);
    SameRows(s.db, s.db.(evidence := s.db.evidence + [Note(StaleTerminal, Some(did))]), None);
    hide *;
    if f.Ok? {
      FinalRows(s.db, did, value, vendor, None, s.kernel.now);
      CommittedLedger(s, f.value.0, did, vendor);
    }
  }

  lemma FollowedRows(s: State, id: nat, input: Input)
    requires id in s.callbacks
    ensures RowsMove(s.db, Followed(s, id, input).db, Touched(s.callbacks[id].pc))
    ensures !s.callbacks[id].pc.Responding? ==> Followed(s, id, input).db.log == s.db.log
  {
    hide MoveOf, RowsMove;
    var p := s.callbacks[id];
    SameRows(s.db, s.db, Touched(p.pc));
    MovesRows(s.db, p.pc, input, TokenPasses(s, p.token), p.token.generation, s.kernel.now, s.budget);
  }

  lemma HandlerRows(s: State, a: Action)
    ensures StepHandler(s, a).db.deliveries == s.db.deliveries && StepHandler(s, a).db.log == s.db.log
  {
    hide FenceControl, Intake;
    if a.Accept? { IntakeRows(s, a.position, a.id, None); }
  }

  lemma NextRows(s: State, a: Action)
    ensures RowsMove(s.db, Next(s, a).db, TouchedBy(s, a))
  {
    hide StepProc, StepHandler, Called, Followed, RegisterRetry, RowsMove, AppendRecord;
    SameRows(s.db, s.db, TouchedBy(s, a));
    match a
    case Append(r) => SameRows(s.db, AppendRecord(s.db, r), None) by { AppendIs(s.db, r); }
    case Close => SameRows(s.db, s.db.(closed := true), None);
    case Authorize(record) =>
      if RegisterRetry(s.db, record).Ok? {
        RegisteredIs(s.db, record);
        SameRows(s.db, RegisterRetry(s.db, record).value, None);
      }
    case Step(owner, input) => if owner in s.procs { StepRows(s, owner, input); }
    case Callback(id, token, did, value, vendor) => CalledRows(s, id, token, did, value, vendor);
    case Follow(id, input) => if id in s.callbacks { FollowedRows(s, id, input); }
    case _ =>
      HandlerRows(s, a);
      SameRows(s.db, StepHandler(s, a).db, TouchedBy(s, a));
  }

  // ---------------------------------------------------------------- the execution id race

  /** A cycle stores the execution id after a callback has already finalized the delivery, under another one. */
  predicate LateName(s: State, a: Action, did: nat) {
    && a.Step? && a.input.Go? && a.owner in s.procs && TokenPasses(s, s.procs[a.owner].token)
    && s.procs[a.owner].pc.Naming? && s.procs[a.owner].pc.turn.did == did
    && did < |s.db.deliveries| && s.db.deliveries[did].certainty.Terminal?
    && s.db.deliveries[did].execution != Some(s.procs[a.owner].pc.execution)
  }

  lemma TouchingMove(db: Ledger, pc: Pc, input: Input, ok: bool, claim: nat, now: real, b: CatchUp.Budget)
    requires Touched(pc).Some?
    ensures var m := MoveOf(db, pc, input, ok, claim, now, b); var did := Touched(pc).value;
            !m.Stays? ==> m.db.deliveries == if input.Go? && ok && did < |db.deliveries|
                                             then db.deliveries[did := Written(pc, db.deliveries[did])] else db.deliveries
    ensures MoveOf(db, pc, input, ok, claim, now, b).Stays? ==> !input.Go? || Touched(pc).value >= |db.deliveries|
  {
  }

  /** What a step writes of the row it touches, done by a cycle or by a callback. */
  predicate WritesRow(ds: seq<Attempt>, ds': seq<Attempt>, pc: Pc, goes: bool)
    requires Touched(pc).Some?
  {
    var did := Touched(pc).value;
    if goes && did < |ds| then ds' == ds[did := Written(pc, ds[did])] else ds' == ds
  }

  lemma TouchingStep(s: State, owner: string, input: Input)
    requires owner in s.procs && Touched(s.procs[owner].pc).Some?
    ensures WritesRow(s.db.deliveries, StepProc(s, owner, input).db.deliveries, s.procs[owner].pc,
                      input.Go? && TokenPasses(s, s.procs[owner].token))
  {
    hide MoveOf, TokenPasses, Unproven, Ended, Written;
    var p := s.procs[owner];
    TouchingMove(s.db, p.pc, input, TokenPasses(s, p.token), p.token.generation, s.kernel.now, s.budget);
    assert StepProc(s, owner, input) == MoveProc(s, owner, input);
    hide StepProc;
  }

  lemma TouchingFollow(s: State, id: nat, input: Input)
    requires id in s.callbacks && Touched(s.callbacks[id].pc).Some?
    ensures WritesRow(s.db.deliveries, Followed(s, id, input).db.deliveries, s.callbacks[id].pc,
                      input.Go? && TokenPasses(s, s.callbacks[id].token))
  {
    hide MoveOf, TokenPasses, Written;
    var p := s.callbacks[id];
    TouchingMove(s.db, p.pc, input, TokenPasses(s, p.token), p.token.generation, s.kernel.now, s.budget);
  }

  /** The execution id of a terminal delivery changes exactly when a cycle stores one late. */
  lemma NamedExactly(s: State, a: Action, did: nat)
    requires Inv(s) && did < |s.db.deliveries| && s.db.deliveries[did].certainty.Terminal?
    ensures did < |Next(s, a).db.deliveries|
    ensures Next(s, a).db.deliveries[did].execution != s.db.deliveries[did].execution <==> LateName(s, a, did)
  {
    NextRows(s, a);
    if TouchedBy(s, a) == Some(did) {
      NamedTouched(s, a, did);
    } else {
      NameTouches(s, a, did);
      hide Next, Inv, LateName, TouchedBy;
      assert RowMoves(s.db.deliveries[did], Next(s, a).db.deliveries[did]);
    }
  }

  lemma NamedTouched(s: State, a: Action, did: nat)
    requires Inv(s) && did < |s.db.deliveries| && s.db.deliveries[did].certainty.Terminal? && TouchedBy(s, a) == Some(did)
    ensures did < |Next(s, a).db.deliveries|
    ensures Next(s, a).db.deliveries[did].execution != s.db.deliveries[did].execution <==> LateName(s, a, did)
  {
    hide *;
    TouchedActs(s, a);
    NextTouches(s, a);
    LateIs(s, a, did);
    if a.Step? {
      var p := s.procs[a.owner];
      WritesName(s.db.deliveries, Next(s, a).db.deliveries, p.pc, a.input.Go? && TokenPasses(s, p.token), did);
    } else {
      var p := s.callbacks[a.id];
      FollowerRow(s, a.id);
      WritesName(s.db.deliveries, Next(s, a).db.deliveries, p.pc, a.input.Go? && TokenPasses(s, p.token), did);
    }
  }

  lemma LateIs(s: State, a: Action, did: nat)
    requires did < |s.db.deliveries| && s.db.deliveries[did].certainty.Terminal? && (a.Step? ==> a.owner in s.procs)
    ensures LateName(s, a, did) <==>
            a.Step? && a.input.Go? && TokenPasses(s, s.procs[a.owner].token) && s.procs[a.owner].pc.Naming?
            && s.procs[a.owner].pc.turn.did == did && s.db.deliveries[did].execution != Some(s.procs[a.owner].pc.execution)
  {
    hide TokenPasses;
  }

  lemma WritesName(ds: seq<Attempt>, ds': seq<Attempt>, pc: Pc, goes: bool, did: nat)
    requires Touched(pc) == Some(did) && did < |ds| && WritesRow(ds, ds', pc, goes)
    ensures |ds'| == |ds| && (pc.Naming? ==> pc.turn.did == did)
    ensures ds'[did].execution != ds[did].execution <==> goes && pc.Naming? && ds[did].execution != Some(pc.execution)
  {
  }

  lemma NameTouches(s: State, a: Action, did: nat)
    ensures LateName(s, a, did) ==> TouchedBy(s, a) == Some(did)
  {
    hide TokenPasses;
  }

  /** No execution id is stored late for the delivery along the run. */
  ghost predicate NamedInTime(s: State, acts: seq<Action>, did: nat)
    decreases |acts|
  {
    acts != [] ==> !LateName(s, acts[0], did) && NamedInTime(Next(s, acts[0]), acts[1..], did)
  }

  /** In every state of the run the delivery reads `p`. */
  ghost predicate ReadsThroughout(s: State, acts: seq<Action>, did: nat, p: Payload)
    decreases |acts|
  {
    && did < |s.db.deliveries| && PayloadOf(s.db.deliveries[did]) == p
    && (acts != [] ==> ReadsThroughout(Next(s, acts[0]), acts[1..], did, p))
  }

  /** Over every run: the whole terminal row, execution id included, stays as it is exactly if no execution id is stored late. */
  lemma {:induction false} TruthExact(s: State, acts: seq<Action>, did: nat)
    requires Inv(s) && did < |s.db.deliveries| && s.db.deliveries[did].certainty.Terminal?
    ensures ReadsThroughout(s, acts, did, PayloadOf(s.db.deliveries[did])) <==> NamedInTime(s, acts, did)
    decreases |acts|
  {
    hide Inv, Next, LateName;
    if acts != [] {
      var s' := Next(s, acts[0]);
      NextInv(s, acts[0]);
      NamedExactly(s, acts[0], did);
      TerminalStays(s.db, s'.db, did);
      SameTruth(s.db, s'.db, did);
      TruthExact(s', acts[1..], did);
    }
  }

  lemma SameTruth(db: Ledger, db': Ledger, did: nat)
    requires Grows(db, db') && did < |db.deliveries| && db.deliveries[did].certainty.Terminal?
    ensures did < |db'.deliveries|
    ensures PayloadOf(db'.deliveries[did]) == PayloadOf(db.deliveries[did]) <==> db'.deliveries[did].execution == db.deliveries[did].execution
  {
    assert AttemptGrows(db.deliveries[did], db'.deliveries[did]);
  }

  // ---------------------------------------------------------------- acknowledged without a response

  /** Acknowledged, terminal, and no response bound: nobody will append one but a callback still under way. */
  predicate LacksResponse(db: Ledger, did: nat) {
    did < |db.deliveries| && db.deliveries[did].certainty.Terminal? && db.deliveries[did].acked && db.deliveries[did].response.None?
  }

  /** A cycle that settles a refusal acknowledges a delivery which a callback has finalized meanwhile and not yet answered. */
  predicate DropsResponse(s: State, a: Action, did: nat) {
    && a.Step? && a.input.Go? && a.owner in s.procs && TokenPasses(s, s.procs[a.owner].token)
    && s.procs[a.owner].pc == Acking(did)
    && did < |s.db.deliveries| && s.db.deliveries[did].certainty.Terminal? && !s.db.deliveries[did].acked && s.db.deliveries[did].response.None?
  }

  /** A terminal delivery comes to lack its response exactly when a refusal's settlement acknowledges it first. */
  lemma DroppedExactly(s: State, a: Action, did: nat)
    requires Inv(s)
    ensures !LacksResponse(s.db, did) && LacksResponse(Next(s, a).db, did) <==> DropsResponse(s, a, did)
  {
    var db' := Next(s, a).db;
    if TouchedBy(s, a) == Some(did) {
      DroppedTouched(s, a, did);
    } else {
      NextRows(s, a);
      NextInv(s, a);
      InvParts(s);
      var except := TouchedBy(s, a);
      DropTouches(s, a, did);
      hide *;
      Untouched(s.db, db', except, did);
    }
  }

  lemma DropTouches(s: State, a: Action, did: nat)
    ensures DropsResponse(s, a, did) ==> TouchedBy(s, a) == Some(did)
  {
    hide TokenPasses;
  }

  lemma Untouched(db: Ledger, db': Ledger, except: Option<nat>, did: nat)
    requires LedgerOk(db) && Grows(db, db') && RowsMove(db, db', except) && except != Some(did)
    ensures !LacksResponse(db, did) ==> !LacksResponse(db', did)
  {
    if did < |db.deliveries| { DroppedRow(db, db', did); }
    hide LedgerOk, Grows, RowMoves;
  }

  lemma DroppedTouched(s: State, a: Action, did: nat)
    requires Inv(s) && TouchedBy(s, a) == Some(did)
    ensures !LacksResponse(s.db, did) && LacksResponse(Next(s, a).db, did) <==> DropsResponse(s, a, did)
  {
    hide *;
    TouchedActs(s, a);
    NextTouches(s, a);
    DropsIs(s, a, did);
    if a.Step? {
      var p := s.procs[a.owner];
      WritesAck(s.db, Next(s, a).db, p.pc, a.input.Go? && TokenPasses(s, p.token), did);
    } else {
      var p := s.callbacks[a.id];
      FollowerRow(s, a.id);
      WritesAck(s.db, Next(s, a).db, p.pc, a.input.Go? && TokenPasses(s, p.token), did);
    }
  }

  lemma TouchedActs(s: State, a: Action)
    requires TouchedBy(s, a).Some?
    ensures (a.Step? && a.owner in s.procs && Touched(s.procs[a.owner].pc) == TouchedBy(s, a))
            || (a.Follow? && a.id in s.callbacks && Touched(s.callbacks[a.id].pc) == TouchedBy(s, a))
  {
    hide Touched;
  }

  lemma DropsIs(s: State, a: Action, did: nat)
    requires a.Step? ==> a.owner in s.procs
    ensures DropsResponse(s, a, did) <==>
            a.Step? && a.input.Go? && TokenPasses(s, s.procs[a.owner].token) && s.procs[a.owner].pc == Acking(did)
            && did < |s.db.deliveries| && s.db.deliveries[did].certainty.Terminal? && !s.db.deliveries[did].acked
            && s.db.deliveries[did].response.None?
  {
    hide TokenPasses;
  }

  lemma WritesAck(db: Ledger, db': Ledger, pc: Pc, goes: bool, did: nat)
    requires Touched(pc) == Some(did) && WritesRow(db.deliveries, db'.deliveries, pc, goes)
    ensures !LacksResponse(db, did) && LacksResponse(db', did) <==>
            goes && pc == Acking(did) && did < |db.deliveries| && db.deliveries[did].certainty.Terminal? && !db.deliveries[did].acked
            && db.deliveries[did].response.None?
  {
  }

  lemma NextTouches(s: State, a: Action)
    ensures a.Step? && TouchedBy(s, a).Some? ==>
              WritesRow(s.db.deliveries, Next(s, a).db.deliveries, s.procs[a.owner].pc, a.input.Go? && TokenPasses(s, s.procs[a.owner].token))
    ensures a.Follow? && TouchedBy(s, a).Some? ==>
              WritesRow(s.db.deliveries, Next(s, a).db.deliveries, s.callbacks[a.id].pc, a.input.Go? && TokenPasses(s, s.callbacks[a.id].token))
  {
    hide StepProc, Followed, TokenPasses, WritesRow;
    if a.Step? && TouchedBy(s, a).Some? {
      TouchingStep(s, a.owner, a.input);
    } else if a.Follow? && TouchedBy(s, a).Some? {
      TouchingFollow(s, a.id, a.input);
    }
  }

  lemma CallbackRow(db: Ledger, pc: Pc)
    requires CallbackOk(db, pc)
    ensures !pc.Naming? && (pc.Acking? ==> pc.did < |db.deliveries| && db.deliveries[pc.did].response.Some?)
  {
    hide SettleOk;
  }

  lemma FollowerRow(s: State, id: nat)
    requires Inv(s) && id in s.callbacks
    ensures var pc := s.callbacks[id].pc; !pc.Naming? && (pc.Acking? ==> pc.did < |s.db.deliveries| && s.db.deliveries[pc.did].response.Some?)
  {
    CallbackAt(s, id) by { InvParts(s); }
    CallbackRow(s.db, s.callbacks[id].pc);
    hide Inv, CallbackOk;
  }

  lemma DroppedRow(db: Ledger, db': Ledger, did: nat)
    requires LedgerOk(db) && Grows(db, db') && did < |db.deliveries|
    ensures did < |db'.deliveries| && (db.deliveries[did].response.Some? ==> db'.deliveries[did].response.Some?)
    ensures RowMoves(db.deliveries[did], db'.deliveries[did]) && !LacksResponse(db, did) ==> !LacksResponse(db', did)
  {
    Row(db, did);
    assert AttemptGrows(db.deliveries[did], db'.deliveries[did]);
    hide LedgerOk, Grows, Answers, Deliverable, CancelApplies, RefusalNoted;
  }

  // ---------------------------------------------------------------- one response

  /** A response Record of a delivery in the log. */
  function Responses(db: Ledger, did: nat): set<nat> {
    set k | 1 <= k <= |db.log| && OwnResponse(db, k, did)
  }

  /** In every reachable state, whoever raced whom: at most one Record of the peer has the delivery's response key; a bound response is that
      Record, belongs to a terminal delivery, carries its result and has exactly one evidence row; an acknowledged terminal delivery
      has it, and the Offset has reached its Record, unless a refusal was recorded for it. */
  lemma OneResponse(s0: State, acts: seq<Action>, did: nat)
    requires Initial(s0)
    ensures var db := Run(s0, acts).db;
            && |Responses(db, did)| <= 1
            && multiset(db.evidence)[Note(ResponseAppended, Some(did))]
               == (if did < |db.deliveries| && db.deliveries[did].response.Some? then 1 else 0)
            && (did < |db.deliveries| && db.deliveries[did].response.Some? ==>
                  && Responses(db, did) == {db.deliveries[did].response.value}
                  && db.deliveries[did].certainty.Terminal? && Answers(db, db.deliveries[did].response.value, did))
            && (did < |db.deliveries| && db.deliveries[did].certainty.Terminal? && db.deliveries[did].acked && !RefusalNoted(db, did) ==>
                  db.deliveries[did].response.Some? && db.deliveries[did].position <= db.offset)
  {
    hide Initial, Inv;
    Reachable(s0, acts);
    InvParts(Run(s0, acts));
    var db := Run(s0, acts).db;
    hide Run, SessionsOk, ProcsOk, MarksOk, CallsOk, CallbacksOk;
    KeyOnce(db, did);
    AtMostOne(Responses(db, did));
    if did < |db.deliveries| { Row(db, did); }
    ResponseNotes(db, did);
    hide LedgerOk, Answers, Deliverable, CancelApplies, RefusalNoted;
    if did < |db.deliveries| && db.deliveries[did].response.Some? {
      AnswersOwn(db, db.deliveries[did].response.value, did);
      assert db.deliveries[did].response.value in Responses(db, did);
    }
  }

  lemma KeyOnce(db: Ledger, did: nat)
    requires LedgerOk(db)
    ensures forall j, k :: j in Responses(db, did) && k in Responses(db, did) ==> j == k
  {
    hide AttemptsOk, Ordered, CountsOk, OffsetOk, RetriesOk, ControlsOk, EvidenceOk;
  }

  lemma ResponseNotes(db: Ledger, did: nat)
    requires LedgerOk(db)
    ensures multiset(db.evidence)[Note(ResponseAppended, Some(did))]
            == if did < |db.deliveries| && db.deliveries[did].response.Some? then 1 else 0
  {
    hide AttemptsOk, Ordered, CountsOk, OffsetOk, RetriesOk, ControlsOk, ResponsesOk;
  }

  lemma AnswersOwn(db: Ledger, k: nat, did: nat)
    requires Answers(db, k, did)
    ensures OwnResponse(db, k, did)
  {
  }

  lemma AtMostOne(ks: set<nat>)
    requires forall j, k :: j in ks && k in ks ==> j == k
    ensures |ks| <= 1
  {
    if ks != {} {
      var k :| k in ks;
      assert ks == {k};
    }
  }

  /** However often materialisation is interrupted or repeated: it meets a conflict exactly if another Record of the peer than the
      delivery's response has the key, it is refused by closure exactly if no Record has the key and the Stream is CLOSED, and otherwise
      it leaves exactly one response, the delivery's own. */
  lemma MaterializeExact(s0: State, acts: seq<Action>, did: nat, json: seq<CatchUp.byte>, tokens: nat)
    requires Initial(s0)
    requires did < |Run(s0, acts).db.deliveries| && Run(s0, acts).db.deliveries[did].certainty.Terminal?
    ensures var db := Run(s0, acts).db; var r := AppendResponse(db, did, PayloadOf(db.deliveries[did]), json, tokens);
            && (r == Err(IdempotencyConflict) <==> exists k :: k in Responses(db, did) && !IsResponse(db, k, did))
            && (r == Err(StreamClosed) <==> db.closed && Responses(db, did) == {})
            && (r.Err? ==> r.error.IdempotencyConflict? || r.error.StreamClosed?)
            && (r.Ok? ==> Responses(r.value.0, did) == {r.value.1} && IsResponse(r.value.0, r.value.1, did)
                          && Responses(db, did) <= Responses(r.value.0, did))
  {
    hide Initial, Inv;
    Reachable(s0, acts);
    InvParts(Run(s0, acts));
    var db := Run(s0, acts).db;
    hide Run, SessionsOk, ProcsOk, MarksOk, CallsOk, CallbacksOk;
    MaterializeCases(db, did, json, tokens);
  }

  lemma MaterializeCases(db: Ledger, did: nat, json: seq<CatchUp.byte>, tokens: nat)
    requires LedgerOk(db) && did < |db.deliveries| && db.deliveries[did].certainty.Terminal?
    ensures var r := AppendResponse(db, did, PayloadOf(db.deliveries[did]), json, tokens);
            && (r == Err(IdempotencyConflict) <==> exists k :: k in Responses(db, did) && !IsResponse(db, k, did))
            && (r == Err(StreamClosed) <==> db.closed && Responses(db, did) == {})
            && (r.Err? ==> r.error.IdempotencyConflict? || r.error.StreamClosed?)
            && (r.Ok? ==> Responses(r.value.0, did) == {r.value.1} && IsResponse(r.value.0, r.value.1, did)
                          && Responses(db, did) <= Responses(r.value.0, did))
  {
    hide LedgerOk, Grows, AppendResponse;
    var p := PayloadOf(db.deliveries[did]);
    AppendResponseOk(db, did, p, json, tokens);
    OccupiedIs(db, did);
    var r := AppendResponse(db, did, p, json, tokens);
    if r.Ok? {
      var (db', k) := r.value;
      KeyOnce(db', did);
      AnswersOwn(db', k, did);
      assert k in Responses(db', did);
      ResponsesGrow(db, db', did);
    }
  }

  lemma ResponsesGrow(db: Ledger, db': Ledger, did: nat)
    requires Grows(db, db')
    ensures Responses(db, did) <= Responses(db', did) && (db.closed ==> Responses(db', did) == Responses(db, did))
  {
    forall k | k in Responses(db, did) ensures k in Responses(db', did) {
      assert At(db', k) == At(db, k);
    }
  }

  lemma OccupiedIs(db: Ledger, did: nat)
    requires did < |db.deliveries|
    ensures Occupied(db, did, PayloadOf(db.deliveries[did])) <==> exists k :: k in Responses(db, did) && !IsResponse(db, k, did)
    ensures (forall k: nat :: !OwnResponse(db, k, did)) <==> Responses(db, did) == {}
  {
    if k: nat :| OwnResponse(db, k, did) && !Carries(db, k, PayloadOf(db.deliveries[did])) {
      assert k in Responses(db, did) && !IsResponse(db, k, did);
    }
    if k: nat :| OwnResponse(db, k, did) {
      assert k in Responses(db, did);
    }
  }

  /** Once another Record has the key, every later materialisation conflicts, unless an execution id stored late makes them agree. */
  lemma OccupiedForever(s: State, acts: seq<Action>, did: nat)
    requires Inv(s) && did < |s.db.deliveries| && s.db.deliveries[did].certainty.Terminal?
    requires Occupied(s.db, did, PayloadOf(s.db.deliveries[did])) && NamedInTime(s, acts, did)
    ensures var db := Run(s, acts).db; did < |db.deliveries| && Occupied(db, did, PayloadOf(db.deliveries[did]))
  {
    hide Inv, Run;
    TruthExact(s, acts, did);
    ReadsAtEnd(s, acts, did, PayloadOf(s.db.deliveries[did]));
    RunInv(s, acts);
    var db, p := s.db, PayloadOf(s.db.deliveries[did]);
    var k: nat :| OwnResponse(db, k, did) && !Carries(db, k, p);
    assert At(Run(s, acts).db, k) == At(db, k);
    assert OwnResponse(Run(s, acts).db, k, did) && !Carries(Run(s, acts).db, k, p);
  }

  lemma {:induction false} ReadsAtEnd(s: State, acts: seq<Action>, did: nat, p: Payload)
    requires ReadsThroughout(s, acts, did, p)
    ensures did < |Run(s, acts).db.deliveries| && PayloadOf(Run(s, acts).db.deliveries[did]) == p
    decreases |acts|
  {
    hide Next;
    if acts != [] { ReadsAtEnd(Next(s, acts[0]), acts[1..], did, p); }
  }

  // ---------------------------------------------------------------- where a conflict comes from

  /** Somebody appends under the peer's name and a response key. */
  predicate Squats(s: State, a: Action) {
    a.Append? && a.rec.author == s.db.peer && a.rec.key.ResponseKey?
  }

  /** Nobody else uses the response keys, and no execution id is stored late. */
  ghost predicate Clean(s: State, a: Action) {
    !Squats(s, a) && forall did: nat :: !LateName(s, a, did)
  }

  ghost predicate CleanRun(s: State, acts: seq<Action>)
    decreases |acts|
  {
    acts != [] ==> Clean(s, acts[0]) && CleanRun(Next(s, acts[0]), acts[1..])
  }

  /** The peer's Records under a response key are that delivery's one response. */
  ghost predicate OwnOnly(db: Ledger) {
    forall k: nat, did: nat :: OwnResponse(db, k, did) ==> IsResponse(db, k, did) && db.deliveries[did].certainty.Terminal?
  }

  /** What is about to be appended is what the row says. */
  predicate Current(db: Ledger, pc: Pc) {
    pc.Responding? ==> pc.did < |db.deliveries| && db.deliveries[pc.did].certainty.Terminal? && pc.payload == PayloadOf(db.deliveries[pc.did])
  }

  ghost predicate Genuine(s: State) {
    && OwnOnly(s.db)
    && (forall o :: o in s.procs && Holds(s.kernel, s.procs[o].token) ==> Current(s.db, s.procs[o].pc))
    && (forall id :: id in s.callbacks ==> Current(s.db, s.callbacks[id].pc))
  }

  /** Terminal rows read as before. */
  ghost predicate Steady(db: Ledger, db': Ledger) {
    forall did: nat :: did < |db.deliveries| && db.deliveries[did].certainty.Terminal? ==>
      did < |db'.deliveries| && db'.deliveries[did].certainty.Terminal? && PayloadOf(db'.deliveries[did]) == PayloadOf(db.deliveries[did])
  }

  lemma CleanSteady(s: State, a: Action)
    requires Inv(s) && Clean(s, a)
    ensures Steady(s.db, Next(s, a).db) && Grows(s.db, Next(s, a).db)
  {
    hide Inv, Next, LateName, Grows;
    NextInv(s, a);
    forall did: nat | did < |s.db.deliveries| && s.db.deliveries[did].certainty.Terminal?
      ensures did < |Next(s, a).db.deliveries| && Next(s, a).db.deliveries[did].certainty.Terminal?
              && PayloadOf(Next(s, a).db.deliveries[did]) == PayloadOf(s.db.deliveries[did])
    {
      NamedExactly(s, a, did);
      TerminalStays(s.db, Next(s, a).db, did);
      SameTruth(s.db, Next(s, a).db, did);
    }
  }

  lemma CurrentStays(db: Ledger, db': Ledger, pc: Pc)
    requires Steady(db, db') && Current(db, pc)
    ensures Current(db', pc)
  {
  }

  /** Old response Records stay the responses of their deliveries. */
  lemma OwnStays(db: Ledger, db': Ledger)
    requires OwnOnly(db) && Steady(db, db') && Grows(db, db')
    requires forall k: nat, did: nat :: |db.log| < k && OwnResponse(db', k, did) ==> IsResponse(db', k, did) && db'.deliveries[did].certainty.Terminal?
    ensures OwnOnly(db')
  {
    forall k: nat, did: nat | OwnResponse(db', k, did) ensures IsResponse(db', k, did) && db'.deliveries[did].certainty.Terminal? {
      if k <= |db.log| {
        assert At(db', k) == At(db, k);
        assert IsResponse(db, k, did) && db.deliveries[did].certainty.Terminal?;
      }
    }
  }

  lemma OwnSame(db: Ledger, db': Ledger)
    requires OwnOnly(db) && Steady(db, db') && Grows(db, db') && db'.log == db.log
    ensures OwnOnly(db')
  {
    hide Grows, Steady, OwnOnly, IsResponse;
    OwnStays(db, db');
  }

  lemma OwnAppend(db: Ledger, r: Rec)
    requires OwnOnly(db) && !(r.author == db.peer && r.key.ResponseKey?)
    ensures OwnOnly(AppendRecord(db, r))
  {
    var db' := AppendRecord(db, r);
    forall k: nat, did: nat | OwnResponse(db', k, did) ensures IsResponse(db', k, did) && db'.deliveries[did].certainty.Terminal? {
      assert k <= |db.log|;
      assert At(db', k) == At(db, k);
      assert OwnResponse(db, k, did);
    }
  }

  /** A response appended as the row reads. */
  lemma OwnRespond(db: Ledger, pc: Pc, json: seq<CatchUp.byte>, tokens: nat)
    requires OwnOnly(db) && pc.Responding? && Current(db, pc) && AppendResponse(db, pc.did, pc.payload, json, tokens).Ok?
    ensures OwnOnly(AppendResponse(db, pc.did, pc.payload, json, tokens).value.0)
  {
    var db' := AppendResponse(db, pc.did, pc.payload, json, tokens).value.0;
    forall k: nat, did: nat | OwnResponse(db', k, did) ensures IsResponse(db', k, did) && db'.deliveries[did].certainty.Terminal? {
      if k <= |db.log| {
        assert At(db', k) == At(db, k);
        assert OwnResponse(db, k, did);
      }
    }
  }

  /** A step at a settling counter or in a cycle: what it appends, and what it reads to append next. */
  lemma MoveOwn(db: Ledger, pc: Pc, input: Input, ok: bool, claim: nat, now: real, b: CatchUp.Budget)
    requires OwnOnly(db) && (ok ==> Current(db, pc))
    ensures var m := MoveOf(db, pc, input, ok, claim, now, b);
            !m.Stays? && Grows(db, m.db) && Steady(db, m.db) ==> OwnOnly(m.db)
  {
    MovesRows(db, pc, input, ok, claim, now, b);
    var m := MoveOf(db, pc, input, ok, claim, now, b);
    if pc.Responding? {
      if ok && input.Json? && AppendResponse(db, pc.did, pc.payload, input.json, input.tokens).Ok? { OwnRespond(db, pc, input.json, input.tokens); }
      hide AppendResponse, OwnOnly, Grows, Steady, Current;
    } else {
      hide MoveOf, OwnOnly, Grows, Steady, RowsMove;
      if !m.Stays? && Grows(db, m.db) && Steady(db, m.db) { OwnSame(db, m.db); }
    }
  }

  lemma ReadsRow(db: Ledger, pc: Pc, input: Input, ok: bool, now: real)
    ensures var m := SettleStep(db, pc, input, ok, now);
            m.Goes? && m.pc.Responding? ==> m.db == db && m.pc.did < |db.deliveries| && pc == Materializing(m.pc.did)
                                            && m.pc.payload == PayloadOf(db.deliveries[m.pc.did])
  {
    hide FinalizeTerminal, AppendResponse, BindResponse, NoteCancelled, LoseSession, SettleRefusal, AckCancelled, Ack;
  }

  lemma OthersReadNothing(db: Ledger, pc: Pc, input: Input, ok: bool, claim: nat, now: real, b: CatchUp.Budget)
    ensures var m := StartStep(db, pc, input, ok, claim); m.Goes? ==> !m.pc.Responding?
    ensures var m := GateStep(db, pc, input, ok); m.Goes? ==> !m.pc.Responding?
    ensures var m := SessionStep(db, pc, input, ok, b); m.Goes? ==> !m.pc.Responding?
    ensures var m := InvokeStep(db, pc, input, ok); m.Goes? ==> !m.pc.Responding?
    ensures var m := OffsetStep(db, pc, input, ok); m.Goes? ==> !m.pc.Responding?
  {
    hide PromoteUnresolved, Paused, RetryBlocked, BeginAttempt, RejectSelector, Taint, RefusalOf, FailedBefore, IsControl, Resumable, TurnFor,
         CreateSession, ResumeSession, LoseSession, AdvanceOffset, Tombstone, CancelApplies, MustTake, MarkInvocation, ResolveInvocation,
         Transition, BindExecution;
  }

  lemma MoveReads(db: Ledger, pc: Pc, input: Input, ok: bool, claim: nat, now: real, b: CatchUp.Budget)
    ensures var m := MoveOf(db, pc, input, ok, claim, now, b);
            m.Goes? && m.pc.Responding? ==> m.db == db && m.pc.did < |db.deliveries| && pc == Materializing(m.pc.did)
                                            && m.pc.payload == PayloadOf(db.deliveries[m.pc.did])
  {
    hide StartStep, GateStep, SessionStep, InvokeStep, SettleStep, OffsetStep;
    ReadsRow(db, pc, input, ok, now);
    OthersReadNothing(db, pc, input, ok, claim, now, b);
  }

  lemma MovedGenuine(s: State, owner: string, input: Input)
    requires Inv(s) && Genuine(s) && owner in s.procs
    requires Grows(s.db, MoveProc(s, owner, input).db) && Steady(s.db, MoveProc(s, owner, input).db)
    ensures Genuine(MoveProc(s, owner, input))
  {
    var p := s.procs[owner];
    var m := CycleMove(s, owner, input);
    var s' := MoveProc(s, owner, input);
    MovedIs(s, owner, input);
    if !m.Stays? { LeftParts(s, owner, m); }
    MovedOwn(s, owner, input);
    IdleCurrent(s'.db);
    NextCurrent(s, owner, input);
    hide *;
    if !m.Stays? { OthersCurrent(s, s', owner); }
  }

  lemma MovedOwn(s: State, owner: string, input: Input)
    requires Inv(s) && Genuine(s) && owner in s.procs
    ensures var m := CycleMove(s, owner, input); !m.Stays? && Grows(s.db, m.db) && Steady(s.db, m.db) ==> OwnOnly(m.db)
  {
    var p := s.procs[owner];
    PassesHolds(s, p.token);
    hide Inv, MoveOf, OwnOnly, Steady, Current, Grows, TokenPasses, Holds;
    MoveOwn(s.db, p.pc, input, TokenPasses(s, p.token), p.token.generation, s.kernel.now, s.budget);
  }

  lemma IdleCurrent(db: Ledger)
    ensures Current(db, Idle)
  {
  }

  /** What a cycle reads is current. */
  lemma NextCurrent(s: State, owner: string, input: Input)
    requires Inv(s) && owner in s.procs
    ensures var m := CycleMove(s, owner, input); m.Goes? && Holds(s.kernel, s.procs[owner].token) ==> Current(m.db, m.pc)
  {
    var p := s.procs[owner];
    MoveReads(s.db, p.pc, input, TokenPasses(s, p.token), p.token.generation, s.kernel.now, s.budget);
    hide MoveOf, TokenPasses;
    if Holds(s.kernel, p.token) { OwnView(s, owner); }
    hide Inv, LedgerOk, Holds;
  }

  lemma OthersCurrent(s: State, s': State, owner: string)
    requires Genuine(s) && OwnOnly(s'.db) && Steady(s.db, s'.db) && owner in s.procs && owner in s'.procs
    requires s'.kernel == s.kernel && s'.callbacks == s.callbacks && s'.procs == s.procs[owner := s'.procs[owner]]
    requires s'.procs[owner].token == s.procs[owner].token
    requires Holds(s.kernel, s.procs[owner].token) ==> Current(s'.db, s'.procs[owner].pc)
    ensures Genuine(s')
  {
    hide OwnOnly, Steady, Current, Holds;
    forall o | o in s'.procs && Holds(s'.kernel, s'.procs[o].token) ensures Current(s'.db, s'.procs[o].pc) {
      if o != owner { CurrentStays(s.db, s'.db, s.procs[o].pc); }
    }
    forall id | id in s'.callbacks ensures Current(s'.db, s'.callbacks[id].pc) {
      CurrentStays(s.db, s'.db, s.callbacks[id].pc);
    }
  }

  /** A step that leaves the log, and every program counter that is about to append. */
  lemma GenuineStays(s: State, s': State)
    requires Genuine(s) && Grows(s.db, s'.db) && Steady(s.db, s'.db) && OwnOnly(s'.db)
    requires forall o :: o in s'.procs && s'.procs[o].pc.Responding? ==> o in s.procs && s'.procs[o].pc == s.procs[o].pc
    requires forall o :: o in s'.procs && o in s.procs && Holds(s'.kernel, s'.procs[o].token) ==> Holds(s.kernel, s.procs[o].token)
    requires forall id :: id in s'.callbacks ==>
               s'.callbacks[id].pc.Responding? ==> id in s.callbacks && s'.callbacks[id].pc == s.callbacks[id].pc
    ensures Genuine(s')
  {
    hide OwnOnly, Steady, Current, Holds, Grows;
    forall o | o in s'.procs && Holds(s'.kernel, s'.procs[o].token) ensures Current(s'.db, s'.procs[o].pc) {
      if s'.procs[o].pc.Responding? { CurrentStays(s.db, s'.db, s.procs[o].pc); } else { QuietCurrent(s'.db, s'.procs[o].pc); }
    }
    forall id | id in s'.callbacks ensures Current(s'.db, s'.callbacks[id].pc) {
      if s'.callbacks[id].pc.Responding? { CurrentStays(s.db, s'.db, s.callbacks[id].pc); } else { QuietCurrent(s'.db, s'.callbacks[id].pc); }
    }
  }

  lemma QuietCurrent(db: Ledger, pc: Pc)
    requires !pc.Responding?
    ensures Current(db, pc)
  {
  }

  lemma SteppedGenuine(s: State, owner: string, input: Input)
    requires Inv(s) && Genuine(s) && owner in s.procs
    requires Grows(s.db, StepProc(s, owner, input).db) && Steady(s.db, StepProc(s, owner, input).db)
    ensures Genuine(StepProc(s, owner, input))
  {
    hide Inv, OwnOnly, Steady, Current, Grows, MoveProc, MustTake, Intake, Holds;
    var p := s.procs[owner];
    var s' := StepProc(s, owner, input);
    if s' != MoveProc(s, owner, input) {
      StepRows(s, owner, input);
      if !p.pc.Responding? {
        OwnSame(s.db, s'.db);
        AsideProcs(s, owner, input);
        hide StepProc;
        GenuineStays(s, s');
      }
    } else {
      MovedGenuine(s, owner, input);
    }
  }

  /** Intake, the call and a heartbeat bring no cycle to an append. */
  lemma AsideProcs(s: State, owner: string, input: Input)
    requires owner in s.procs && StepProc(s, owner, input) != MoveProc(s, owner, input)
    ensures Aside(s, StepProc(s, owner, input))
  {
    var p := s.procs[owner];
    hide MoveProc, MustTake, Intake, Claims.Heartbeat, Aside;
    if input.Take? && (p.pc.Sweeping? || p.pc.Scan?) { TakeAside(s, owner, input.lease); }
    if input.Stranded? { IntakeAside(s, input.position, input.lease, Some(p.token)); }
    if p.pc.Live? { BeatAside(s, owner); }
    if p.pc.Armed? { CallAside(s, owner); }
    hide TakeIn, Heartbeat, Call;
  }

  /** The callbacks stay, and a cycle that is about to append was so before, under the same claim. */
  predicate Aside(s: State, s': State) {
    && s'.callbacks == s.callbacks
    && (forall o :: o in s'.procs && s'.procs[o].pc.Responding? ==> o in s.procs && s'.procs[o].pc == s.procs[o].pc)
    && (forall o :: o in s'.procs && o in s.procs && Holds(s'.kernel, s'.procs[o].token) ==> Holds(s.kernel, s.procs[o].token))
  }

  lemma IntakeAside(s: State, position: nat, lease: nat, token: Option<Claims.Token>)
    ensures Aside(s, Intake(s, position, lease, token)) && Intake(s, position, lease, token).procs == s.procs
  {
    IntakeIs(s, position, lease, token);
    hide Intake, Holds;
  }

  lemma TakeAside(s: State, owner: string, lease: nat)
    requires owner in s.procs && (s.procs[owner].pc.Sweeping? || s.procs[owner].pc.Scan?)
    ensures Aside(s, TakeIn(s, owner, lease))
  {
    IntakeIs(s, s.procs[owner].pc.cursor + 1, lease, Some(s.procs[owner].token));
    hide Intake, Holds;
  }

  lemma CallAside(s: State, owner: string)
    requires owner in s.procs && s.procs[owner].pc.Armed?
    ensures Aside(s, Call(s, owner))
  {
    hide Holds;
  }

  lemma BeatAside(s: State, owner: string)
    requires owner in s.procs
    ensures Aside(s, Heartbeat(s, owner))
  {
  }

  lemma FollowedGenuine(s: State, id: nat, input: Input)
    requires Inv(s) && Genuine(s) && id in s.callbacks
    requires Grows(s.db, Followed(s, id, input).db) && Steady(s.db, Followed(s, id, input).db)
    ensures Genuine(Followed(s, id, input))
  {
    FollowedIs(s, id, input);
    FollowedOwn(s, id, input);
    var m := FollowMove(s, id, input);
    hide *;
    if !m.Stays? { FollowedCurrent(s, m.db, FollowedBy(s, id, m), id) by { FollowersCurrent(s, id, m); } }
  }

  lemma FollowedOwn(s: State, id: nat, input: Input)
    requires Inv(s) && Genuine(s) && id in s.callbacks
    ensures var m := FollowMove(s, id, input);
            !m.Stays? && Grows(s.db, m.db) && Steady(s.db, m.db) ==> OwnOnly(m.db) && (m.Goes? ==> Current(m.db, m.pc))
  {
    var p := s.callbacks[id];
    var ok := TokenPasses(s, p.token);
    var m := FollowMove(s, id, input);
    CallbackAt(s, id) by { InvParts(s); }
    MoveOwn(s.db, p.pc, input, ok, p.token.generation, s.kernel.now, s.budget);
    MoveReads(s.db, p.pc, input, ok, p.token.generation, s.kernel.now, s.budget);
    hide Inv, MoveOf, OwnOnly, Steady, Grows, TokenPasses, SettleOk;
    if m.Goes? && m.pc.Responding? { ReadCurrent(s.db, p.pc, m.pc); }
  }

  lemma FollowersCurrent(s: State, id: nat, m: Move)
    requires id in s.callbacks && !m.Stays? && (m.Goes? ==> Current(m.db, m.pc))
    ensures var next := FollowedBy(s, id, m);
            forall i :: i in next ==> (i in s.callbacks && next[i] == s.callbacks[i]) || Current(m.db, next[i].pc)
  {
    hide Current;
  }

  lemma FollowedCurrent(s: State, db': Ledger, callbacks: map<nat, Proc>, id: nat)
    requires Genuine(s) && OwnOnly(db') && Steady(s.db, db')
    requires forall i :: i in callbacks ==> (i in s.callbacks && callbacks[i] == s.callbacks[i]) || Current(db', callbacks[i].pc)
    ensures Genuine(s.(db := db', callbacks := callbacks))
  {
    hide OwnOnly, Steady, Current, Holds;
    forall o | o in s.procs && Holds(s.kernel, s.procs[o].token) ensures Current(db', s.procs[o].pc) {
      CurrentStays(s.db, db', s.procs[o].pc);
    }
    forall i | i in callbacks ensures Current(db', callbacks[i].pc) {
      if i in s.callbacks { CurrentStays(s.db, db', s.callbacks[i].pc); }
    }
  }

  lemma ReadCurrent(db: Ledger, pc: Pc, pc': Pc)
    requires CallbackOk(db, pc) && pc'.Responding? && pc == Materializing(pc'.did)
    requires pc'.did < |db.deliveries| && pc'.payload == PayloadOf(db.deliveries[pc'.did])
    ensures Current(db, pc')
  {
  }

  lemma KernelGenuine(s: State, s': State)
    requires Inv(s) && Genuine(s) && s'.db == s.db && s'.callbacks == s.callbacks && RowMovesOn(s.kernel, s'.kernel, s.scope)
    requires forall o :: o in s'.procs ==> s'.procs[o].pc.Idle? || (o in s.procs && s'.procs[o] == s.procs[o])
    ensures Genuine(s')
  {
    InvParts(s);
    hide Inv, OwnOnly;
    forall o | o in s'.procs && Holds(s'.kernel, s'.procs[o].token) ensures Current(s'.db, s'.procs[o].pc) {
      if s'.procs[o].pc.Idle? {
        IdleCurrent(s'.db);
      } else {
        assert ProcOk(s, o);
        HoldsBefore(s.kernel, s'.kernel, s.procs[o].token);
        hide View;
      }
    }
  }

  lemma SameGenuine(s: State, s': State)
    requires Genuine(s) && Grows(s.db, s'.db) && Steady(s.db, s'.db) && OwnOnly(s'.db)
    requires s'.procs == s.procs && s'.kernel == s.kernel
    requires forall id :: id in s'.callbacks ==>
               s'.callbacks[id].pc.Responding? ==> id in s.callbacks && s'.callbacks[id].pc == s.callbacks[id].pc
    ensures Genuine(s')
  {
    hide OwnOnly, Steady, Grows, Genuine;
    GenuineStays(s, s');
  }

  lemma CalledGenuine(s: State, id: nat, token: Claims.Token, did: nat, value: string, vendor: Option<string>)
    requires Inv(s) && Genuine(s)
    requires var s' := Called(s, id, token, did, value, vendor); Grows(s.db, s'.db) && Steady(s.db, s'.db)
    ensures Genuine(Called(s, id, token, did, value, vendor))
  {
    var s' := Called(s, id, token, did, value, vendor);
    CalledRows(s, id, token, did, value, vendor);
    CalledIs(s, id, token, did, value, vendor);
    CalledShape(s, id, token, did, value, vendor);
    GenuineOwn(s);
    hide *;
    OwnSame(s.db, s'.db);
    SameGenuine(s, s');
  }

  lemma GenuineOwn(s: State)
    requires Genuine(s)
    ensures OwnOnly(s.db)
  {
    hide OwnOnly, Current, Holds;
  }

  lemma CalledShape(s: State, id: nat, token: Claims.Token, did: nat, value: string, vendor: Option<string>)
    ensures var s' := Called(s, id, token, did, value, vendor);
            s'.procs == s.procs && s'.kernel == s.kernel
            && forall i :: i in s'.callbacks ==>
                 s'.callbacks[i].pc.Responding? ==> i in s.callbacks && s'.callbacks[i].pc == s.callbacks[i].pc
  {
    CalledIs(s, id, token, did, value, vendor);
    hide Called, FinalizeTerminal, Unproven, Ended, TokenPasses;
  }

  lemma HandledGenuine(s: State, a: Action)
    requires Inv(s) && Genuine(s) && Grows(s.db, StepHandler(s, a).db) && Steady(s.db, StepHandler(s, a).db)
    ensures Genuine(StepHandler(s, a))
  {
    var s' := StepHandler(s, a);
    HandlerRows(s, a);
    HandlerShape(s, a);
    GenuineOwn(s);
    hide *;
    OwnSame(s.db, s'.db);
    SameGenuine(s, s');
  }

  lemma HandlerShape(s: State, a: Action)
    ensures var s' := StepHandler(s, a); s'.procs == s.procs && s'.kernel == s.kernel && s'.callbacks == s.callbacks
  {
    hide FenceControl, CompleteControl, Intake;
    if a.Accept? { IntakeIs(s, a.position, a.id, None); }
  }

  /** Clean steps keep the response keys to the deliveries' own responses. */
  lemma NextGenuine(s: State, a: Action)
    requires Inv(s) && Genuine(s) && Clean(s, a)
    ensures Genuine(Next(s, a))
  {
    CleanSteady(s, a);
    hide Inv, Genuine, OwnOnly, Steady, Grows, Clean, StepProc, StepHandler, Called, Followed, AppendRecord, RegisterRetry;
    match a
    case Append(r) => hide Next; ClientGenuine(s, a);
    case Close => hide Next; ClientGenuine(s, a);
    case Authorize(record) => hide Next; ClientGenuine(s, a);
    case Kernel(act) => hide Next; ClaimGenuine(s, a);
    case Begin(owner, lease, workspace) => hide Next; ClaimGenuine(s, a);
    case Crash(owner) => hide Next; ClaimGenuine(s, a);
    case Step(owner, input) => if owner in s.procs { SteppedGenuine(s, owner, input); }
    case Callback(id, token, did, value, vendor) => CalledGenuine(s, id, token, did, value, vendor);
    case Follow(id, input) => if id in s.callbacks { FollowedGenuine(s, id, input); }
    case Lapse(id) => hide Next; LapseGenuine(s, id);
    case _ => HandledGenuine(s, a);
  }

  lemma LapseGenuine(s: State, id: nat)
    requires Genuine(s) && Steady(s.db, s.db)
    ensures Genuine(Next(s, Lapse(id)))
  {
    GenuineOwn(s);
    SelfGrows(s.db);
    hide Genuine, OwnOnly, Steady, Grows;
    SameGenuine(s, s.(callbacks := s.callbacks - {id}));
  }

  lemma ClientGenuine(s: State, a: Action)
    requires Genuine(s) && Clean(s, a) && (a.Append? || a.Close? || a.Authorize?)
    requires Grows(s.db, Next(s, a).db) && Steady(s.db, Next(s, a).db)
    ensures Genuine(Next(s, a))
  {
    GenuineOwn(s);
    var s' := Next(s, a);
    hide Genuine, OwnOnly, Steady, Grows, LateName, AppendRecord, RegisterRetry;
    if a.Append? {
      OwnAppend(s.db, a.rec);
    } else {
      if a.Authorize? && RegisterRetry(s.db, a.record).Ok? { RegisteredIs(s.db, a.record); }
      OwnSame(s.db, s'.db);
    }
    SameGenuine(s, s');
  }

  lemma ClaimGenuine(s: State, a: Action)
    requires Inv(s) && Genuine(s) && (a.Kernel? || a.Begin? || a.Crash?)
    ensures Genuine(Next(s, a))
  {
    hide Inv, Genuine;
    if a.Begin? {
      hide Next;
      if Next(s, a) != s { BegunGenuine(s, a.owner, a.lease, a.workspace); }
    } else {
      if a.Kernel? && !a.act.Restore? { KernelMovesOn(s.kernel, a.act, s.scope); }
      KernelGenuine(s, Next(s, a));
    }
  }

  lemma BegunGenuine(s: State, owner: string, lease: real, workspace: string)
    requires Inv(s) && Genuine(s) && Next(s, Begin(owner, lease, workspace)) != s
    ensures Genuine(Next(s, Begin(owner, lease, workspace)))
  {
    hide Inv, Genuine, Claims.Acquire;
    AcquireMovesOn(s.kernel, s.scope, owner, lease, workspace);
    KernelGenuine(s, Next(s, Begin(owner, lease, workspace)));
  }

  lemma {:induction false} RunGenuine(s: State, acts: seq<Action>)
    requires Inv(s) && Genuine(s) && CleanRun(s, acts)
    ensures Genuine(Run(s, acts))
    decreases |acts|
  {
    hide Inv, Genuine, Next, Clean;
    if acts != [] {
      NextGenuine(s, acts[0]);
      NextInv(s, acts[0]);
      RunGenuine(Next(s, acts[0]), acts[1..]);
    }
  }

  /** As long as nobody else appends under the peer's name and a response key, and no execution id is stored late: a Record under a response
      key is the exact response of its terminal delivery, so no materialisation ever meets a conflict. */
  lemma NoConflictWhenClean(s0: State, acts: seq<Action>, did: nat)
    requires Initial(s0) && CleanRun(s0, acts)
    ensures var db := Run(s0, acts).db;
            forall k :: k in Responses(db, did) ==> IsResponse(db, k, did) && db.deliveries[did].certainty.Terminal?
  {
    hide Inv, Next;
    InitialInv(s0);
    assert Genuine(s0);
    RunGenuine(s0, acts);
    hide Run, Initial, CleanRun;
    assert OwnOnly(Run(s0, acts).db);
  }
}
