/**
 The invariant of the whole system, and that every step keeps it.
 */
module BridgeRuns {
  import opened Wrappers
  import opened BridgeLedger
  import opened BridgeContext
  import opened BridgeInvariant
  import opened BridgeMachine
  import opened BridgeSafety
  import opened BridgeSessions
  import opened BridgeCalls
  import Claims
  import CatchUp

  /** The claim row is still the one the token was minted for, expired or not. */
  predicate Holds(kernel: Claims.State, t: Claims.Token) {
    Claims.Matches(Claims.RowOf(kernel, t.scope), t.workspace, t.generation, t.owner)
  }

  ghost predicate ProcOk(s: State, owner: string)
    requires owner in s.procs
  {
    var p := s.procs[owner];
    && p.token.owner == owner && p.token.scope == s.scope
    && s.scope in s.kernel.claims && p.token.generation <= s.kernel.claims[s.scope].generation
    && (Holds(s.kernel, p.token) ==> View(s.db, PastOf(s), p.pc))
  }

  ghost predicate ProcsOk(s: State) {
    forall o :: o in s.procs ==> ProcOk(s, o)
  }

  /** A marker written and not yet invoked under belongs to one cycle, stays open or promoted, and was never called under. */
  ghost predicate MarkOk(s: State, owner: string)
    requires owner in s.procs
  {
    && (Pending(s.procs[owner].pc).Some? ==>
          Covers(s.db, Pending(s.procs[owner].pc).value) && Pending(s.procs[owner].pc).value !in s.calls)
    && (Invoked(s.procs[owner].pc).Some? ==> Invoked(s.procs[owner].pc).value in s.calls)
  }

  ghost predicate MarksOk(s: State) {
    && (forall o :: o in s.procs ==> MarkOk(s, o))
    && (forall o, p :: o in s.procs && p in s.procs && o != p && Pending(s.procs[o].pc).Some? ==>
          Pending(s.procs[o].pc) != Pending(s.procs[p].pc))
  }

  /** The delivery a settling counter is about. */
  function SettledBy(pc: Pc): Option<nat> {
    match pc
    case Materializing(did) => Some(did)
    case Responding(did, _) => Some(did)
    case Binding(did, _) => Some(did)
    case Advancing(_, _, ThenAck(did)) => Some(did)
    case Acking(did) => Some(did)
    case _ => None
  }

  /** A callback is about a terminal delivery, and has bound its response before it goes on, whatever became of its token. */
  ghost predicate CallbackOk(db: Ledger, pc: Pc) {
    SettleOk(db, pc) && SettledBy(pc).Some? && SettledBy(pc).value < |db.deliveries| && RowSettled(db.deliveries[SettledBy(pc).value], pc)
  }

  predicate RowSettled(a: Attempt, pc: Pc) {
    a.certainty.Terminal? && (pc.Advancing? || pc.Acking? ==> a.response.Some?)
  }

  ghost predicate CallbacksOk(s: State) {
    forall id :: id in s.callbacks ==> CallbackOk(s.db, s.callbacks[id].pc)
  }

  ghost predicate CallsOk(s: State) {
    && (forall m :: m in s.turns ==> m in s.calls)
    && (forall m :: m in s.calls ==> NotHalt(s.db, m))
    && (forall i, j :: 0 <= i < j < |s.calls| ==> s.calls[i] != s.calls[j])
  }

  ghost predicate Inv(s: State) {
    LedgerOk(s.db) && SessionsOk(s.db, s.taken, s.unproven) && ProcsOk(s) && MarksOk(s) && CallsOk(s) && CallbacksOk(s)
  }

  lemma InitialInv(s: State)
    requires Initial(s)
    ensures Inv(s)
  {
    assert AttemptsOf(s.db, 0) == {};
    forall k: nat ensures |AttemptsOf(s.db, k)| <= 1 + |RetriesOf(s.db, k)| {
      assert AttemptsOf(s.db, k) == {};
    }
    assert s.db.evidence == [];
  }

  // ---------------------------------------------------------------- the claim

  lemma PassesHolds(s: State, t: Claims.Token)
    ensures TokenPasses(s, t) ==> Holds(s.kernel, t)
  {
  }

  /** At most one cycle holds the claim. */
  lemma OneHolder(s: State, o: string, p: string)
    requires ProcsOk(s) && o in s.procs && p in s.procs && o != p && Holds(s.kernel, s.procs[o].token)
    ensures !Holds(s.kernel, s.procs[p].token)
  {
    assert ProcOk(s, o) && ProcOk(s, p);
    hide View;
  }

  /** A claim row that moves on never comes back to a token it left. */
  predicate RowMovesOn(k: Claims.State, k': Claims.State, scope: Claims.Scope) {
    scope in k.claims ==> scope in k'.claims && Claims.RowFollows(k.claims[scope], k'.claims[scope])
  }

  lemma HoldsBefore(k: Claims.State, k': Claims.State, t: Claims.Token)
    requires t.scope in k.claims && RowMovesOn(k, k', t.scope) && t.generation <= k.claims[t.scope].generation
    ensures t.generation <= k'.claims[t.scope].generation
    ensures Holds(k', t) ==> Holds(k, t)
  {
  }

  lemma KernelMovesOn(k: Claims.State, act: Claims.Action, scope: Claims.Scope)
    requires !act.Restore?
    ensures RowMovesOn(k, Claims.Next(k, act), scope)
  {
    if scope in k.claims {
      Claims.RowsFollow(k, [act], scope);
      assert Claims.Run(k, [act]) == Claims.Next(k, act) by { assert [act][1..] == []; }
    }
  }

  lemma AcquireMovesOn(k: Claims.State, scope: Claims.Scope, owner: string, lease: real, workspace: string)
    requires workspace in k.used && Claims.Acquire(k, scope, owner, lease, workspace).Ok?
    ensures RowMovesOn(k, Claims.Acquire(k, scope, owner, lease, workspace).value.0, scope)
  {
    KernelMovesOn(k, Claims.DoAcquire(scope, owner, lease, workspace), scope);
  }

  // ---------------------------------------------------------------- steps that change the claim only

  lemma KernelStepInv(s: State, k': Claims.State)
    requires Inv(s) && RowMovesOn(s.kernel, k', s.scope)
    ensures Inv(s.(kernel := k'))
  {
    var s' := s.(kernel := k');
    hide LedgerOk, SessionsOk;
    assert ProcsOk(s') by {
      forall o | o in s'.procs ensures ProcOk(s', o) {
        assert ProcOk(s, o);
        HoldsBefore(s.kernel, k', s.procs[o].token);
        hide View;
      }
    }
    assert MarksOk(s') by {
      forall o | o in s'.procs ensures MarkOk(s', o) { assert MarkOk(s, o); }
    }
  }

  lemma BeginInv(s: State, owner: string, lease: real, workspace: string)
    requires Inv(s)
    ensures Inv(Next(s, Begin(owner, lease, workspace)))
  {
    hide Inv, Claims.Acquire;
    var s' := Next(s, Begin(owner, lease, workspace));
    if s' != s {
      var r := Claims.Acquire(s.kernel, s.scope, owner, lease, workspace).value;
      AcquireMovesOn(s.kernel, s.scope, owner, lease, workspace);
      AcquiredToken(s.kernel, s.scope, owner, lease, workspace);
      KernelStepInv(s, r.0);
      BegunInv(s.(kernel := r.0), owner, r.1);
    }
  }

  lemma AcquiredToken(k: Claims.State, scope: Claims.Scope, owner: string, lease: real, workspace: string)
    requires Claims.Acquire(k, scope, owner, lease, workspace).Ok?
    ensures var (k', t) := Claims.Acquire(k, scope, owner, lease, workspace).value;
            t.owner == owner && t.scope == scope && scope in k'.claims && t.generation <= k'.claims[scope].generation
  {
  }

  /** A cycle at rest is promised nothing. */
  lemma BegunInv(s: State, owner: string, t: Claims.Token)
    requires Inv(s) && t.owner == owner && t.scope == s.scope
    requires s.scope in s.kernel.claims && t.generation <= s.kernel.claims[s.scope].generation
    ensures Inv(s.(procs := s.procs[owner := Proc(t, Idle)]))
  {
    hide LedgerOk, SessionsOk, CallbackOk;
    var s' := s.(procs := s.procs[owner := Proc(t, Idle)]);
    IdleView(s.db, PastOf(s));
    hide View;
    forall o | o in s'.procs ensures ProcOk(s', o) {
      if o != owner { assert ProcOk(s, o); }
    }
    forall o | o in s'.procs ensures MarkOk(s', o) {
      if o != owner { assert MarkOk(s, o); }
    }
  }

  lemma LapseInv(s: State, id: nat)
    requires Inv(s)
    ensures Inv(s.(callbacks := s.callbacks - {id}))
  {
    hide LedgerOk, SessionsOk, CallbackOk;
    var s' := s.(callbacks := s.callbacks - {id});
    forall o | o in s'.procs ensures ProcOk(s', o) && MarkOk(s', o) {
      assert ProcOk(s, o) && MarkOk(s, o);
    }
  }

  lemma CrashInv(s: State, owner: string)
    requires Inv(s)
    ensures Inv(s.(procs := s.procs - {owner}))
  {
    hide LedgerOk, SessionsOk;
    var s' := s.(procs := s.procs - {owner});
    forall o | o in s'.procs ensures ProcOk(s', o) && MarkOk(s', o) {
      assert ProcOk(s, o) && MarkOk(s, o);
    }
  }

  // ---------------------------------------------------------------- quiet steps

  lemma CallsStay(s: State, db': Ledger)
    requires CallsOk(s) && MarkersMove(s.db, db', None)
    ensures CallsOk(s.(db := db'))
  {
    NotHalted(s.db, db');
  }

  /** A step beside the cycles keeps every cycle's promise and every callback's. */
  lemma BesideInv(s: State, s': State)
    requires Inv(s) && LedgerOk(s'.db) && SessionsOk(s'.db, s'.taken, s'.unproven) && CallbacksOk(s')
    requires Quiet(s.db, s'.db, s'.unproven) && s.unproven <= s'.unproven
    requires s' == s.(db := s'.db, taken := s'.taken, unproven := s'.unproven, handlers := s'.handlers, callbacks := s'.callbacks)
    ensures Inv(s')
  {
    QuietMarks(s.db, s'.db, s'.unproven);
    assert CallsOk(s') by { CallsStay(s, s'.db); }
    hide LedgerOk, SessionsOk, CallbacksOk, CallsOk;
    assert ProcsOk(s') by { BesideProcs(s, s'); }
    assert MarksOk(s') by {
      hide Quiet;
      forall o | o in s'.procs ensures MarkOk(s', o) { assert MarkOk(s, o); }
    }
  }

  lemma BesideProcs(s: State, s': State)
    requires LedgerOk(s.db) && ProcsOk(s) && Quiet(s.db, s'.db, s'.unproven) && s.unproven <= s'.unproven
    requires s' == s.(db := s'.db, taken := s'.taken, unproven := s'.unproven, handlers := s'.handlers, callbacks := s'.callbacks)
    ensures ProcsOk(s')
  {
    hide LedgerOk, Quiet, View;
    assert Later(PastOf(s), PastOf(s'));
    forall o | o in s'.procs ensures ProcOk(s', o) {
      assert ProcOk(s, o);
      if Holds(s.kernel, s.procs[o].token) { ViewStays(s.db, s'.db, PastOf(s), PastOf(s'), s.procs[o].pc); }
    }
  }

  lemma QuietMarks(db: Ledger, db': Ledger, unproven: set<nat>)
    requires Quiet(db, db', unproven)
    ensures MarkersMove(db, db', None)
  {
    RowsStay(db, db', unproven);
    hide Quiet;
    forall i | 0 <= i < |db.deliveries| ensures db'.deliveries[i].markers == db.deliveries[i].markers {
      assert RowStays(db.deliveries[i], db'.deliveries[i]);
    }
    SameMarkers(db, db');
  }

  lemma CallbackStays(db: Ledger, db': Ledger, pc: Pc)
    requires Grows(db, db') && CallbackOk(db, pc)
    ensures CallbackOk(db', pc)
  {
    SettleOkStays(db, db', pc);
    assert AttemptGrows(db.deliveries[SettledBy(pc).value], db'.deliveries[SettledBy(pc).value]);
    hide SettleOk;
  }

  lemma CallbacksStay(s: State, db': Ledger)
    requires CallbacksOk(s) && Grows(s.db, db')
    ensures forall id :: id in s.callbacks ==> CallbackOk(db', s.callbacks[id].pc)
  {
    hide Grows, CallbackOk;
    forall id | id in s.callbacks ensures CallbackOk(db', s.callbacks[id].pc) {
      CallbackStays(s.db, db', s.callbacks[id].pc);
    }
  }

  lemma QuietFade(db: Ledger, db': Ledger, unproven: set<nat>)
    requires Grows(db, db') && db'.deliveries == db.deliveries && AllFade(db.sessions, db'.sessions)
    ensures Quiet(db, db', unproven)
  {
  }

  /** A step that touches no attempt and at most loses sessions. */
  lemma QuietInv(s: State, db': Ledger, handlers: map<nat, Handler>)
    requires Inv(s) && LedgerOk(db') && Grows(s.db, db') && db'.deliveries == s.db.deliveries && AllFade(s.db.sessions, db'.sessions)
    ensures Inv(s.(db := db', handlers := handlers))
  {
    InvParts(s);
    hide Inv, LedgerOk, SessionsOk, Grows, AllFade, Quiet, Tamed, CallbackOk, CallbacksOk;
    var s' := s.(db := db', handlers := handlers);
    FadeIsTame(s.db.sessions, db'.sessions);
    SessionsStay(s.db, db', s.taken, s.unproven, s.unproven);
    CallbacksStay(s, db');
    assert CallbacksOk(s') by { CallbacksAre(s'); }
    QuietFade(s.db, db', s.unproven);
    BesideInv(s, s');
  }

  lemma CallbacksAre(s: State)
    requires forall id :: id in s.callbacks ==> CallbackOk(s.db, s.callbacks[id].pc)
    ensures CallbacksOk(s)
  {
    hide CallbackOk;
  }

  lemma AppendInv(s: State, r: Rec)
    requires Inv(s)
    ensures Inv(Next(s, Append(r)))
  {
    InvParts(s);
    AppendOk(s.db, r);
    AppendIs(s.db, r);
    SameFades(s.db.sessions);
    hide LedgerOk, Grows, Inv, AllFade, AppendRecord;
    QuietInv(s, AppendRecord(s.db, r), s.handlers);
  }

  lemma AppendIs(db: Ledger, r: Rec)
    ensures AppendRecord(db, r) == db.(log := AppendRecord(db, r).log)
  {
  }

  lemma CloseInv(s: State)
    requires Inv(s)
    ensures Inv(Next(s, Close)) && Grows(s.db, Next(s, Close).db)
  {
    InvParts(s);
    CloseOk(s.db);
    SameFades(s.db.sessions);
    hide LedgerOk, Grows, Inv, AllFade;
    QuietInv(s, s.db.(closed := true), s.handlers);
  }

  lemma AuthorizeInv(s: State, record: nat)
    requires Inv(s)
    ensures Inv(Next(s, Authorize(record))) && Grows(s.db, Next(s, Authorize(record)).db)
  {
    InvParts(s);
    SelfGrows(s.db);
    hide Inv, LedgerOk, Grows, RegisterRetry;
    if RegisterRetry(s.db, record).Ok? {
      RegisterRetryOk(s.db, record);
      RegisteredIs(s.db, record);
      SameFades(s.db.sessions);
      hide AllFade;
      QuietInv(s, RegisterRetry(s.db, record).value, s.handlers);
    }
  }

  lemma RegisteredIs(db: Ledger, record: nat)
    requires RegisterRetry(db, record).Ok?
    ensures var db' := RegisterRetry(db, record).value; db' == db.(retries := db'.retries, evidence := db'.evidence)
  {
  }

  /** Grown, with the attempts as they were, and sessions at most lost. */
  ghost predicate Beside(db: Ledger, db': Ledger) {
    Grows(db, db') && db'.deliveries == db.deliveries && AllFade(db.sessions, db'.sessions)
  }

  lemma AcceptQuiet(db: Ledger, position: nat, lease: Lease, now: real, claim: Option<Claims.Row>, workspace: string)
    requires LedgerOk(db) && AcceptControl(db, position, lease, now, claim, workspace).Ok?
    ensures var db' := AcceptControl(db, position, lease, now, claim, workspace).value.0;
            LedgerOk(db') && Beside(db, db') && position in db'.controls
  {
    hide LedgerOk, Grows, AllFade, Taint, ControlTarget, EffectOf, NoEffectOutcome, IsControl;
    AcceptControlOk(db, position, lease, now, claim, workspace);
    SameFades(db.sessions);
    AnyTaintFades(db.sessions);
  }

  lemma AnyTaintFades(ss: seq<Session>)
    ensures forall g :: AllFade(ss, Taint(ss, g))
  {
    forall g ensures AllFade(ss, Taint(ss, g)) {
      TaintTamed(ss, g);
    }
  }

  lemma IntakeIs(s: State, position: nat, lease: nat, token: Option<Claims.Token>)
    ensures var s' := Intake(s, position, lease, token); s' == s.(db := s'.db, handlers := s'.handlers)
  {
    if lease !in s.handlers {
      var r := AcceptControl(s.db, position, Lease(lease, s.kernel.now + s.lease), s.kernel.now, Claims.RowOf(s.kernel, s.scope),
                             s.kernel.workspace);
      hide AcceptControl;
    }
  }

  lemma IntakeInv(s: State, position: nat, lease: nat, token: Option<Claims.Token>)
    requires Inv(s)
    ensures var s' := Intake(s, position, lease, token);
            Inv(s') && Beside(s.db, s'.db) && s'.procs == s.procs && s'.kernel == s.kernel
            && s' == s.(db := s'.db, handlers := s'.handlers)
            && (lease !in s.handlers && ControlFor(s.db, position) ==> position in s'.db.controls)
  {
    SelfGrows(s.db);
    SameFades(s.db.sessions);
    hide LedgerOk, Grows, Inv, AllFade;
    if lease !in s.handlers {
      var l, now := Lease(lease, s.kernel.now + s.lease), s.kernel.now;
      var claim := Claims.RowOf(s.kernel, s.scope);
      if AcceptControl(s.db, position, l, now, claim, s.kernel.workspace).Ok? {
        assert LedgerOk(s.db) by { InvParts(s); }
        AcceptQuiet(s.db, position, l, now, claim, s.kernel.workspace);
        hide AcceptControl, ControlFor;
        QuietInv(s, AcceptControl(s.db, position, l, now, claim, s.kernel.workspace).value.0, Intake(s, position, lease, token).handlers);
      }
    }
  }

  lemma InvParts(s: State)
    requires Inv(s)
    ensures LedgerOk(s.db) && SessionsOk(s.db, s.taken, s.unproven) && ProcsOk(s) && MarksOk(s) && CallsOk(s) && CallbacksOk(s)
  {
    hide LedgerOk, SessionsOk, ProcsOk, MarksOk, CallsOk, CallbacksOk;
  }

  lemma HandlerInv(s: State, a: Action)
    requires Inv(s)
    ensures Inv(StepHandler(s, a))
  {
    hide LedgerOk;
    match a
    case Accept(position, id) => IntakeInv(s, position, id, None);
    case Complete(id) =>
      if id in s.handlers && s.handlers[id].phase.Completing? {
        var h := s.handlers[id];
        var current := h.token.None? || TokenPasses(s, h.token.value);
        CompleteQuiet(s.db, h.position, id, h.attempts, s.kernel.now, current, h.phase.outcome);
        QuietInv(s, StepHandler(s, a).db, s.handlers - {id});
      }
    case _ =>
      SelfGrows(s.db);
      SameFades(s.db.sessions);
      HandlerOnly(s, a);
      QuietInv(s, s.db, StepHandler(s, a).handlers);
  }

  lemma HandlerOnly(s: State, a: Action)
    requires !a.Accept? && !a.Complete?
    ensures StepHandler(s, a) == s.(handlers := StepHandler(s, a).handlers)
  {
    hide FenceControl;
  }

  lemma CompleteQuiet(db: Ledger, position: nat, id: nat, attempts: nat, now: real, tokenCurrent: bool, outcome: ControlOutcome)
    requires LedgerOk(db)
    ensures var db' := CompleteControl(db, position, id, attempts, now, tokenCurrent, outcome).0; LedgerOk(db') && Beside(db, db')
  {
    CompleteControlOk(db, position, id, attempts, now, tokenCurrent, outcome);
    SameFades(db.sessions);
    hide LedgerOk, Grows, AllFade, HoldsLease;
  }

  // ---------------------------------------------------------------- a cycle's step

  /** The state after `owner` moved. */
  function Moved(s: State, owner: string, db': Ledger, pc: Pc, taken: seq<Turn>, unproven: set<nat>): State
    requires owner in s.procs
  {
    SetPc(s.(db := db', taken := taken, unproven := unproven), owner, pc)
  }

  lemma MovedMarks(s: State, s': State, owner: string, m: Move)
    requires owner in s.procs && MarksOk(s) && CallsOk(s) && MoveMarks(s.db, s.procs[owner].pc, m) && !m.Stays?
    requires s' == Moved(s, owner, m.db, if m.Goes? then m.pc else Idle, s'.taken, s'.unproven)
    ensures MarksOk(s') && CallsOk(s')
  {
    assert MarkOk(s, owner);
    forall o | o in s.procs && o != owner ensures MarkOk(s', o) {
      assert MarkOk(s, o);
      hide NotHalt;
    }
    OwnMark(s, s', owner, m);
    hide MarkOk, MoveMarks, MarkersMove;
  }

  lemma OwnMark(s: State, s': State, owner: string, m: Move)
    requires owner in s.procs && MarksOk(s) && CallsOk(s) && MoveMarks(s.db, s.procs[owner].pc, m) && !m.Stays?
    requires s' == Moved(s, owner, m.db, if m.Goes? then m.pc else Idle, s'.taken, s'.unproven)
    ensures MarkOk(s', owner) && CallsOk(s')
    ensures var pc' := s'.procs[owner].pc;
            forall o :: o in s.procs && o != owner && Pending(pc').Some? ==> Pending(pc') != Pending(s.procs[o].pc)
  {
    var pc' := s'.procs[owner].pc;
    assert MarkOk(s, owner);
    forall c | c in s.calls ensures NotHalt(s'.db, c) {
      assert NotHalt(s.db, c);
    }
    forall o | o in s.procs && o != owner && Pending(pc').Some? ensures Pending(pc') != Pending(s.procs[o].pc) {
      assert MarkOk(s, o);
    }
  }

  /** The current owner's move: no other cycle's promise can depend on what it changes. */
  lemma OwnerMoved(s: State, s': State, owner: string)
    requires owner in s.procs && ProcsOk(s) && owner in s'.procs && s' == Moved(s, owner, s'.db, s'.procs[owner].pc, s'.taken, s'.unproven)
    requires Holds(s.kernel, s.procs[owner].token) && View(s'.db, PastOf(s'), s'.procs[owner].pc)
    ensures ProcsOk(s')
  {
    hide View;
    forall o | o in s'.procs ensures ProcOk(s', o) {
      assert ProcOk(s, o);
      if o != owner { OneHolder(s, owner, o); }
    }
  }

  /** A move that writes nothing, or late evidence only, keeps every promise but its own. */
  lemma OtherMoved(s: State, owner: string, pc': Pc)
    requires owner in s.procs && ProcsOk(s)
    requires Holds(s.kernel, s.procs[owner].token) ==> View(s.db, PastOf(s), pc')
    ensures ProcsOk(SetPc(s, owner, pc'))
  {
    hide View;
    forall o | o in s.procs ensures ProcOk(SetPc(s, owner, pc'), o) {
      assert ProcOk(s, o);
    }
  }

  /** A committed result: the turn that ended is consumed, and the session's claim is backed by it or recorded as unproven. */
  lemma FinalizeSessions(s: State, did: nat, value: string, vendor: Option<string>, turn: Option<Turn>, now: real)
    requires LedgerOk(s.db) && SessionsOk(s.db, s.taken, s.unproven)
    requires turn.Some? ==> turn.value.did == did && WasCalled(s.db, s.turns, turn.value) && TurnRow(s.db, s.unproven, turn.value)
    requires FinalizeTerminal(s.db, did, value, vendor, if turn.Some? then Some(ProvenanceOf(turn.value)) else None, now).Ok?
    ensures var db' := FinalizeTerminal(s.db, did, value, vendor, if turn.Some? then Some(ProvenanceOf(turn.value)) else None, now).value.0;
            SessionsOk(db', s.taken + Ended(s.db, s.turns, did), s.unproven + Unproven(s.db, did, vendor, turn))
  {
    hide LedgerOk, Grows, CommitNative, SessionsOk, Unproven, TurnRow, ProvenanceOf, Tamed, Allowed, WasCalled, Ended;
    var p := if turn.Some? then Some(ProvenanceOf(turn.value)) else None;
    var r := FinalizeTerminal(s.db, did, value, vendor, p, now).value;
    var db' := r.0;
    var unproven' := s.unproven + Unproven(s.db, did, vendor, turn);
    FinalizeOk(s.db, did, value, vendor, p, now);
    FinalizeFirst(s.db, did, value, vendor, p, now);
    if r.1.First? {
      DeliverableAt(s.db, did);
      FirstSessions(s, db', did, vendor, turn);
    } else {
      SameFades(s.db.sessions);
      SessionsStay(s.db, db', s.taken, s.unproven, unproven');
      NothingEnded(s.db, s.turns, did);
      assert s.taken + [] == s.taken;
    }
  }

  lemma FinalizeFirst(db: Ledger, did: nat, value: string, vendor: Option<string>, p: Option<Provenance>, now: real)
    requires FinalizeTerminal(db, did, value, vendor, p, now).Ok?
    ensures did < |db.deliveries| && (FinalizeTerminal(db, did, value, vendor, p, now).value.1.First? <==> !db.deliveries[did].certainty.Terminal?)
  {
    hide CommitNative;
  }

  lemma NothingEnded(db: Ledger, turns: map<Mark, Turn>, did: nat)
    requires did < |db.deliveries| && db.deliveries[did].certainty.Terminal?
    ensures Ended(db, turns, did) == []
  {
  }

  lemma FirstSessions(s: State, db': Ledger, did: nat, vendor: Option<string>, turn: Option<Turn>)
    requires SessionsOk(s.db, s.taken, s.unproven) && did < |s.db.deliveries| && Grows(s.db, db') && db'.log == s.db.log
    requires 1 <= s.db.deliveries[did].position <= |s.db.log| && !s.db.deliveries[did].certainty.Terminal?
    requires turn.Some? ==> turn.value.did == did && WasCalled(s.db, s.turns, turn.value) && TurnRow(s.db, s.unproven, turn.value)
    requires db'.sessions == CommitNative(s.db.sessions, s.db.deliveries[did].session, s.db.deliveries[did].position, vendor,
                                          if turn.Some? then Some(ProvenanceOf(turn.value)) else None)
    ensures SessionsOk(db', s.taken + Ended(s.db, s.turns, did), s.unproven + Unproven(s.db, did, vendor, turn))
  {
    var unproven', taken' := s.unproven + Unproven(s.db, did, vendor, turn), s.taken + Ended(s.db, s.turns, did);
    var g := s.db.deliveries[did].session;
    FedMore(s.taken, Ended(s.db, s.turns, did));
    if turn.Some? { FedLast(s.taken, turn.value); }
    hide FedTo, AllShown;
    CommitLength(s.db.sessions, g, s.db.deliveries[did].position, vendor, if turn.Some? then Some(ProvenanceOf(turn.value)) else None);
    forall h: nat | h < |db'.sessions| ensures SessionOk(db', taken', unproven', h) {
      if g == Some(h) {
        hide CommitNative, SessionOk, FeedOk, HasBeenFed, Unproven, ProvenanceOf, SessionsOk, Grows;
        assert db'.peer == s.db.peer by { PeerStays(s.db, db'); }
        CommitOk(s.db, db', s.taken, taken', s.unproven, did, vendor, turn, h);
      } else {
        assert SessionOk(s.db, s.taken, s.unproven, h);
        CommitKeepsOthers(s.db.sessions, g, s.db.deliveries[did].position, vendor,
                          if turn.Some? then Some(ProvenanceOf(turn.value)) else None, h);
        hide CommitNative, SessionOk, Grows, Unproven;
        SessionStays(s.db, db', s.taken, taken', s.unproven, unproven', h);
      }
    }
  }

  lemma PeerStays(db: Ledger, db': Ledger)
    requires Grows(db, db')
    ensures db'.peer == db.peer
  {
  }

  lemma CommitLength(ss: seq<Session>, g: Option<nat>, position: nat, vendor: Option<string>, p: Option<Provenance>)
    ensures |CommitNative(ss, g, position, vendor, p)| == |ss|
  {
  }

  /** What a move leaves: the ledger it wrote, and, after a committed result, what was consumed and is unproven. */
  function Left(s: State, owner: string, m: Move): State
    requires owner in s.procs && !m.Stays?
  {
    var pc := s.procs[owner].pc;
    if m.Raises? then SetPc(s.(db := m.db), owner, Idle)
    else
      SetPc(if pc.Finalizing? then Concluded(s, m.db, pc.turn.did, pc.vendor, Some(pc.turn)) else s.(db := m.db), owner, m.pc)
  }

  lemma LeftIs(s: State, owner: string, m: Move)
    requires owner in s.procs && !m.Stays?
    ensures var s' := Left(s, owner, m);
            s' == Moved(s, owner, m.db, if m.Goes? then m.pc else Idle, s'.taken, s'.unproven) && s.unproven <= s'.unproven
            && s'.callbacks == s.callbacks && owner in s'.procs && s'.procs[owner].pc == if m.Goes? then m.pc else Idle
  {
    hide Unproven, Ended;
  }

  /** The move a cycle makes next. */
  ghost function CycleMove(s: State, owner: string, input: Input): Move
    requires owner in s.procs
  {
    var p := s.procs[owner];
    MoveOf(s.db, p.pc, input, TokenPasses(s, p.token), p.token.generation, s.kernel.now, s.budget)
  }

  lemma MovedIs(s: State, owner: string, input: Input)
    requires owner in s.procs
    ensures var m := CycleMove(s, owner, input); MoveProc(s, owner, input) == if m.Stays? then s else Left(s, owner, m)
  {
    hide MoveOf, TokenPasses, Unproven, Ended;
  }

  /** What a move changes. */
  lemma LeftParts(s: State, owner: string, m: Move)
    requires owner in s.procs && !m.Stays?
    ensures var s' := Left(s, owner, m); var pc := s.procs[owner].pc;
            && s' == s.(db := m.db, procs := s'.procs, taken := s'.taken, unproven := s'.unproven)
            && s'.procs == s.procs[owner := s.procs[owner].(pc := if m.Goes? then m.pc else Idle)]
            && (s'.taken == s.taken || (pc.Finalizing? && s'.taken == s.taken + Ended(s.db, s.turns, pc.turn.did)))
  {
    hide Unproven, Ended;
  }

  /** A move made with a current token. */
  lemma FencedMoveInv(s: State, owner: string, input: Input)
    requires Inv(s) && owner in s.procs && TokenPasses(s, s.procs[owner].token)
    ensures var p := s.procs[owner];
            var m := MoveOf(s.db, p.pc, input, true, p.token.generation, s.kernel.now, s.budget);
            !m.Stays? ==> Inv(Left(s, owner, m)) && Grows(s.db, m.db)
  {
    var p := s.procs[owner];
    var m := MoveOf(s.db, p.pc, input, true, p.token.generation, s.kernel.now, s.budget);
    hide Inv, LedgerOk, SessionsOk, MarksOk, CallsOk, CallbacksOk, MoveOf, View, MoveMarks, Grows;
    InvParts(s);
    PassesHolds(s, p.token);
    assert ProcOk(s, owner);
    MoveKept(s.db, s.taken, PastOf(s), p.pc, input, p.token.generation, s.kernel.now);
    MovesMark(s.db, PastOf(s), p.pc, input, true, p.token.generation, s.kernel.now);
    if !m.Stays? {
      var s' := Left(s, owner, m);
      LeftIs(s, owner, m);
      IdleView(m.db, PastOf(s));
      ViewLater(m.db, PastOf(s), PastOf(s'), s'.procs[owner].pc) by { KeptOk(s.db, PastOf(s), m); }
      MoveSessions(s, owner, input);
      hide Left, Moved;
      MovedMarks(s, s', owner, m);
      OwnerMoved(s, s', owner);
      hide ProcOk, ProcsOk, Kept;
      KeptOk(s.db, PastOf(s), m);
      MovedCallbacks(s, s', owner);
      InvOf(s');
    }
  }

  lemma MovedCallbacks(s: State, s': State, owner: string)
    requires owner in s.procs && CallbacksOk(s) && Grows(s.db, s'.db) && s'.callbacks == s.callbacks
    ensures CallbacksOk(s')
  {
    hide Grows, CallbackOk, CallbacksOk;
    CallbacksStay(s, s'.db);
    CallbacksAre(s');
  }

  lemma ViewLater(db: Ledger, w: Past, w': Past, pc: Pc)
    requires LedgerOk(db) && Later(w, w') && View(db, w, pc)
    ensures View(db, w', pc)
  {
    SelfGrows(db);
    SameFades(db.sessions);
    QuietFade(db, db, w'.unproven);
    hide LedgerOk, Quiet, View;
    ViewStays(db, db, w, w', pc);
  }

  lemma KeptOk(db: Ledger, w: Past, m: Move)
    requires Kept(db, w, m) && !m.Stays?
    ensures LedgerOk(m.db) && Grows(db, m.db) && (m.Goes? ==> View(m.db, w, m.pc))
  {
    hide LedgerOk, Grows, View;
  }

  lemma IdleView(db: Ledger, w: Past)
    ensures View(db, w, Idle)
  {
  }

  lemma InvOf(s: State)
    requires LedgerOk(s.db) && SessionsOk(s.db, s.taken, s.unproven) && ProcsOk(s) && MarksOk(s) && CallsOk(s) && CallbacksOk(s)
    ensures Inv(s)
  {
    hide LedgerOk, SessionsOk, ProcsOk, MarksOk, CallsOk, CallbacksOk;
  }

  lemma MoveSessions(s: State, owner: string, input: Input)
    requires Inv(s) && owner in s.procs && Holds(s.kernel, s.procs[owner].token)
    ensures var p := s.procs[owner];
            var m := MoveOf(s.db, p.pc, input, true, p.token.generation, s.kernel.now, s.budget);
            !m.Stays? ==> SessionsOk(m.db, Left(s, owner, m).taken, Left(s, owner, m).unproven)
  {
    hide Inv, LedgerOk, SessionsOk, MarksOk, CallsOk, CallbacksOk, View, Unproven, Ended;
    var p := s.procs[owner];
    var m := MoveOf(s.db, p.pc, input, true, p.token.generation, s.kernel.now, s.budget);
    InvParts(s);
    assert ProcOk(s, owner);
    if p.pc.Finalizing? {
      FinalizingSessions(s, p.pc.turn, p.pc.value, p.pc.vendor, input);
      hide FinalizeTerminal;
    } else {
      hide MoveOf;
      MoveKept(s.db, s.taken, PastOf(s), p.pc, input, p.token.generation, s.kernel.now);
      MovesTamed(s.db, p.pc, input, true, p.token.generation, s.kernel.now, s.budget);
      if !m.Stays? {
        KeptOk(s.db, PastOf(s), m);
        hide Kept, Grows, Tamed, ProcsOk;
        SessionsStay(s.db, m.db, s.taken, s.unproven, s.unproven);
      }
    }
  }

  lemma FinalizingSessions(s: State, t: Turn, value: string, vendor: Option<string>, input: Input)
    requires LedgerOk(s.db) && SessionsOk(s.db, s.taken, s.unproven) && View(s.db, PastOf(s), Finalizing(t, value, vendor))
    ensures var m := SettleStep(s.db, Finalizing(t, value, vendor), input, true, s.kernel.now);
            (m.Goes? ==> SessionsOk(m.db, s.taken + Ended(s.db, s.turns, t.did), s.unproven + Unproven(s.db, t.did, vendor, Some(t))))
            && (m.Raises? ==> SessionsOk(m.db, s.taken, s.unproven))
  {
    hide LedgerOk, SessionsOk, FinalizeTerminal, Unproven, TurnRow, WasCalled, Ended;
    var f := FinalizeTerminal(s.db, t.did, value, vendor, Some(ProvenanceOf(t)), s.kernel.now);
    if f.Ok? {
      FinalizeSessions(s, t.did, value, vendor, Some(t), s.kernel.now);
      if f.value.1.Conflict? { ConflictSessions(s, t.did, value, vendor, Some(ProvenanceOf(t))); }
    }
  }

  lemma ConflictSessions(s: State, did: nat, value: string, vendor: Option<string>, p: Option<Provenance>)
    requires LedgerOk(s.db) && SessionsOk(s.db, s.taken, s.unproven)
    requires FinalizeTerminal(s.db, did, value, vendor, p, s.kernel.now).Ok?
             && FinalizeTerminal(s.db, did, value, vendor, p, s.kernel.now).value.1.Conflict?
    ensures SessionsOk(FinalizeTerminal(s.db, did, value, vendor, p, s.kernel.now).value.0, s.taken, s.unproven)
  {
    FinalizeOk(s.db, did, value, vendor, p, s.kernel.now);
    SameFades(s.db.sessions);
    hide LedgerOk, SessionsOk, Grows, CommitNative, Tamed;
    SessionsStay(s.db, FinalizeTerminal(s.db, did, value, vendor, p, s.kernel.now).value.0, s.taken, s.unproven, s.unproven);
  }

  /** A move made without a current token. */
  lemma StaleMoveInv(s: State, owner: string, input: Input)
    requires Inv(s) && owner in s.procs
    ensures var p := s.procs[owner];
            var m := MoveOf(s.db, p.pc, input, false, p.token.generation, s.kernel.now, s.budget);
            !m.Stays? ==> Inv(Left(s, owner, m)) && Grows(s.db, m.db)
  {
    var p := s.procs[owner];
    var m := MoveOf(s.db, p.pc, input, false, p.token.generation, s.kernel.now, s.budget);
    StaleLeft(s, owner, input);
    hide Inv, LedgerOk, SessionsOk, MarksOk, CallsOk, CallbacksOk, MoveOf, View, MoveMarks, Grows, Left;
    InvParts(s);
    assert ProcOk(s, owner);
    StaleMove(s.db, p.pc, input, p.token.generation, s.kernel.now, s.budget);
    MovesMark(s.db, PastOf(s), p.pc, input, false, p.token.generation, s.kernel.now);
    IdleView(s.db, PastOf(s));
    if Holds(s.kernel, p.token) {
      MoveKept(s.db, s.taken, PastOf(s), p.pc, input, p.token.generation, s.kernel.now);
    }
    if !m.Stays? {
      var pc' := if m.Goes? then m.pc else Idle;
      OtherMoved(s, owner, pc');
      MovedMarks(s, Moved(s, owner, m.db, pc', s.taken, s.unproven), owner, m);
      hide ProcOk, ProcsOk, Kept;
      StillOrNoted(s, owner, m.db, pc');
    }
  }

  /** A stale cycle concludes nothing. */
  lemma StaleLeft(s: State, owner: string, input: Input)
    requires owner in s.procs
    ensures var p := s.procs[owner];
            var m := MoveOf(s.db, p.pc, input, false, p.token.generation, s.kernel.now, s.budget);
            !m.Stays? ==> Left(s, owner, m) == Moved(s, owner, m.db, if m.Goes? then m.pc else Idle, s.taken, s.unproven)
  {
    hide StartStep, GateStep, SessionStep, InvokeStep, OffsetStep, FinalizeTerminal, AppendResponse, Unproven, Ended;
  }

  lemma StillOrNoted(s: State, owner: string, db': Ledger, pc': Pc)
    requires owner in s.procs && Inv(s) && ProcsOk(SetPc(s, owner, pc'))
    requires var s' := Moved(s, owner, db', pc', s.taken, s.unproven); MarksOk(s') && CallsOk(s')
    requires db' == s.db || (|db'.evidence| == |s.db.evidence| + 1 && db'.evidence[|s.db.evidence|].event.StaleTerminal?
                             && db' == s.db.(evidence := s.db.evidence + [db'.evidence[|s.db.evidence|]]))
    ensures Inv(Moved(s, owner, db', pc', s.taken, s.unproven)) && Grows(s.db, db')
  {
    InvParts(s);
    SelfGrows(s.db);
    hide Inv, LedgerOk, SessionsOk, ProcsOk, MarksOk, CallsOk, Grows;
    var mid := SetPc(s, owner, pc');
    assert CallbacksOk(mid);
    hide CallbacksOk;
    if db' == s.db {
      assert Moved(s, owner, db', pc', s.taken, s.unproven) == mid;
      InvOf(mid);
    } else {
      NoteOk(s.db, db'.evidence[|s.db.evidence|], s.db.sessions);
      SameFades(s.db.sessions);
      assert MarksOk(mid) && CallsOk(mid) by { SameMarksOk(s, owner, db', pc'); }
      InvOf(mid);
      hide Grows, AllFade;
      QuietInv(mid, db', s.handlers);
    }
  }

  lemma SameMarksOk(s: State, owner: string, db': Ledger, pc': Pc)
    requires owner in s.procs && db'.deliveries == s.db.deliveries
    requires var s' := Moved(s, owner, db', pc', s.taken, s.unproven); MarksOk(s') && CallsOk(s')
    ensures MarksOk(SetPc(s, owner, pc')) && CallsOk(SetPc(s, owner, pc'))
  {
    var moved := Moved(s, owner, db', pc', s.taken, s.unproven);
    forall o | o in s.procs ensures MarkOk(SetPc(s, owner, pc'), o) {
      assert MarkOk(moved, o);
    }
    forall m | m in s.calls ensures NotHalt(s.db, m) {
      assert m in moved.calls && NotHalt(moved.db, m);
    }
  }

  /** `runtime.deliver` is called, with a turn, under a marker never called before. */
  lemma CallInv(s: State, owner: string)
    requires Inv(s) && owner in s.procs && s.procs[owner].pc.Armed?
    ensures Inv(Call(s, owner))
  {
    hide Inv, LedgerOk, SessionsOk, View;
    InvParts(s);
    var s' := Call(s, owner);
    assert s'.db == s.db && s'.unproven == s.unproven && s'.taken == s.taken;
    CallMarks(s, owner);
    CallProcs(s, owner);
    assert CallbacksOk(s');
    hide Call, CallbacksOk;
    InvOf(s');
  }

  lemma CallMarks(s: State, owner: string)
    requires owner in s.procs && s.procs[owner].pc.Armed? && MarksOk(s) && CallsOk(s)
    ensures MarksOk(Call(s, owner)) && CallsOk(Call(s, owner)) && Later(PastOf(s), PastOf(Call(s, owner)))
  {
    var s' := Call(s, owner);
    assert MarkOk(s, owner);
    forall o | o in s.procs ensures MarkOk(s', o) {
      assert MarkOk(s, o);
    }
  }

  lemma CallProcs(s: State, owner: string)
    requires owner in s.procs && s.procs[owner].pc.Armed? && ProcsOk(s) && MarksOk(s) && CallsOk(s) && LedgerOk(s.db)
    ensures ProcsOk(Call(s, owner))
  {
    var s' := Call(s, owner);
    CallMarks(s, owner);
    var t, n := s.procs[owner].pc.turn, s.procs[owner].pc.n;
    hide LedgerOk, MarksOk, CallsOk, View, Later, PastOf;
    forall o | o in s'.procs ensures ProcOk(s', o) {
      assert ProcOk(s, o);
      assert s'.db == s.db && s'.kernel == s.kernel;
      if Holds(s.kernel, s.procs[o].token) {
        if o == owner {
          CalledView(s.db, PastOf(s), PastOf(s'), t, n) by { PastIs(s, owner); }
        } else {
          ViewLater(s.db, PastOf(s), PastOf(s'), s.procs[o].pc);
        }
      }
    }
  }

  lemma PastIs(s: State, owner: string)
    requires owner in s.procs && s.procs[owner].pc.Armed?
    ensures var pc := s.procs[owner].pc; var w := PastOf(Call(s, owner));
            w.turns == s.turns[Mark(pc.turn.did, pc.n) := pc.turn] && w.unproven == s.unproven && PastOf(s).unproven == s.unproven
  {
  }

  lemma CalledView(db: Ledger, w: Past, w': Past, t: Turn, n: nat)
    requires View(db, w, Armed(t, n)) && w'.unproven == w.unproven && Mark(t.did, n) in w'.turns && w'.turns[Mark(t.did, n)] == t
    ensures View(db, w', Live(t, n, false))
  {
    hide FeedOk;
  }

  /** A heartbeat renews the claim or ends the cycle. */
  lemma BeatInv(s: State, owner: string)
    requires Inv(s) && owner in s.procs && s.procs[owner].pc.Live?
    ensures Inv(Heartbeat(s, owner))
  {
    var t := s.procs[owner].token;
    if Claims.Heartbeat(s.kernel, t).Ok? {
      KernelMovesOn(s.kernel, Claims.DoHeartbeat(t), s.scope);
      hide Inv;
      KernelStepInv(s, Claims.Heartbeat(s.kernel, t).value);
    } else {
      InvParts(s);
      hide LedgerOk, SessionsOk;
      IdleView(s.db, PastOf(s));
      OtherMoved(s, owner, Idle);
      QuietPc(s, owner, Idle);
    }
  }

  /** A change of program counter that neither writes nor resolves a marker. */
  lemma QuietPc(s: State, owner: string, pc': Pc)
    requires Inv(s) && owner in s.procs && ProcsOk(SetPc(s, owner, pc'))
    requires Invoked(pc').None? && (Pending(pc').None? || Pending(pc') == Pending(s.procs[owner].pc))
    ensures Inv(SetPc(s, owner, pc'))
  {
    hide LedgerOk, SessionsOk, ProcsOk, Covers, NotHalt, CallbackOk;
    var s' := SetPc(s, owner, pc');
    forall o | o in s'.procs ensures MarkOk(s', o) {
      assert MarkOk(s, o);
    }
  }

  /** Intake by a sweep or a scan: the control is accepted before the cycle looks further. */
  lemma TakeInv(s: State, owner: string, lease: nat)
    requires Inv(s) && owner in s.procs && lease !in s.handlers
    requires (s.procs[owner].pc.Sweeping? || s.procs[owner].pc.Scan?) && MustTake(s.db, s.procs[owner].pc.cursor)
    ensures Inv(TakeIn(s, owner, lease)) && Grows(s.db, TakeIn(s, owner, lease).db)
  {
    hide Inv, Intake, Grows, AllFade, ControlFor;
    var p := s.procs[owner];
    var mid := Intake(s, p.pc.cursor + 1, lease, Some(p.token));
    IntakeInv(s, p.pc.cursor + 1, lease, Some(p.token));
    TakenInv(mid, owner, s.db);
  }

  lemma TakenInv(mid: State, owner: string, before: Ledger)
    requires Inv(mid) && owner in mid.procs && Grows(before, mid.db)
    requires var pc := mid.procs[owner].pc;
             (pc.Sweeping? || pc.Scan?) && MustTake(before, pc.cursor) && pc.cursor + 1 in mid.db.controls
    ensures var pc := mid.procs[owner].pc;
            Inv(SetPc(mid, owner, if pc.Sweeping? then Sweeping(pc.cursor + 1, pc.site) else Advancing(pc.cursor + 1, None, ThenScan)))
  {
    hide Inv, View, Grows, MustTake, ProcsOk, Holds;
    var p := mid.procs[owner];
    var pc' := if p.pc.Sweeping? then Sweeping(p.pc.cursor + 1, p.pc.site) else Advancing(p.pc.cursor + 1, None, ThenScan);
    if Holds(mid.kernel, p.token) {
      OwnView(mid, owner);
      TakenView(mid.db, PastOf(mid), p.pc, pc', before);
    }
    InvProcs(mid);
    OtherMoved(mid, owner, pc');
    QuietPc(mid, owner, pc');
  }

  lemma InvProcs(s: State)
    requires Inv(s)
    ensures ProcsOk(s)
  {
    hide LedgerOk, SessionsOk, ProcsOk, MarksOk, CallsOk, CallbacksOk;
  }

  lemma OwnView(s: State, owner: string)
    requires Inv(s) && owner in s.procs && Holds(s.kernel, s.procs[owner].token)
    ensures LedgerOk(s.db) && View(s.db, PastOf(s), s.procs[owner].pc)
  {
    hide LedgerOk, SessionsOk, MarksOk, CallsOk, CallbacksOk, View;
    assert ProcOk(s, owner);
  }

  lemma TakenView(db: Ledger, w: Past, pc: Pc, pc': Pc, before: Ledger)
    requires LedgerOk(db) && View(db, w, pc) && Grows(before, db) && (pc.Sweeping? || pc.Scan?)
    requires MustTake(before, pc.cursor) && pc.cursor + 1 in db.controls
    requires (pc.Sweeping? && pc' == Sweeping(pc.cursor + 1, pc.site)) || (pc.Scan? && pc' == Advancing(pc.cursor + 1, None, ThenScan))
    ensures View(db, w, pc')
  {
    hide LedgerOk, Accounted, AllAccounted, AtSite, Grows, IsControl, CancelApplies, Recovered;
    if pc.Scan? {
      TakenRow(before, db, pc.cursor);
      AccountedBelow(db, pc.cursor);
      NextAccounted(db, pc.cursor);
    }
  }

  lemma TakenRow(before: Ledger, db: Ledger, cursor: nat)
    requires Grows(before, db) && MustTake(before, cursor)
    ensures cursor < |db.log| && IsControl(At(db, cursor + 1).kind)
  {
    assert before.log <= db.log;
  }

  // ---------------------------------------------------------------- callbacks

  /** A committed result beside a cycle: one row that had started settles, and only a session recorded as unproven changes. */
  lemma FinalizeQuiet(db: Ledger, did: nat, value: string, vendor: Option<string>, now: real, unproven: set<nat>)
    requires LedgerOk(db) && FinalizeTerminal(db, did, value, vendor, None, now).Ok?
    ensures var db' := FinalizeTerminal(db, did, value, vendor, None, now).value.0;
            LedgerOk(db') && Grows(db, db') && Quiet(db, db', unproven + Unproven(db, did, vendor, None))
            && did < |db'.deliveries| && db'.deliveries[did].certainty.Terminal?
  {
    FinalizeOk(db, did, value, vendor, None, now);
    var db' := FinalizeTerminal(db, did, value, vendor, None, now).value.0;
    FinalizeRows(db, did, value, vendor, now);
    FinalizeBinds(db, did, value, vendor, now);
    hide *;
    QuietOf(db, db', unproven + Unproven(db, did, vendor, None));
  }

  lemma QuietOf(db: Ledger, db': Ledger, unproven: set<nat>)
    requires Grows(db, db') && |db'.deliveries| == |db.deliveries| && |db'.sessions| == |db.sessions|
    requires forall i :: 0 <= i < |db.deliveries| ==> RowSettles(db.deliveries[i], db'.deliveries[i])
    requires forall g :: 0 <= g < |db.sessions| ==> Fades(db.sessions[g], db'.sessions[g]) || g in unproven
    ensures Quiet(db, db', unproven)
  {
    hide Grows, RowSettles, Fades;
  }

  lemma FinalizeRows(db: Ledger, did: nat, value: string, vendor: Option<string>, now: real)
    requires FinalizeTerminal(db, did, value, vendor, None, now).Ok?
    ensures var db' := FinalizeTerminal(db, did, value, vendor, None, now).value.0;
            did < |db.deliveries| == |db'.deliveries| && db'.deliveries[did].certainty.Terminal?
            && forall i :: 0 <= i < |db.deliveries| ==> RowSettles(db.deliveries[i], db'.deliveries[i])
  {
    hide CommitNative;
  }

  lemma FinalizeBinds(db: Ledger, did: nat, value: string, vendor: Option<string>, now: real)
    requires FinalizeTerminal(db, did, value, vendor, None, now).Ok?
    ensures var db' := FinalizeTerminal(db, did, value, vendor, None, now).value.0;
            |db'.sessions| == |db.sessions|
            && forall g :: 0 <= g < |db.sessions| ==> Fades(db.sessions[g], db'.sessions[g]) || g in Unproven(db, did, vendor, None)
  {
    FinalizeFirst(db, did, value, vendor, None, now);
    hide CommitNative;
    var db' := FinalizeTerminal(db, did, value, vendor, None, now).value.0;
    var ss' := CommitNative(db.sessions, db.deliveries[did].session, db.deliveries[did].position, vendor, None);
    CommitLength(db.sessions, db.deliveries[did].session, db.deliveries[did].position, vendor, None);
    assert db'.sessions == if db.deliveries[did].certainty.Terminal? then db.sessions else ss';
    hide FinalizeTerminal;
    forall g | 0 <= g < |db.sessions| ensures Fades(db.sessions[g], db'.sessions[g]) || g in Unproven(db, did, vendor, None) {
      CommitBinds(db.sessions, db.deliveries[did].session, db.deliveries[did].position, vendor, g);
    }
  }

  lemma CommitBinds(ss: seq<Session>, g: Option<nat>, position: nat, vendor: Option<string>, h: nat)
    requires h < |ss|
    ensures var ss' := CommitNative(ss, g, position, vendor, None);
            |ss'| == |ss| && (ss'[h] == ss[h] || (g == Some(h) && Usable(ss[h]) && (vendor.Some? || ss[h].vendor.Some?)))
  {
  }

  /** What a callback does: nothing, late evidence, evidence of a conflict, or its result. */
  lemma CalledIs(s: State, id: nat, token: Claims.Token, did: nat, value: string, vendor: Option<string>)
    ensures var s' := Called(s, id, token, did, value, vendor); var f := FinalizeTerminal(s.db, did, value, vendor, None, s.kernel.now);
            if id in s.callbacks || token.scope != s.scope then s' == s
            else if !TokenPasses(s, token) then s' == s.(db := s.db.(evidence := s.db.evidence + [Note(StaleTerminal, Some(did))]))
            else if f.Err? then s' == s
            else if f.value.1.Conflict? then s' == s.(db := f.value.0)
            else s' == Concluded(s, f.value.0, did, vendor, None).(callbacks := s.callbacks[id := Proc(token, Materializing(did))])
  {
    hide FinalizeTerminal, Concluded, TokenPasses;
  }

  lemma CalledFrame(s: State, id: nat, token: Claims.Token, did: nat, value: string, vendor: Option<string>)
    ensures var s' := Called(s, id, token, did, value, vendor);
            s' == s.(db := s'.db, taken := s'.taken, unproven := s'.unproven, callbacks := s'.callbacks)
  {
    CalledIs(s, id, token, did, value, vendor);
    hide Called, FinalizeTerminal, Unproven, Ended, TokenPasses;
  }

  lemma CalledTaken(s: State, id: nat, token: Claims.Token, did: nat, value: string, vendor: Option<string>)
    ensures var s' := Called(s, id, token, did, value, vendor);
            s'.taken == s.taken || s'.taken == s.taken + Ended(s.db, s.turns, did)
  {
    CalledIs(s, id, token, did, value, vendor);
    hide Called, FinalizeTerminal, Unproven, Ended, TokenPasses;
  }

  lemma CalledInv(s: State, id: nat, token: Claims.Token, did: nat, value: string, vendor: Option<string>)
    requires Inv(s)
    ensures Inv(Called(s, id, token, did, value, vendor)) && Grows(s.db, Called(s, id, token, did, value, vendor).db)
  {
    InvParts(s);
    SelfGrows(s.db);
    CalledIs(s, id, token, did, value, vendor);
    hide *;
    if !TokenPasses(s, token) {
      NotedInv(s, did);
    } else if FinalizeTerminal(s.db, did, value, vendor, None, s.kernel.now).Ok? {
      CommittedInv(s, id, token, did, value, vendor);
      CommittedLedger(s, FinalizeTerminal(s.db, did, value, vendor, None, s.kernel.now).value.0, did, vendor);
    }
  }

  lemma CommittedLedger(s: State, db': Ledger, did: nat, vendor: Option<string>)
    ensures Concluded(s, db', did, vendor, None).db == db'
  {
    hide Unproven, Ended;
  }

  lemma NotedInv(s: State, did: nat)
    requires Inv(s)
    ensures var db' := s.db.(evidence := s.db.evidence + [Note(StaleTerminal, Some(did))]); Inv(s.(db := db')) && Grows(s.db, db')
  {
    InvParts(s);
    hide Inv, LedgerOk, Grows;
    NoteOk(s.db, Note(StaleTerminal, Some(did)), s.db.sessions);
    SameFades(s.db.sessions);
    hide AllFade;
    QuietInv(s, s.db.(evidence := s.db.evidence + [Note(StaleTerminal, Some(did))]), s.handlers);
  }

  lemma CommittedInv(s: State, id: nat, token: Claims.Token, did: nat, value: string, vendor: Option<string>)
    requires Inv(s) && FinalizeTerminal(s.db, did, value, vendor, None, s.kernel.now).Ok?
    ensures var f := FinalizeTerminal(s.db, did, value, vendor, None, s.kernel.now).value;
            && Grows(s.db, f.0)
            && (f.1.Conflict? ==> Inv(s.(db := f.0)))
            && Inv(Concluded(s, f.0, did, vendor, None).(callbacks := s.callbacks[id := Proc(token, Materializing(did))]))
  {
    InvParts(s);
    var f := FinalizeTerminal(s.db, did, value, vendor, None, s.kernel.now).value;
    FinalizeQuiet(s.db, did, value, vendor, s.kernel.now, s.unproven);
    FinalizeSessions(s, did, value, vendor, None, s.kernel.now);
    MaterializingOk(f.0, did);
    hide *;
    CommittedBeside(s, f.0, did, vendor, s.callbacks[id := Proc(token, Materializing(did))], id);
    if f.1.Conflict? { ConflictInv(s, did, value, vendor); }
  }

  lemma CommittedBeside(s: State, db': Ledger, did: nat, vendor: Option<string>, callbacks: map<nat, Proc>, id: nat)
    requires Inv(s) && LedgerOk(db') && Grows(s.db, db') && Quiet(s.db, db', s.unproven + Unproven(s.db, did, vendor, None))
    requires SessionsOk(db', s.taken + Ended(s.db, s.turns, did), s.unproven + Unproven(s.db, did, vendor, None))
    requires id in callbacks && callbacks == s.callbacks[id := callbacks[id]] && CallbackOk(db', callbacks[id].pc)
    ensures Inv(Concluded(s, db', did, vendor, None).(callbacks := callbacks))
  {
    InvParts(s);
    hide Inv, LedgerOk, SessionsOk, CallbacksOk, Unproven, Ended, Grows, Quiet, CallbackOk, ProcsOk, MarksOk, CallsOk;
    var s' := Concluded(s, db', did, vendor, None).(callbacks := callbacks);
    CallbacksStay(s, db');
    CallbacksAre(s');
    BesideInv(s, s');
  }

  lemma ConflictInv(s: State, did: nat, value: string, vendor: Option<string>)
    requires Inv(s) && FinalizeTerminal(s.db, did, value, vendor, None, s.kernel.now).Ok?
    requires FinalizeTerminal(s.db, did, value, vendor, None, s.kernel.now).value.1.Conflict?
    ensures Inv(s.(db := FinalizeTerminal(s.db, did, value, vendor, None, s.kernel.now).value.0))
  {
    InvParts(s);
    FinalizeOk(s.db, did, value, vendor, None, s.kernel.now);
    ConflictIs(s.db, did, value, vendor, None, s.kernel.now);
    SameFades(s.db.sessions);
    hide Inv, LedgerOk, Grows, FinalizeTerminal, AllFade;
    QuietInv(s, FinalizeTerminal(s.db, did, value, vendor, None, s.kernel.now).value.0, s.handlers);
  }

  lemma MaterializingOk(db: Ledger, did: nat)
    requires did < |db.deliveries| && db.deliveries[did].certainty.Terminal?
    ensures CallbackOk(db, Materializing(did))
  {
  }

  lemma ConflictIs(db: Ledger, did: nat, value: string, vendor: Option<string>, p: Option<Provenance>, now: real)
    requires FinalizeTerminal(db, did, value, vendor, p, now).Ok? && !FinalizeTerminal(db, did, value, vendor, p, now).value.1.First?
    ensures var db' := FinalizeTerminal(db, did, value, vendor, p, now).value.0; db' == db.(evidence := db'.evidence)
  {
  }

  /** Where a settling counter leads. */
  lemma FollowPc(db: Ledger, pc: Pc, input: Input, ok: bool, claim: nat, now: real, b: CatchUp.Budget)
    requires SettledBy(pc).Some?
    ensures var m := MoveOf(db, pc, input, ok, claim, now, b); m.Goes? ==> m.pc.Idle? || SettledBy(m.pc) == SettledBy(pc)
  {
    hide AppendResponse, BindResponse, AdvanceOffset;
  }

  lemma SettleView(db: Ledger, w: Past, pc: Pc)
    requires SettledBy(pc).Some?
    ensures SettleOk(db, pc) <==> View(db, w, pc)
  {
    hide AllAccounted, Finished, Answers;
  }

  /** A settling step changes nothing but its own terminal row, the log and the Offset. */
  lemma FollowQuiet(db: Ledger, pc: Pc, input: Input, ok: bool, claim: nat, now: real, b: CatchUp.Budget, unproven: set<nat>)
    requires CallbackOk(db, pc)
    ensures var m := MoveOf(db, pc, input, ok, claim, now, b);
            !m.Stays? && Grows(db, m.db) ==> Quiet(db, m.db, unproven) && m.db.sessions == db.sessions
  {
    hide AppendResponse, Grows, AllAccounted, StartStep, GateStep, SessionStep, InvokeStep, FinalizeTerminal, SettleRefusal, NoteCancelled;
    AppendKeepsSessions(db, pc, input);
  }

  /** The move a callback makes next. */
  ghost function FollowMove(s: State, id: nat, input: Input): Move
    requires id in s.callbacks
  {
    var p := s.callbacks[id];
    MoveOf(s.db, p.pc, input, TokenPasses(s, p.token), p.token.generation, s.kernel.now, s.budget)
  }

  /** The callbacks after the move. */
  function FollowedBy(s: State, id: nat, m: Move): map<nat, Proc>
    requires id in s.callbacks
  {
    if m.Goes? && !m.pc.Idle? then s.callbacks[id := s.callbacks[id].(pc := m.pc)] else s.callbacks - {id}
  }

  lemma FollowedIs(s: State, id: nat, input: Input)
    requires id in s.callbacks
    ensures var m := FollowMove(s, id, input);
            Followed(s, id, input) == if m.Stays? then s else s.(db := m.db, callbacks := FollowedBy(s, id, m))
  {
    hide MoveOf;
  }

  lemma FollowedFrame(s: State, id: nat, input: Input)
    requires id in s.callbacks
    ensures var s' := Followed(s, id, input); s' == s.(db := s'.db, callbacks := s'.callbacks)
  {
    FollowedIs(s, id, input);
    hide Followed, FollowMove;
  }

  lemma FollowedInv(s: State, id: nat, input: Input)
    requires Inv(s) && id in s.callbacks
    ensures Inv(Followed(s, id, input)) && Grows(s.db, Followed(s, id, input).db)
  {
    InvParts(s);
    SelfGrows(s.db);
    FollowedIs(s, id, input);
    CallbackAt(s, id);
    FollowKept(s, id, input);
    var m := FollowMove(s, id, input);
    hide *;
    if !m.Stays? {
      FollowUnseen(s, id, input);
      FollowedBeside(s, s.(db := m.db, callbacks := FollowedBy(s, id, m)), id) by { FollowedOthers(s, id, m); }
    }
  }

  lemma FollowUnseen(s: State, id: nat, input: Input)
    requires id in s.callbacks && CallbackOk(s.db, s.callbacks[id].pc)
    ensures var m := FollowMove(s, id, input);
            !m.Stays? && Grows(s.db, m.db) ==> Quiet(s.db, m.db, s.unproven) && m.db.sessions == s.db.sessions
  {
    hide MoveOf, Grows, Quiet, CallbackOk;
    var p := s.callbacks[id];
    FollowQuiet(s.db, p.pc, input, TokenPasses(s, p.token), p.token.generation, s.kernel.now, s.budget, s.unproven);
  }

  lemma FollowedOthers(s: State, id: nat, m: Move)
    requires id in s.callbacks && !m.Stays? && (m.Goes? && !m.pc.Idle? ==> CallbackOk(m.db, m.pc))
    ensures var next := FollowedBy(s, id, m);
            forall i :: i in next ==> (i in s.callbacks && next[i] == s.callbacks[i]) || CallbackOk(m.db, next[i].pc)
  {
    hide CallbackOk;
  }

  lemma FollowedBeside(s: State, s': State, id: nat)
    requires Inv(s) && id in s.callbacks && LedgerOk(s'.db) && Grows(s.db, s'.db) && Quiet(s.db, s'.db, s.unproven)
    requires s'.db.sessions == s.db.sessions && s' == s.(db := s'.db, callbacks := s'.callbacks)
    requires forall i :: i in s'.callbacks ==> (i in s.callbacks && s'.callbacks[i] == s.callbacks[i]) || CallbackOk(s'.db, s'.callbacks[i].pc)
    ensures Inv(s')
  {
    InvParts(s);
    hide Inv, LedgerOk, SessionsOk, CallbacksOk, Grows, Quiet, CallbackOk, ProcsOk, MarksOk, CallsOk, Tamed;
    SameFades(s.db.sessions);
    SessionsStay(s.db, s'.db, s.taken, s.unproven, s.unproven);
    CallbacksStay(s, s'.db);
    CallbacksAre(s');
    BesideInv(s, s');
  }

  lemma CallbackAt(s: State, id: nat)
    requires CallbacksOk(s) && id in s.callbacks
    ensures CallbackOk(s.db, s.callbacks[id].pc)
  {
    hide CallbackOk;
  }

  lemma FollowKept(s: State, id: nat, input: Input)
    requires LedgerOk(s.db) && SessionsOk(s.db, s.taken, s.unproven) && id in s.callbacks && CallbackOk(s.db, s.callbacks[id].pc)
    ensures var m := FollowMove(s, id, input);
            !m.Stays? ==> LedgerOk(m.db) && Grows(s.db, m.db) && (m.Goes? && !m.pc.Idle? ==> CallbackOk(m.db, m.pc))
  {
    var p, w := s.callbacks[id], PastOf(s);
    var ok := TokenPasses(s, p.token);
    var m := FollowMove(s, id, input);
    SettleView(s.db, w, p.pc);
    assert SettledBy(p.pc).Some? && View(s.db, w, p.pc);
    hide LedgerOk, SessionsOk, MoveOf, Grows, View, SettleOk;
    MoveKept(s.db, s.taken, w, p.pc, input, p.token.generation, s.kernel.now);
    FollowPc(s.db, p.pc, input, ok, p.token.generation, s.kernel.now, s.budget);
    SelfGrows(s.db);
    if !ok {
      StaleMove(s.db, p.pc, input, p.token.generation, s.kernel.now, s.budget);
      FollowStale(s.db, p.pc, input, p.token.generation, s.kernel.now, s.budget);
    }
    hide Powerless;
    if m.Goes? && !m.pc.Idle? {
      SettleView(m.db, w, m.pc);
      TerminalStays(s.db, m.db, SettledBy(p.pc).value);
      FollowBinds(s.db, p.pc, input, ok, p.token.generation, s.kernel.now, s.budget);
    }
  }

  /** A settling step goes on past the binding only with a bound response. */
  lemma FollowBinds(db: Ledger, pc: Pc, input: Input, ok: bool, claim: nat, now: real, b: CatchUp.Budget)
    requires SettledBy(pc).Some? && SettledBy(pc).value < |db.deliveries| && RowSettled(db.deliveries[SettledBy(pc).value], pc)
    ensures var m := MoveOf(db, pc, input, ok, claim, now, b); var did := SettledBy(pc).value;
            m.Goes? && (m.pc.Advancing? || m.pc.Acking?) ==> did < |m.db.deliveries| && m.db.deliveries[did].response.Some?
  {
    hide AppendResponse;
  }

  /** Without a current token a settling step writes nothing. */
  lemma FollowStale(db: Ledger, pc: Pc, input: Input, claim: nat, now: real, b: CatchUp.Budget)
    requires SettledBy(pc).Some?
    ensures var m := MoveOf(db, pc, input, false, claim, now, b); !m.Stays? ==> m.db == db
  {
    hide AppendResponse, BindResponse, AdvanceOffset, Ack;
  }

  lemma TerminalStays(db: Ledger, db': Ledger, did: nat)
    requires Grows(db, db') && did < |db.deliveries| && db.deliveries[did].certainty.Terminal?
    ensures did < |db'.deliveries| && db'.deliveries[did].certainty.Terminal?
  {
    assert AttemptGrows(db.deliveries[did], db'.deliveries[did]);
  }

  // ---------------------------------------------------------------- every step, every run

  lemma MoveInv(s: State, owner: string, input: Input)
    requires Inv(s) && owner in s.procs
    ensures Inv(MoveProc(s, owner, input)) && Grows(s.db, MoveProc(s, owner, input).db)
  {
    hide Inv, Grows, MoveOf, Unproven, Ended;
    SelfGrows(s.db);
    if TokenPasses(s, s.procs[owner].token) {
      FencedMoveInv(s, owner, input);
    } else {
      StaleMoveInv(s, owner, input);
    }
  }

  lemma StepInv(s: State, owner: string, input: Input)
    requires Inv(s) && owner in s.procs
    ensures Inv(StepProc(s, owner, input)) && Grows(s.db, StepProc(s, owner, input).db)
  {
    hide Inv, Grows, MoveProc, Intake, TakeIn, Call, Heartbeat, MustTake, ControlFor;
    var p := s.procs[owner];
    if (p.pc.Sweeping? || p.pc.Scan?) && input.Take? && input.lease !in s.handlers && MustTake(s.db, p.pc.cursor) {
      TakeInv(s, owner, input.lease);
    } else if p.pc.Gate? && input.Stranded? {
      StrandedInv(s, owner, input.position, input.lease);
      MoveInv(s, owner, input);
    } else if p.pc.Armed? && input.Go? {
      CallInv(s, owner);
      CallLedger(s, owner);
      SelfGrows(s.db);
    } else if p.pc.Live? && input.Beat? {
      BeatInv(s, owner);
      CallLedger(s, owner);
      SelfGrows(s.db);
    } else {
      MoveInv(s, owner, input);
    }
  }

  lemma StrandedInv(s: State, owner: string, position: nat, lease: nat)
    requires Inv(s) && owner in s.procs
    ensures var s' := Intake(s, position, lease, Some(s.procs[owner].token)); Inv(s') && Grows(s.db, s'.db)
  {
    hide Inv, Intake, Grows;
    IntakeInv(s, position, lease, Some(s.procs[owner].token));
  }

  lemma CallLedger(s: State, owner: string)
    requires owner in s.procs
    ensures s.procs[owner].pc.Armed? ==> Call(s, owner).db == s.db
    ensures Heartbeat(s, owner).db == s.db
  {
  }

  lemma NextInv(s: State, a: Action)
    requires Inv(s)
    ensures Inv(Next(s, a)) && Grows(s.db, Next(s, a).db)
  {
    SelfGrows(s.db);
    hide Inv, Grows, StepProc, StepHandler, AcceptControl, Called, Followed, AppendRecord;
    match a
    case Kernel(act) =>
      if !act.Restore? {
        KernelMovesOn(s.kernel, act, s.scope);
        KernelStepInv(s, Claims.Next(s.kernel, act));
      }
    case Append(r) => AppendInv(s, r); AppendGrows(s, r);
    case Close => CloseInv(s);
    case Authorize(record) => AuthorizeInv(s, record);
    case Begin(owner, lease, workspace) => BeginInv(s, owner, lease, workspace);
    case Crash(owner) => CrashInv(s, owner);
    case Step(owner, input) => if owner in s.procs { StepInv(s, owner, input); }
    case Callback(id, token, did, value, vendor) => CalledInv(s, id, token, did, value, vendor);
    case Follow(id, input) => if id in s.callbacks { FollowedInv(s, id, input); }
    case Lapse(id) => LapseInv(s, id);
    case _ => HandlerInv(s, a); HandlerGrows(s, a);
  }

  lemma AppendGrows(s: State, r: Rec)
    requires Inv(s)
    ensures Grows(s.db, Next(s, Append(r)).db)
  {
    AppendOk(s.db, r);
    hide Inv, LedgerOk, Grows, AppendRecord;
  }

  lemma HandlerGrows(s: State, a: Action)
    requires Inv(s)
    ensures Grows(s.db, StepHandler(s, a).db)
  {
    InvParts(s);
    SelfGrows(s.db);
    hide Inv, LedgerOk, Grows;
    match a
    case Accept(position, id) =>
      IntakeInv(s, position, id, None);
    case Complete(id) =>
      if id in s.handlers && s.handlers[id].phase.Completing? {
        var h := s.handlers[id];
        CompleteControlOk(s.db, h.position, id, h.attempts, s.kernel.now, h.token.None? || TokenPasses(s, h.token.value), h.phase.outcome);
      }
    case _ => HandlerOnly(s, a);
  }

  /** The invariant holds along every run, and nothing durable is ever taken back. */
  lemma {:induction false} RunInv(s: State, acts: seq<Action>)
    requires Inv(s)
    ensures Inv(Run(s, acts)) && Grows(s.db, Run(s, acts).db)
    decreases |acts|
  {
    hide Inv, Grows, Next;
    if acts == [] {
      SelfGrows(s.db);
    } else {
      NextInv(s, acts[0]);
      RunInv(Next(s, acts[0]), acts[1..]);
      GrowsTrans(s.db, Next(s, acts[0]).db, Run(s, acts).db);
    }
  }
}
