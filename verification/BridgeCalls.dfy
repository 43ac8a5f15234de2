/**
 Invocation markers and calls of the runtime: a call is always covered by its own marker.
 */
module BridgeCalls {
  import opened Wrappers
  import opened BridgeLedger
  import opened BridgeContext
  import opened BridgeInvariant
  import opened BridgeMachine
  import opened BridgeSafety
  import CatchUp

  /** The marker a cycle has written and not yet invoked under. */
  function Pending(pc: Pc): Option<Mark> {
    match pc
    case Gate(site) => SiteMark(site)
    case Sweeping(_, site) => SiteMark(site)
    case Swept(site) => SiteMark(site)
    case Unpaused(site) => SiteMark(site)
    case Halting(t, n, _) => Some(Mark(t.did, n))
    case Cleared(t, n) => Some(Mark(t.did, n))
    case Armed(t, n) => Some(Mark(t.did, n))
    case _ => None
  }

  function SiteMark(site: Site): Option<Mark> {
    match site
    case AtMarked(t, n) => Some(Mark(t.did, n))
    case _ => None
  }

  /** The marker a cycle has invoked under, with no start evidence yet. */
  function Invoked(pc: Pc): Option<Mark> {
    match pc
    case Live(t, n, started) => if started then None else Some(Mark(t.did, n))
    case _ => None
  }

  /** The marker a step from this program counter may resolve. */
  function Resolving(pc: Pc): Option<Mark> {
    match pc
    case Halting(t, n, _) => Some(Mark(t.did, n))
    case _ => Invoked(pc)
  }

  predicate HasMarker(db: Ledger, m: Mark) {
    m.did < |db.deliveries| && m.n < |db.deliveries[m.did].markers|
  }

  function MarkerAt(db: Ledger, m: Mark): Marker
    requires HasMarker(db, m)
  {
    db.deliveries[m.did].markers[m.n]
  }

  /** The runtime may have acted, or may yet act, under this marker. */
  predicate Covers(db: Ledger, m: Mark) {
    HasMarker(db, m) && (MarkerAt(db, m).Open? || MarkerAt(db, m).Promoted?)
  }

  predicate NotHalt(db: Ledger, m: Mark) {
    HasMarker(db, m) && !MarkerAt(db, m).ControlHalt?
  }

  /** Markers are only added, promoted, or - the one the step is about - resolved. */
  ghost predicate MarkersMove(db: Ledger, db': Ledger, except: Option<Mark>) {
    forall m :: HasMarker(db, m) ==>
      HasMarker(db', m)
      && (except == Some(m) || MarkerAt(db', m) == MarkerAt(db, m) || (MarkerAt(db, m).Open? && MarkerAt(db', m).Promoted?))
  }

  ghost predicate MoveMarks(db: Ledger, pc: Pc, m: Move) {
    && (!m.Stays? ==> MarkersMove(db, m.db, Resolving(pc)))
    && (!m.Stays? && Invoked(pc).Some? && NotHalt(db, Invoked(pc).value) ==> NotHalt(m.db, Invoked(pc).value))
    && (m.Goes? ==>
          && Invoked(m.pc).None?
          && (pc.Halting? ==> Pending(m.pc).None?)
          && (Pending(m.pc).Some? && Pending(m.pc) != Pending(pc) ==>
                pc.Passed? && !HasMarker(db, Pending(m.pc).value) && Covers(m.db, Pending(m.pc).value)))
  }

  lemma SameMarkers(db: Ledger, db': Ledger)
    requires |db.deliveries| <= |db'.deliveries|
    requires forall i :: 0 <= i < |db.deliveries| ==> db'.deliveries[i].markers == db.deliveries[i].markers
    ensures MarkersMove(db, db', None)
  {
  }

  lemma MarkersWeaken(db: Ledger, db': Ledger, e: Option<Mark>)
    requires MarkersMove(db, db', None)
    ensures MarkersMove(db, db', e)
  {
  }

  lemma MarkersTrans(a: Ledger, b: Ledger, c: Ledger)
    requires MarkersMove(a, b, None) && MarkersMove(b, c, None)
    ensures MarkersMove(a, c, None)
  {
    forall m | HasMarker(a, m)
      ensures HasMarker(c, m)
      ensures MarkerAt(c, m) == MarkerAt(a, m) || (MarkerAt(a, m).Open? && MarkerAt(c, m).Promoted?)
    {
      assert HasMarker(b, m) && HasMarker(c, m);
    }
  }

  lemma PromoteOneMarks(db: Ledger, did: nat)
    requires did < |db.deliveries|
    ensures MarkersMove(db, PromoteOne(db, did), None)
  {
    hide Taint, LastOpen;
    var db' := PromoteOne(db, did);
    forall m | HasMarker(db, m)
      ensures HasMarker(db', m)
      ensures MarkerAt(db', m) == MarkerAt(db, m) || (MarkerAt(db, m).Open? && MarkerAt(db', m).Promoted?)
    {
      assert m.did != did ==> db'.deliveries[m.did] == db.deliveries[m.did];
    }
  }

  lemma {:induction false} PromoteMarks(db: Ledger, n: nat)
    requires n <= |db.deliveries|
    ensures MarkersMove(db, PromoteFirst(db, n), None)
    decreases n
  {
    hide PromoteOne;
    if n == 0 {
      SameMarkers(db, db);
    } else {
      PromoteMarks(db, n - 1);
      PromoteOneMarks(PromoteFirst(db, n - 1), n - 1);
      MarkersTrans(db, PromoteFirst(db, n - 1), PromoteFirst(db, n));
    }
  }

  lemma RejectMarks(db: Ledger)
    ensures forall did: nat, code :: RejectSelector(db, did, code).Ok? ==> MarkersMove(db, RejectSelector(db, did, code).value, None)
  {
    forall did: nat, code | RejectSelector(db, did, code).Ok? ensures MarkersMove(db, RejectSelector(db, did, code).value, None) {
      SameMarkers(db, RejectSelector(db, did, code).value);
    }
  }

  lemma BeginMarks(db: Ledger, position: nat, retry: Option<nat>, claim: nat)
    ensures BeginAttempt(db, position, retry, claim).Ok? ==> MarkersMove(db, BeginAttempt(db, position, retry, claim).value.0, None)
  {
    if BeginAttempt(db, position, retry, claim).Ok? {
      SameMarkers(db, BeginAttempt(db, position, retry, claim).value.0);
    }
  }

  /** A step that neither writes nor resolves a marker. */
  ghost predicate Unmarked(db: Ledger, pc: Pc, m: Move) {
    !m.Stays? ==> MarkersMove(db, m.db, None) && (m.Goes? ==> Invoked(m.pc).None? && (Pending(m.pc).Some? ==> Pending(m.pc) == Pending(pc)))
  }

  lemma UnmarkedIs(db: Ledger, pc: Pc, m: Move)
    requires Unmarked(db, pc, m) && (m.Goes? && pc.Halting? ==> Pending(m.pc).None?)
    ensures MoveMarks(db, pc, m)
  {
    hide HasMarker;
    if !m.Stays? {
      MarkersWeaken(db, m.db, Resolving(pc));
      NotHalted(db, m.db);
    }
    hide MarkersMove;
  }

  lemma InspectMarks(db: Ledger, ok: bool, input: Input)
    ensures Unmarked(db, Swept(AtStart), Inspect(db, ok, input))
  {
    hide Paused, RetryBlocked, RejectSelector, Taint, RefusalOf, FailedBefore, MarkersMove, HasMarker;
    SameMarkers(db, db);
    RejectMarks(db);
    if Inflight(db).Some? {
      SameMarkers(db, db.(sessions := Taint(db.sessions, db.deliveries[Inflight(db).value].session)));
    }
  }

  lemma StartMarks(db: Ledger, pc: Pc, input: Input, ok: bool, claim: nat)
    ensures Unmarked(db, pc, StartStep(db, pc, input, ok, claim))
  {
    hide PromoteUnresolved, Paused, RetryBlocked, BeginAttempt, IsControl, MarkersMove, HasMarker, Inspect;
    SameMarkers(db, db);
    match pc
    case Idle =>
      PromoteMarks(db, |db.deliveries|);
      assert PromoteUnresolved(db) == PromoteFirst(db, |db.deliveries|) by { PromoteIs(db); }
    case Swept(AtStart) => InspectMarks(db, ok, input);
    case Chosen(position, retry) => BeginMarks(db, position, retry, claim);
    case _ =>
  }

  lemma GateMarks(db: Ledger, pc: Pc, input: Input, ok: bool)
    ensures Unmarked(db, pc, GateStep(db, pc, input, ok))
  {
    hide Paused, RejectSelector, MustTake, CancelApplies, MarkersMove, HasMarker;
    SameMarkers(db, db);
    RejectMarks(db);
  }

  lemma SessionMarks(db: Ledger, pc: Pc, input: Input, ok: bool, b: CatchUp.Budget)
    ensures Unmarked(db, pc, SessionStep(db, pc, input, ok, b))
  {
    hide TurnFor, RejectSelector, NativeDelta, LocalDelta, MarkersMove, HasMarker, CreateSession, ResumeSession;
    SameMarkers(db, db);
    RejectMarks(db);
    match pc
    case Admitted(did) =>
      if input.Prune? { SameMarkers(db, Tombstone(db, input.session)); }
      if input.ResumeFails? { SameMarkers(db, LoseSession(db, input.session)); }
      if input.Resume? && input.session < |db.sessions| && ResumeSession(db, did, input.session).Ok? {
        ResumeMarks(db, did, input.session);
      }
    case Creating(did) => if input.Create? && CreateSession(db, did, input.cli).Ok? { CreateMarks(db, did, input.cli); }
    case _ =>
  }

  lemma ResumeMarks(db: Ledger, did: nat, g: nat)
    requires g < |db.sessions| && ResumeSession(db, did, g).Ok?
    ensures MarkersMove(db, ResumeSession(db, did, g).value, None)
  {
    SameMarkers(db, ResumeSession(db, did, g).value);
  }

  lemma CreateMarks(db: Ledger, did: nat, cli: bool)
    requires CreateSession(db, did, cli).Ok?
    ensures MarkersMove(db, CreateSession(db, did, cli).value, None)
  {
    SameMarkers(db, CreateSession(db, did, cli).value);
  }

  // ---------------------------------------------------------------- writing and resolving a marker

  lemma MarkMarks(db: Ledger, did: nat)
    requires MarkInvocation(db, did).Ok?
    ensures var db' := MarkInvocation(db, did).value; var m := Mark(did, |db.deliveries[did].markers|);
            MarkersMove(db, db', None) && !HasMarker(db, m) && Covers(db', m)
  {
    var db' := MarkInvocation(db, did).value;
    forall m | HasMarker(db, m) ensures HasMarker(db', m) && MarkerAt(db', m) == MarkerAt(db, m) {
      assert m.did != did ==> db'.deliveries[m.did] == db.deliveries[m.did];
    }
  }

  lemma ResolveMarks(db: Ledger, unproven: set<nat>, t: Turn, n: nat, reason: Marker)
    requires LedgerOk(db) && Marked(db, unproven, t, n) && ResolveInvocation(db, t.did, reason).Ok?
    ensures var db' := ResolveInvocation(db, t.did, reason).value;
            MarkersMove(db, db', Some(Mark(t.did, n))) && HasMarker(db', Mark(t.did, n)) && MarkerAt(db', Mark(t.did, n)) == reason
  {
    MarkedOpen(db, unproven, t, n);
    hide LedgerOk, TurnRow, LastOpen;
    var db' := ResolveInvocation(db, t.did, reason).value;
    forall m | HasMarker(db, m) ensures HasMarker(db', m) && (m == Mark(t.did, n) || MarkerAt(db', m) == MarkerAt(db, m)) {
      assert m.did != t.did ==> db'.deliveries[m.did] == db.deliveries[m.did];
    }
  }

  lemma TransitionMarks(db: Ledger, did: nat, to: Certainty, event: Event)
    ensures Transition(db, did, to, event).Ok? ==> MarkersMove(db, Transition(db, did, to, event).value, None)
  {
    hide Taint;
    if Transition(db, did, to, event).Ok? { SameMarkers(db, Transition(db, did, to, event).value); }
  }

  lemma InvokeMarks(db: Ledger, w: Past, pc: Pc, input: Input, ok: bool)
    requires LedgerOk(db) && (ok ==> View(db, w, pc))
    ensures MoveMarks(db, pc, InvokeStep(db, pc, input, ok))
  {
    match pc
    case Live(t, n, started) => hide InvokeStep, MoveMarks; LiveMarks(db, w, t, n, started, input, ok);
    case Halting(t, n, cancel) => hide InvokeStep, MoveMarks; HaltingMarks(db, w, t, n, cancel, input, ok);
    case Passed(t) => hide InvokeStep, MoveMarks; PassedMarks(db, t, input, ok);
    case _ =>
      OtherMarks(db, pc, input, ok);
      hide MoveMarks, InvokeStep, Unmarked;
      UnmarkedIs(db, pc, InvokeStep(db, pc, input, ok));
  }

  lemma OtherMarks(db: Ledger, pc: Pc, input: Input, ok: bool)
    requires !pc.Live? && !pc.Halting? && !pc.Passed?
    ensures Unmarked(db, pc, InvokeStep(db, pc, input, ok))
  {
    hide HasMarker, MarkersMove, Taint;
    SameMarkers(db, db);
    match pc
    case Naming(t, n, e) => if t.did < |db.deliveries| { SameMarkers(db, BindExecution(db, t.did, e).value); }
    case Ditching(g, tainted) =>
      SameMarkers(db, db.(sessions := Taint(db.sessions, Some(g))));
      SameMarkers(db, LoseSession(db, g));
    case _ =>
  }

  lemma HaltingMarks(db: Ledger, w: Past, t: Turn, n: nat, cancel: bool, input: Input, ok: bool)
    requires LedgerOk(db) && (ok ==> Marked(db, w.unproven, t, n))
    ensures MoveMarks(db, Halting(t, n, cancel), InvokeStep(db, Halting(t, n, cancel), input, ok))
  {
    hide LedgerOk, Marked, HasMarker, MarkersMove, ResolveInvocation;
    SameMarkers(db, db);
    MarkersWeaken(db, db, Some(Mark(t.did, n)));
    if ok && ResolveInvocation(db, t.did, ControlHalt).Ok? { ResolveMarks(db, w.unproven, t, n, ControlHalt); }
  }

  lemma PassedMarks(db: Ledger, t: Turn, input: Input, ok: bool)
    ensures MoveMarks(db, Passed(t), InvokeStep(db, Passed(t), input, ok))
  {
    hide HasMarker, MarkersMove, MarkInvocation, Covers;
    SameMarkers(db, db);
    if MarkInvocation(db, t.did).Ok? {
      MarkRow(db, t.did);
      MarkMarks(db, t.did);
    }
  }

  lemma MarkRow(db: Ledger, did: nat)
    ensures MarkInvocation(db, did).Ok? ==> did < |db.deliveries|
  {
  }

  lemma LiveMarks(db: Ledger, w: Past, t: Turn, n: nat, started: bool, input: Input, ok: bool)
    requires LedgerOk(db) && (ok ==> View(db, w, Live(t, n, started)))
    ensures MoveMarks(db, Live(t, n, started), InvokeStep(db, Live(t, n, started), input, ok))
  {
    hide LedgerOk, Marked, HasMarker, MarkersMove, ResolveInvocation, Transition, WasCalled, Begun;
    SameMarkers(db, db);
    var e := Resolving(Live(t, n, started));
    MarkersWeaken(db, db, e);
    TransitionMarks(db, t.did, Started, StartedNote);
    TransitionMarks(db, t.did, MayHaveStarted, StartUncertain);
    if Transition(db, t.did, Started, StartedNote).Ok? {
      MarkersWeaken(db, Transition(db, t.did, Started, StartedNote).value, e);
      NotHalted(db, Transition(db, t.did, Started, StartedNote).value);
    }
    if Transition(db, t.did, MayHaveStarted, StartUncertain).Ok? {
      MarkersWeaken(db, Transition(db, t.did, MayHaveStarted, StartUncertain).value, e);
      NotHalted(db, Transition(db, t.did, MayHaveStarted, StartUncertain).value);
    }
    if ok && !started && ResolveInvocation(db, t.did, PrespawnFailure).Ok? { ResolveMarks(db, w.unproven, t, n, PrespawnFailure); }
  }

  lemma NotHalted(db: Ledger, db': Ledger)
    requires MarkersMove(db, db', None)
    ensures forall m :: NotHalt(db, m) ==> NotHalt(db', m)
  {
  }

  lemma SettleMarks(db: Ledger, pc: Pc, input: Input, ok: bool, now: real)
    ensures Unmarked(db, pc, SettleStep(db, pc, input, ok, now))
  {
    hide CommitNative, FindKey, HasMarker, MarkersMove, NoteCancelled;
    SameMarkers(db, db);
    var m := SettleStep(db, pc, input, ok, now);
    if !m.Stays? {
      SettleSame(db, pc, input, ok, now);
      SameMarkers(db, m.db);
    }
  }

  lemma SettleSame(db: Ledger, pc: Pc, input: Input, ok: bool, now: real)
    ensures var m := SettleStep(db, pc, input, ok, now);
            !m.Stays? ==> |m.db.deliveries| == |db.deliveries|
                          && forall i :: 0 <= i < |db.deliveries| ==> m.db.deliveries[i].markers == db.deliveries[i].markers
  {
    hide CommitNative, FindKey;
  }

  lemma OffsetMarks(db: Ledger, pc: Pc, input: Input, ok: bool)
    ensures Unmarked(db, pc, OffsetStep(db, pc, input, ok))
  {
    hide HasMarker, MarkersMove;
    SameMarkers(db, db);
    if pc.Advancing? && pc.seen.Some? && AdvanceOffset(db, pc.target, pc.seen.value).Ok? {
      SameMarkers(db, AdvanceOffset(db, pc.target, pc.seen.value).value);
    }
  }

  lemma MovesMark(db: Ledger, w: Past, pc: Pc, input: Input, ok: bool, claim: nat, now: real)
    requires LedgerOk(db) && (ok ==> View(db, w, pc))
    ensures MoveMarks(db, pc, MoveOf(db, pc, input, ok, claim, now, w.budget))
  {
    hide LedgerOk, View, StartStep, GateStep, SessionStep, InvokeStep, SettleStep, OffsetStep, MarkersMove, HasMarker;
    SameMarkers(db, db);
    MarkersWeaken(db, db, Resolving(pc));
    StartMarks(db, pc, input, ok, claim);
    GateMarks(db, pc, input, ok);
    SessionMarks(db, pc, input, ok, w.budget);
    InvokeMarks(db, w, pc, input, ok);
    SettleMarks(db, pc, input, ok, now);
    OffsetMarks(db, pc, input, ok);
    if !MoveMarks(db, pc, MoveOf(db, pc, input, ok, claim, now, w.budget)) {
      UnmarkedIs(db, pc, MoveOf(db, pc, input, ok, claim, now, w.budget));
    }
  }
}
