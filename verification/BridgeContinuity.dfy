/**
 No context gap: over every run a native session has consumed what its watermark says, unless a turn that is no evidence of its whole
 context bound it; and exactly when such a session has a gap, read from the turns it ended.
 */
module BridgeContinuity {
  import opened Wrappers
  import opened BridgeLedger
  import opened BridgeContext
  import opened BridgeInvariant
  import opened BridgeMachine
  import opened BridgeSafety
  import opened BridgeSessions
  import opened BridgeRuns
  import opened BridgeTheorems
  import Claims
  import CatchUp

  /** Everything up to the watermark was injected or delivered by a turn that ended in a terminal result, except redirects for other peers. */
  ghost predicate NoGap(s: State, g: nat)
    requires g < |s.db.sessions| && s.db.sessions[g].watermark.Some?
  {
    AllShown(s.db, FedTo(s.taken, g), 0, s.db.sessions[g].watermark.value + 1)
  }

  /** A native session that is not lost, with a complete bootstrap, has no gap, unless it was bound unproven. */
  lemma NoContextGap(s0: State, acts: seq<Action>, g: nat)
    requires Initial(s0) && g < |Run(s0, acts).db.sessions|
    requires Proven(Run(s0, acts).db.sessions[g]) && g !in Run(s0, acts).unproven
    ensures NoGap(Run(s0, acts), g)
  {
    hide Initial, Inv;
    Reachable(s0, acts);
    InvParts(Run(s0, acts));
    var s := Run(s0, acts);
    hide Run, AllShown, ProcsOk, MarksOk, CallsOk, CallbacksOk, LedgerOk;
    assert SessionOk(s.db, s.taken, s.unproven, g);
  }

  /** A local turn that reports a vendor session. */
  predicate LocalReport(pc: Pc, input: Input) {
    pc.Live? && Local(pc.turn.mode) && input.TerminalEvent? && input.vendor.Some?
  }

  /** The runtime reports a vendor session only from a bootstrap or a native turn, and results come through the cycle. */
  predicate Provable(s: State, a: Action) {
    !a.Callback? && (a.Step? && a.owner in s.procs ==> !LocalReport(s.procs[a.owner].pc, a.input))
  }

  ghost predicate AllProvable(s: State, acts: seq<Action>)
    decreases |acts|
  {
    acts != [] ==> Provable(s, acts[0]) && AllProvable(Next(s, acts[0]), acts[1..])
  }

  predicate LocalSilent(pc: Pc) {
    pc.Finalizing? && Local(pc.turn.mode) ==> pc.vendor.None?
  }

  ghost predicate AllSilent(s: State) {
    s.unproven == {} && forall o :: o in s.procs ==> LocalSilent(s.procs[o].pc)
  }

  lemma StepSilent(db: Ledger, pc: Pc, input: Input, ok: bool, claim: nat, now: real, b: CatchUp.Budget)
    ensures var m := StartStep(db, pc, input, ok, claim); m.Goes? ==> !m.pc.Finalizing?
    ensures var m := GateStep(db, pc, input, ok); m.Goes? ==> !m.pc.Finalizing?
    ensures var m := SessionStep(db, pc, input, ok, b); m.Goes? ==> !m.pc.Finalizing?
    ensures var m := SettleStep(db, pc, input, ok, now); m.Goes? ==> !m.pc.Finalizing?
    ensures var m := OffsetStep(db, pc, input, ok); m.Goes? ==> !m.pc.Finalizing?
  {
    hide PromoteUnresolved, Paused, RetryBlocked, BeginAttempt, RejectSelector, Taint, RefusalOf, FailedBefore, IsControl, Resumable, TurnFor,
         CreateSession, ResumeSession, LoseSession, FinalizeTerminal, AppendResponse, BindResponse, NoteCancelled, AdvanceOffset,
         Tombstone, SettleRefusal, AckCancelled, Ack, CancelApplies, MustTake;
  }

  lemma InvokeSilent(db: Ledger, pc: Pc, input: Input, ok: bool)
    ensures var m := InvokeStep(db, pc, input, ok);
            m.Goes? && m.pc.Finalizing? ==> pc.Live? && input.TerminalEvent? && m.pc.turn == pc.turn && m.pc.vendor == input.vendor
  {
    hide MarkInvocation, ResolveInvocation, Transition, LoseSession, Taint, BindExecution;
  }

  lemma MoveSilent(db: Ledger, pc: Pc, input: Input, ok: bool, claim: nat, now: real, b: CatchUp.Budget)
    requires LocalSilent(pc) && !LocalReport(pc, input)
    ensures var m := MoveOf(db, pc, input, ok, claim, now, b); m.Goes? ==> LocalSilent(m.pc)
  {
    hide StartStep, GateStep, SessionStep, InvokeStep, SettleStep, OffsetStep;
    StepSilent(db, pc, input, ok, claim, now, b);
    InvokeSilent(db, pc, input, ok);
  }

  /** A local turn that reports no vendor session binds nothing. */
  lemma SilentBindsNothing(s: State, owner: string)
    requires Inv(s) && owner in s.procs && TokenPasses(s, s.procs[owner].token) && s.procs[owner].pc.Finalizing?
    requires LocalSilent(s.procs[owner].pc) && s.unproven == {}
    ensures var pc := s.procs[owner].pc; Unproven(s.db, pc.turn.did, pc.vendor, Some(pc.turn)) == {}
  {
    PassesHolds(s, s.procs[owner].token);
    OwnView(s, owner);
    var pc := s.procs[owner].pc;
    assert PastOf(s).unproven == {};
    hide *;
    SilentUnbound(s.db, PastOf(s), pc);
  }

  lemma SilentUnbound(db: Ledger, w: Past, pc: Pc)
    requires pc.Finalizing? && View(db, w, pc) && LocalSilent(pc) && w.unproven == {}
    ensures Unproven(db, pc.turn.did, pc.vendor, Some(pc.turn)) == {}
  {
    hide AllShown, WasCalled;
  }

  lemma MoveKeepsSilent(s: State, owner: string, input: Input)
    requires Inv(s) && AllSilent(s) && owner in s.procs && !LocalReport(s.procs[owner].pc, input)
    ensures AllSilent(MoveProc(s, owner, input))
  {
    hide MoveOf, Unproven, Ended, Inv, LocalReport;
    var p := s.procs[owner];
    MoveSilent(s.db, p.pc, input, TokenPasses(s, p.token), p.token.generation, s.kernel.now, s.budget);
    if p.pc.Finalizing? && TokenPasses(s, p.token) { SilentBindsNothing(s, owner); }
    StaleFinal(s.db, p.pc, input, p.token.generation, s.kernel.now, s.budget);
  }

  /** A stale cycle commits no result. */
  lemma StaleFinal(db: Ledger, pc: Pc, input: Input, claim: nat, now: real, b: CatchUp.Budget)
    ensures pc.Finalizing? ==> !MoveOf(db, pc, input, false, claim, now, b).Goes?
  {
  }

  lemma StepKeepsSilent(s: State, owner: string, input: Input)
    requires Inv(s) && AllSilent(s) && owner in s.procs && !LocalReport(s.procs[owner].pc, input)
    ensures AllSilent(StepProc(s, owner, input))
  {
    hide MoveProc, MustTake, Intake, Inv, LocalReport;
    var p := s.procs[owner];
    if input.Take? && (p.pc.Sweeping? || p.pc.Scan?) { IntakeProcs(s, p.pc.cursor + 1, input.lease, Some(p.token)); }
    if input.Stranded? { IntakeProcs(s, input.position, input.lease, Some(p.token)); }
    MoveKeepsSilent(s, owner, input);
  }

  lemma IntakeProcs(s: State, position: nat, lease: nat, token: Option<Claims.Token>)
    ensures Intake(s, position, lease, token).procs == s.procs && Intake(s, position, lease, token).unproven == s.unproven
    ensures Intake(s, position, lease, token).callbacks == s.callbacks
  {
    IntakeIs(s, position, lease, token);
    hide Intake;
  }

  lemma NextSilent(s: State, a: Action)
    requires Inv(s) && AllSilent(s) && Provable(s, a)
    ensures AllSilent(Next(s, a))
  {
    hide Inv, StepProc, LocalReport, StepHandler, Intake, Followed, AppendRecord, RegisterRetry;
    if a.Step? {
      if a.owner in s.procs { StepKeepsSilent(s, a.owner, a.input); }
    } else {
      if a.Follow? && a.id in s.callbacks { FollowedFrame(s, a.id, a.input); }
      HandlerProcs(s, a);
    }
  }

  lemma HandlerProcs(s: State, a: Action)
    ensures StepHandler(s, a).procs == s.procs && StepHandler(s, a).unproven == s.unproven && StepHandler(s, a).callbacks == s.callbacks
  {
    hide Intake, FenceControl, CompleteControl;
    if a.Accept? { IntakeIs(s, a.position, a.id, None); }
  }

  lemma {:induction false} RunSilent(s: State, acts: seq<Action>)
    requires Inv(s) && AllSilent(s) && AllProvable(s, acts)
    ensures AllSilent(Run(s, acts))
    decreases |acts|
  {
    hide Inv, Next, AllSilent, Provable;
    if acts != [] {
      NextSilent(s, acts[0]);
      NextInv(s, acts[0]);
      RunSilent(Next(s, acts[0]), acts[1..]);
    }
  }

  /** If no local turn ever reports a vendor session, no native session with a complete bootstrap ever has a context gap. */
  lemma NoGapWhenProvable(s0: State, acts: seq<Action>, g: nat)
    requires Initial(s0) && AllProvable(s0, acts) && g < |Run(s0, acts).db.sessions| && Proven(Run(s0, acts).db.sessions[g])
    ensures NoGap(Run(s0, acts), g)
  {
    hide Inv, Next;
    InitialInv(s0);
    assert AllSilent(s0);
    RunSilent(s0, acts);
    hide Initial, Run, AllProvable;
    NoContextGap(s0, acts, g);
  }

  // ---------------------------------------------------------------- what a turn injects

  /** The window of a turn of that mode, besides its own Record. */
  predicate InWindow(peer: string, log: seq<Rec>, m: Mode, position: nat, k: nat) {
    1 <= k < position <= |log| &&
    match m
    case Bootstrap => true
    case Native(after) => after < k && !ForeignRedirect(peer, log[k - 1])
    case Delta(after, own) => after < k && !ForeignRedirect(peer, log[k - 1]) && k !in own
    case Redirects(last, steered) => last < k && Pinned(peer, log[k - 1]) && k !in steered
  }

  /** What of the log a turn shows: its Record, and its window; a truncated one, what of the window the budget leaves. */
  predicate ShowsAt(peer: string, log: seq<Rec>, b: CatchUp.Budget, t: Turn, k: nat) {
    k == t.position
    || if t.truncated then k in Positions(Projecting(peer, log, t.mode, t.position, b).records)
       else InWindow(peer, log, t.mode, t.position, k)
  }

  /** The turn injects what the log below its Record gives for its mode. */
  predicate TurnExact(peer: string, log: seq<Rec>, b: CatchUp.Budget, t: Turn) {
    1 <= t.position <= |log|
    && var p := Projecting(peer, log, t.mode, t.position, b); t.feed == Positions(p.records) && t.truncated == p.truncated
  }

  lemma TurnShows(peer: string, log: seq<Rec>, b: CatchUp.Budget, t: Turn, k: nat)
    requires TurnExact(peer, log, b, t)
    ensures k in t.feed + {t.position} <==> ShowsAt(peer, log, b, t, k)
  {
    WindowExact(peer, log, t.mode, t.position, b);
    hide InWindow, Projecting, Positions;
  }

  lemma ExactStays(peer: string, log: seq<Rec>, log': seq<Rec>, b: CatchUp.Budget, t: Turn)
    requires TurnExact(peer, log, b, t) && log <= log'
    ensures TurnExact(peer, log', b, t)
  {
    assert Below(log', t.position) == Below(log, t.position);
    hide Below, CatchUp.Projected, Items, Foreign, Seen, Positions;
  }

  /** An untruncated projection feeds exactly the positions in its window that are not hidden. */
  lemma FeedExact(peer: string, log: seq<Rec>, hidden: set<nat>, b: CatchUp.Budget, bound: nat, after: nat, pins: bool)
    requires pins ==> after == 0
    ensures var p := CatchUp.Projected(Items(peer, log, hidden), b, after, Some(bound), pins);
            !p.truncated ==> forall k: nat :: k in Positions(p.records) <==> 1 <= k <= |log| && k !in hidden && after < k < bound
  {
    var items := Items(peer, log, hidden);
    var p := CatchUp.Projected(items, b, after, Some(bound), pins);
    FeedComplete(peer, log, hidden, b, after, bound, pins);
    ItemsIncrease(peer, log, hidden);
    CatchUp.UntruncatedIsAll(items, b, after, Some(bound), pins);
    hide *;
    if !p.truncated {
      forall k: nat ensures k in Positions(p.records) ==> 1 <= k <= |log| && k !in hidden && after < k < bound {
        if k in Positions(p.records) { FedWithin(peer, log, hidden, bound, after, pins, k); }
      }
    }
  }

  lemma FedWithin(peer: string, log: seq<Rec>, hidden: set<nat>, bound: nat, after: nat, pins: bool, k: nat)
    requires pins ==> after == 0
    requires k in Positions(CatchUp.Candidates(Items(peer, log, hidden), after, Some(bound), pins))
    ensures 1 <= k <= |log| && k !in hidden && after < k < bound
  {
    var c := CatchUp.Candidates(Items(peer, log, hidden), after, Some(bound), pins);
    var i :| 0 <= i < |c| && c[i].position == k;
    CandidateIs(Items(peer, log, hidden), after, Some(bound), pins, c[i]);
    ItemsHidden(peer, log, hidden, c[i]);
  }

  lemma {:induction false} CandidateIs(s: seq<CatchUp.Item>, after: nat, before: Option<nat>, pins: bool, x: CatchUp.Item)
    requires x in CatchUp.Candidates(s, after, before, pins)
    ensures x in s && CatchUp.Candidate(x, after, before, pins)
    decreases |s|
  {
    if s != [] {
      var t := s[..|s| - 1];
      if x in CatchUp.Candidates(t, after, before, pins) { CandidateIs(t, after, before, pins, x); }
    }
  }

  lemma {:induction false} ItemsHidden(peer: string, log: seq<Rec>, hidden: set<nat>, x: CatchUp.Item)
    requires x in Items(peer, log, hidden)
    ensures 1 <= x.position <= |log| && x.position !in hidden
    decreases |log|
  {
    if log != [] {
      var t := log[..|log| - 1];
      if x in Items(peer, t, hidden) { ItemsHidden(peer, t, hidden, x); }
    }
  }

  lemma {:induction false} AllHidden(peer: string, log: seq<Rec>, hidden: set<nat>)
    requires forall k: nat :: 1 <= k <= |log| ==> k in hidden
    ensures Items(peer, log, hidden) == []
    decreases |log|
  {
    if log != [] { AllHidden(peer, log[..|log| - 1], hidden); }
  }

  lemma NothingProjected(b: CatchUp.Budget, after: nat, before: Option<nat>, pins: bool)
    ensures CatchUp.Projected([], b, after, before, pins).records == [] && !CatchUp.Projected([], b, after, before, pins).truncated
  {
    CatchUp.OutputIsChosen([], b, after, before, pins);
    assert CatchUp.Candidates([], after, before, pins) == [];
  }

  /** A local session that nobody else interrupted is fed nothing but redirects. */
  lemma LocalFeedsNothing(db: Ledger, did: nat, g: nat, b: CatchUp.Budget)
    requires did < |db.deliveries| && g < |db.sessions| && db.sessions[g].vendor.None? && Ran(db.deliveries, g)
    requires forall i :: 0 <= i < |db.log| ==> !db.log[i].kind.Redirect?
    requires forall i :: 0 <= i < |db.deliveries| ==> db.deliveries[i].session.None? || db.deliveries[i].session == Some(g)
    ensures TurnFor(db, did, g, b) == Some(Turn(did, db.deliveries[did].position, g, {}, Redirects(LastRun(db.deliveries), AllSteered(db)), false))
  {
    var position := db.deliveries[did].position;
    assert LocalDelta(db, g, position, b).None?;
    var before := Below(db.log, position);
    var seen := Seen(db.peer, before, LastRun(db.deliveries), AllSteered(db));
    forall k: nat | 1 <= k <= |before| ensures k in seen {
      assert !Pinned(db.peer, before[k - 1]);
    }
    AllHidden(db.peer, before, seen);
    hide CatchUp.Projected;
    NothingProjected(b, 0, Some(position), false);
    assert Positions([]) == {};
    assert UnseenRedirects(db, position, b) == CatchUp.Projected([], b, 0, Some(position), false);
  }

  /** A local session that others interrupted is fed everything since its last terminal turn, but for redirects to other peers and
      the responses it generated itself, unless the delta was truncated. */
  lemma LocalDeltaCovers(db: Ledger, g: nat, position: nat, b: CatchUp.Budget, k: nat)
    requires 1 <= position <= |db.log| && LocalDelta(db, g, position, b).Some?
    requires LocalSeen(db.deliveries, g).value < k < position
    ensures var p := LocalDelta(db, g, position, b).value;
            p.truncated || k in Positions(p.records) || ForeignRedirect(db.peer, At(db, k)) || k in OwnAnswers(db.deliveries, g)
  {
    var before := Below(db.log, position);
    var after := LocalSeen(db.deliveries, g).value;
    hide CatchUp.Projected, Items, OthersRan, LocalSeen;
    FeedComplete(db.peer, before, Foreign(db.peer, before) + OwnAnswers(db.deliveries, g), Uncounted(b), after, position, false);
    assert before[k - 1] == At(db, k);
    ForeignIs(db.peer, before, k);
  }

  /** A redirect for the peer above its last run, that no steer delivered, reaches the next local turn, unless the budget cut it. */
  lemma RedirectsReach(db: Ledger, position: nat, b: CatchUp.Budget, k: nat)
    requires 1 <= position <= |db.log| && LastRun(db.deliveries) < k < position
    requires Pinned(db.peer, At(db, k)) && !Steered(db, k)
    ensures UnseenRedirects(db, position, b).truncated || k in Positions(UnseenRedirects(db, position, b).records)
  {
    WindowExact(db.peer, db.log, Redirects(LastRun(db.deliveries), AllSteered(db)), position, b);
    hide RedirectsOf, LastRun, Pinned, Positions;
  }

  // ---------------------------------------------------------------- every turn is exact

  lemma ForeignBelow(peer: string, log: seq<Rec>, position: nat)
    requires 1 <= position <= |log|
    ensures var before := Below(log, position);
            |before| == position - 1
            && forall k: nat :: 1 <= k < position ==> (k in Foreign(peer, before) <==> ForeignRedirect(peer, log[k - 1]))
  {
    var before := Below(log, position);
    forall k: nat | 1 <= k < position ensures k in Foreign(peer, before) <==> ForeignRedirect(peer, log[k - 1]) {
      ForeignIs(peer, before, k);
      assert before[k - 1] == log[k - 1];
    }
  }

  lemma SeenBelow(peer: string, log: seq<Rec>, position: nat, last: nat, steered: set<nat>)
    requires 1 <= position <= |log|
    ensures forall k: nat :: 1 <= k < position ==>
              (k in Seen(peer, Below(log, position), last, steered) <==> k <= last || !Pinned(peer, log[k - 1]) || k in steered)
  {
    var before := Below(log, position);
    forall k: nat | 1 <= k < position
      ensures k in Seen(peer, before, last, steered) <==> k <= last || !Pinned(peer, log[k - 1]) || k in steered
    {
      assert before[k - 1] == log[k - 1];
    }
  }

  /** An untruncated projection is exactly its window. */
  lemma WindowExact(peer: string, log: seq<Rec>, m: Mode, position: nat, b: CatchUp.Budget)
    requires 1 <= position <= |log|
    ensures var p := Projecting(peer, log, m, position, b);
            !p.truncated ==> forall k: nat :: k in Positions(p.records) <==> InWindow(peer, log, m, position, k)
  {
    var before := Below(log, position);
    ForeignBelow(peer, log, position);
    hide CatchUp.Projected, Items, ForeignRedirect, Pinned, Positions, Foreign, Seen;
    match m
    case Bootstrap => FeedExact(peer, before, {}, b, position, 0, true);
    case Native(after) => FeedExact(peer, before, Foreign(peer, before), Uncounted(b), position, after, false);
    case Delta(after, own) => FeedExact(peer, before, Foreign(peer, before) + own, Uncounted(b), position, after, false);
    case Redirects(last, steered) =>
      SeenBelow(peer, log, position, last, steered);
      FeedExact(peer, before, Seen(peer, before, last, steered), b, position, 0, false);
  }

  lemma TurnForExact(db: Ledger, did: nat, g: nat, b: CatchUp.Budget)
    requires LedgerOk(db) && did < |db.deliveries| && g < |db.sessions| && TurnFor(db, did, g, b).Some?
    ensures TurnExact(db.peer, db.log, b, TurnFor(db, did, g, b).value)
  {
    DeliverableAt(db, did);
    TurnProjects(db, did, g, b);
    hide LedgerOk, TurnFor, Projecting, Positions;
  }

  lemma TurnProjects(db: Ledger, did: nat, g: nat, b: CatchUp.Budget)
    requires did < |db.deliveries| && g < |db.sessions| && TurnFor(db, did, g, b).Some?
    ensures var t := TurnFor(db, did, g, b).value; var p := Projecting(db.peer, db.log, t.mode, t.position, b);
            t.position == db.deliveries[did].position && t.feed == Positions(p.records) && t.truncated == p.truncated
  {
    hide NativeDelta, BootstrapOf, DeltaOf, RedirectsOf, Positions, LocalSeen, OwnAnswers, Ran, OthersRan, LastRun;
  }

  /** The turn a cycle is about. */
  function PcTurn(pc: Pc): Option<Turn> {
    match pc
    case Gate(site) => SiteTurn(site)
    case Sweeping(_, site) => SiteTurn(site)
    case Swept(site) => SiteTurn(site)
    case Unpaused(site) => SiteTurn(site)
    case Passed(t) => Some(t)
    case Halting(t, _, _) => Some(t)
    case Cleared(t, _) => Some(t)
    case Armed(t, _) => Some(t)
    case _ => None
  }

  function SiteTurn(site: Site): Option<Turn> {
    match site
    case AtPrepared(t) => Some(t)
    case AtMarked(t, _) => Some(t)
    case _ => None
  }

  ghost predicate TurnsExact(s: State) {
    && (forall o :: o in s.procs && PcTurn(s.procs[o].pc).Some? ==> TurnExact(s.db.peer, s.db.log, s.budget, PcTurn(s.procs[o].pc).value))
    && (forall m :: m in s.turns ==> TurnExact(s.db.peer, s.db.log, s.budget, s.turns[m]))
    && (forall i :: 0 <= i < |s.taken| ==> TurnExact(s.db.peer, s.db.log, s.budget, s.taken[i]))
  }

  /** A step keeps its turn, drops it, or has just computed it. */
  predicate TurnMove(db: Ledger, pc: Pc, m: Move, b: CatchUp.Budget) {
    m.Goes? && PcTurn(m.pc).Some? ==>
      PcTurn(m.pc) == PcTurn(pc)
      || (pc.Resolved? && pc.did < |db.deliveries| && pc.session < |db.sessions| && PcTurn(m.pc) == TurnFor(db, pc.did, pc.session, b))
  }

  lemma StartTurns(db: Ledger, pc: Pc, input: Input, ok: bool, claim: nat, now: real, b: CatchUp.Budget)
    ensures TurnMove(db, pc, StartStep(db, pc, input, ok, claim), b) && TurnMove(db, pc, SettleStep(db, pc, input, ok, now), b)
    ensures TurnMove(db, pc, OffsetStep(db, pc, input, ok), b)
  {
    hide PromoteUnresolved, Paused, RetryBlocked, BeginAttempt, RejectSelector, Taint, RefusalOf, FailedBefore, IsControl,
         LoseSession, FinalizeTerminal, AppendResponse, BindResponse, NoteCancelled, AdvanceOffset, SettleRefusal, AckCancelled, Ack, TurnFor;
  }

  lemma GateTurns(db: Ledger, pc: Pc, input: Input, ok: bool, b: CatchUp.Budget)
    ensures TurnMove(db, pc, GateStep(db, pc, input, ok), b) && TurnMove(db, pc, InvokeStep(db, pc, input, ok), b)
    ensures TurnMove(db, pc, SessionStep(db, pc, input, ok, b), b)
  {
    hide Paused, RejectSelector, CancelApplies, MustTake, Resumable, TurnFor, CreateSession, ResumeSession, LoseSession, Tombstone,
         MarkInvocation, ResolveInvocation, Transition, BindExecution, Taint;
  }

  lemma MovesTurns(db: Ledger, pc: Pc, input: Input, ok: bool, claim: nat, now: real, b: CatchUp.Budget)
    ensures TurnMove(db, pc, MoveOf(db, pc, input, ok, claim, now, b), b)
  {
    hide StartStep, GateStep, SessionStep, InvokeStep, SettleStep, OffsetStep, TurnFor;
    StartTurns(db, pc, input, ok, claim, now, b);
    GateTurns(db, pc, input, ok, b);
  }

  /** Where the turns of the next state come from. */
  ghost predicate TurnsFrom(s: State, s': State) {
    && Grows(s.db, s'.db) && s'.budget == s.budget
    && (forall o :: o in s'.procs && PcTurn(s'.procs[o].pc).Some? ==>
          || (o in s.procs && PcTurn(s'.procs[o].pc) == PcTurn(s.procs[o].pc))
          || TurnExact(s.db.peer, s.db.log, s.budget, PcTurn(s'.procs[o].pc).value))
    && (forall m :: m in s'.turns ==> (m in s.turns && s'.turns[m] == s.turns[m]) || TurnExact(s.db.peer, s.db.log, s.budget, s'.turns[m]))
    && TakenFrom(s, s'.taken)
  }

  /** What is newly consumed was called. */
  predicate TakenFrom(s: State, taken: seq<Turn>) {
    s.taken <= taken && forall i :: |s.taken| <= i < |taken| ==> exists m :: m in s.turns && s.turns[m] == taken[i]
  }

  lemma TurnsFromOk(s: State, s': State)
    requires TurnsExact(s) && TurnsFrom(s, s')
    ensures TurnsExact(s')
  {
    assert s'.db.peer == s.db.peer && s.db.log <= s'.db.log;
    hide Grows, TurnExact;
    forall o | o in s'.procs && PcTurn(s'.procs[o].pc).Some? ensures TurnExact(s'.db.peer, s'.db.log, s'.budget, PcTurn(s'.procs[o].pc).value) {
      ExactStays(s.db.peer, s.db.log, s'.db.log, s.budget, PcTurn(s'.procs[o].pc).value);
    }
    forall m | m in s'.turns ensures TurnExact(s'.db.peer, s'.db.log, s'.budget, s'.turns[m]) {
      ExactStays(s.db.peer, s.db.log, s'.db.log, s.budget, s'.turns[m]);
    }
    forall i | 0 <= i < |s'.taken| ensures TurnExact(s'.db.peer, s'.db.log, s'.budget, s'.taken[i]) {
      if i < |s.taken| { assert s'.taken[i] == s.taken[i]; }
      ExactStays(s.db.peer, s.db.log, s'.db.log, s.budget, s'.taken[i]);
    }
  }

  lemma EndedFrom(s: State, did: nat)
    ensures TakenFrom(s, s.taken + Ended(s.db, s.turns, did)) && TakenFrom(s, s.taken)
  {
  }

  lemma MovedTurns(s: State, owner: string, input: Input)
    requires Inv(s) && owner in s.procs && Grows(s.db, MoveProc(s, owner, input).db)
    ensures TurnsFrom(s, MoveProc(s, owner, input))
  {
    var p, m := s.procs[owner], CycleMove(s, owner, input);
    MovedIs(s, owner, input);
    SelfGrows(s.db);
    EndedFrom(s, if p.pc.Finalizing? then p.pc.turn.did else 0);
    if !m.Stays? {
      LeftParts(s, owner, m);
      MovesTurns(s.db, p.pc, input, TokenPasses(s, p.token), p.token.generation, s.kernel.now, s.budget);
      MovedTurn(s, owner, m);
    }
    hide *;
    SameTurns(s);
    if !m.Stays? { LeftTurns(s, Left(s, owner, m), owner); }
  }

  lemma SameTurns(s: State)
    ensures TurnsFrom(s, s)
  {
    SelfGrows(s.db);
    hide Grows, TurnExact;
  }

  lemma LeftTurns(s: State, s': State, owner: string)
    requires owner in s.procs && Grows(s.db, s'.db) && TakenFrom(s, s'.taken) && owner in s'.procs
    requires s' == s.(db := s'.db, procs := s'.procs, taken := s'.taken, unproven := s'.unproven)
    requires s'.procs == s.procs[owner := s'.procs[owner]]
    requires PcTurn(s'.procs[owner].pc).Some? ==>
               PcTurn(s'.procs[owner].pc) == PcTurn(s.procs[owner].pc)
               || TurnExact(s.db.peer, s.db.log, s.budget, PcTurn(s'.procs[owner].pc).value)
    ensures TurnsFrom(s, s')
  {
    hide Grows, TurnExact, TakenFrom;
  }

  lemma MovedTurn(s: State, owner: string, m: Move)
    requires Inv(s) && owner in s.procs && TurnMove(s.db, s.procs[owner].pc, m, s.budget)
    ensures m.Goes? && PcTurn(m.pc).Some? ==>
              PcTurn(m.pc) == PcTurn(s.procs[owner].pc) || TurnExact(s.db.peer, s.db.log, s.budget, PcTurn(m.pc).value)
  {
    var pc := s.procs[owner].pc;
    InvParts(s);
    hide Inv, LedgerOk, TurnFor, TurnExact, SessionsOk, ProcsOk, MarksOk, CallsOk, CallbacksOk;
    if m.Goes? && PcTurn(m.pc).Some? && PcTurn(m.pc) != PcTurn(pc) { TurnForExact(s.db, pc.did, pc.session, s.budget); }
  }

  lemma CallTurns(s: State, owner: string)
    requires owner in s.procs && s.procs[owner].pc.Armed? && TurnsExact(s)
    ensures TurnsFrom(s, Call(s, owner))
  {
    SelfGrows(s.db);
    EndedFrom(s, 0);
    assert PcTurn(s.procs[owner].pc) == Some(s.procs[owner].pc.turn);
    hide Grows, TurnExact, TakenFrom;
  }

  lemma BeatTurns(s: State, owner: string)
    requires owner in s.procs
    ensures TurnsFrom(s, Heartbeat(s, owner))
  {
    SelfGrows(s.db);
    hide Grows, TurnExact, Claims.Heartbeat;
  }

  lemma TakenTurns(s: State, owner: string, lease: nat)
    requires owner in s.procs && (s.procs[owner].pc.Sweeping? || s.procs[owner].pc.Scan?) && Grows(s.db, TakeIn(s, owner, lease).db)
    ensures TurnsFrom(s, TakeIn(s, owner, lease))
  {
    var s' := TakeIn(s, owner, lease);
    TakenFrame(s, owner, lease);
    hide TakeIn, Grows, TurnExact;
  }

  lemma TakenFrame(s: State, owner: string, lease: nat)
    requires owner in s.procs && (s.procs[owner].pc.Sweeping? || s.procs[owner].pc.Scan?)
    ensures var s' := TakeIn(s, owner, lease);
            && s' == s.(db := s'.db, handlers := s'.handlers, procs := s'.procs) && owner in s'.procs
            && s'.procs == s.procs[owner := s'.procs[owner]]
            && (PcTurn(s'.procs[owner].pc).Some? ==> PcTurn(s'.procs[owner].pc) == PcTurn(s.procs[owner].pc))
  {
    IntakeIs(s, s.procs[owner].pc.cursor + 1, lease, Some(s.procs[owner].token));
    hide Intake;
  }

  lemma IntakeTurns(s: State, position: nat, lease: nat, token: Option<Claims.Token>)
    requires Grows(s.db, Intake(s, position, lease, token).db)
    ensures TurnsFrom(s, Intake(s, position, lease, token))
  {
    IntakeIs(s, position, lease, token);
    hide Grows, TurnExact, Intake;
  }

  lemma StepTurns(s: State, owner: string, input: Input)
    requires Inv(s) && TurnsExact(s) && owner in s.procs
    ensures TurnsFrom(s, StepProc(s, owner, input))
  {
    StepInv(s, owner, input);
    hide Inv, TurnsExact, TurnsFrom, Grows, MoveProc, TakeIn, Intake, Call, Heartbeat, MustTake;
    var p := s.procs[owner];
    if (p.pc.Sweeping? || p.pc.Scan?) && input.Take? && input.lease !in s.handlers && MustTake(s.db, p.pc.cursor) {
      TakenTurns(s, owner, input.lease);
    } else if p.pc.Gate? && input.Stranded? && input.position in s.db.controls {
      IntakeTurns(s, input.position, input.lease, Some(p.token));
    } else if p.pc.Armed? && input.Go? {
      CallTurns(s, owner);
    } else if p.pc.Live? && input.Beat? {
      BeatTurns(s, owner);
    } else {
      MovedTurns(s, owner, input);
    }
  }

  lemma CalledTurns(s: State, id: nat, token: Claims.Token, did: nat, value: string, vendor: Option<string>)
    requires Grows(s.db, Called(s, id, token, did, value, vendor).db)
    ensures TurnsFrom(s, Called(s, id, token, did, value, vendor))
  {
    CalledFrame(s, id, token, did, value, vendor);
    CalledTaken(s, id, token, did, value, vendor);
    EndedFrom(s, did);
    hide Called, Ended, Grows, TurnExact, TakenFrom;
  }

  lemma OtherTurns(s: State, a: Action)
    requires Inv(s) && !a.Step? && !a.Callback?
    ensures TurnsFrom(s, Next(s, a))
  {
    NextInv(s, a);
    OtherFrame(s, a);
    hide *;
    OthersFrom(s, Next(s, a));
  }

  lemma OthersFrom(s: State, s': State)
    requires Grows(s.db, s'.db) && s'.turns == s.turns && s'.taken == s.taken && s'.budget == s.budget
    requires forall o :: o in s'.procs ==> s'.procs[o].pc.Idle? || (o in s.procs && s'.procs[o] == s.procs[o])
    ensures TurnsFrom(s, s')
  {
    hide Grows, TurnExact;
  }

  lemma OtherFrame(s: State, a: Action)
    requires !a.Step? && !a.Callback?
    ensures var s' := Next(s, a);
            && s'.turns == s.turns && s'.taken == s.taken && s'.budget == s.budget
            && forall o :: o in s'.procs ==> s'.procs[o].pc.Idle? || (o in s.procs && s'.procs[o] == s.procs[o])
  {
    hide StepHandler, Followed, AppendRecord, RegisterRetry, Claims.Acquire;
    if a.Follow? && a.id in s.callbacks { FollowedFrame(s, a.id, a.input); }
    HandlerFrame(s, a);
  }

  lemma HandlerFrame(s: State, a: Action)
    ensures var s' := StepHandler(s, a); s' == s.(db := s'.db, handlers := s'.handlers)
  {
    hide Intake, FenceControl, CompleteControl;
    if a.Accept? { IntakeIs(s, a.position, a.id, None); }
  }

  lemma NextTurns(s: State, a: Action)
    requires Inv(s) && TurnsExact(s)
    ensures TurnsExact(Next(s, a))
  {
    hide Inv, TurnsExact, TurnsFrom, StepProc, Called, Grows;
    if a.Step? {
      if a.owner in s.procs {
        StepTurns(s, a.owner, a.input);
        TurnsFromOk(s, StepProc(s, a.owner, a.input));
      }
    } else {
      NextInv(s, a);
      if a.Callback? { CalledTurns(s, a.id, a.token, a.did, a.value, a.vendor); } else { OtherTurns(s, a); }
      hide Next;
      TurnsFromOk(s, Next(s, a));
    }
  }

  lemma {:induction false} RunTurns(s: State, acts: seq<Action>)
    requires Inv(s) && TurnsExact(s)
    ensures TurnsExact(Run(s, acts))
    decreases |acts|
  {
    hide Inv, TurnsExact, Next;
    if acts != [] {
      NextTurns(s, acts[0]);
      NextInv(s, acts[0]);
      RunTurns(Next(s, acts[0]), acts[1..]);
    }
  }

  // ---------------------------------------------------------------- exactly when there is a gap

  /** Position `k` needs no evidence, or some turn the session ended shows it: its own Record, its bootstrap, a delta's window without the
      session's own answers, or a redirect that was injected. */
  predicate Covered(db: Ledger, b: CatchUp.Budget, taken: seq<Turn>, g: nat, k: nat) {
    1 <= k <= |db.log|
    && (ForeignRedirect(db.peer, At(db, k)) || exists i :: 0 <= i < |taken| && taken[i].session == g && ShowsAt(db.peer, db.log, b, taken[i], k))
  }

  lemma CoveredIs(db: Ledger, b: CatchUp.Budget, taken: seq<Turn>, g: nat, k: nat)
    requires forall i :: 0 <= i < |taken| ==> TurnExact(db.peer, db.log, b, taken[i])
    ensures Covered(db, b, taken, g, k) <==> Shown(db, FedTo(taken, g), k)
  {
    hide TurnExact, ShowsAt, ForeignRedirect;
    if i :| 0 <= i < |taken| && taken[i].session == g && ShowsAt(db.peer, db.log, b, taken[i], k) {
      TurnShows(db.peer, db.log, b, taken[i], k);
      assert k in FedTo(taken, g);
    }
    if k in FedTo(taken, g) {
      var i :| 0 <= i < |taken| && taken[i].session == g && k in taken[i].feed + {taken[i].position};
      TurnShows(db.peer, db.log, b, taken[i], k);
    }
  }

  /** Over every run, for every session with a watermark: it has no gap exactly if every position up to the watermark is covered by a turn it
      ended, as read from the window that turn was given before it ran. */
  lemma GapExact(s0: State, acts: seq<Action>, g: nat)
    requires Initial(s0) && g < |Run(s0, acts).db.sessions| && Run(s0, acts).db.sessions[g].watermark.Some?
    ensures var s := Run(s0, acts);
            NoGap(s, g) <==> forall k: nat :: 1 <= k <= s.db.sessions[g].watermark.value ==> Covered(s.db, s.budget, s.taken, g, k)
  {
    hide Inv;
    InitialInv(s0);
    RunTurns(s0, acts);
    var s := Run(s0, acts);
    hide Run, Initial, Covered, Shown, FedTo;
    forall k: nat ensures Covered(s.db, s.budget, s.taken, g, k) <==> Shown(s.db, FedTo(s.taken, g), k) {
      CoveredIs(s.db, s.budget, s.taken, g, k);
    }
  }

  /** When a local turn binds a session that has no watermark, the claim it makes is true exactly if, before the turn committed, every Record
      below its own was covered: by its own window, or by a turn the session ended earlier. */
  lemma LocalBindingExact(s0: State, acts: seq<Action>, owner: string)
    requires Initial(s0) && owner in Run(s0, acts).procs && TokenPasses(Run(s0, acts), Run(s0, acts).procs[owner].token)
    requires BindsLocally(Run(s0, acts).db, Run(s0, acts).procs[owner].pc)
    ensures var s := Run(s0, acts); var t := s.procs[owner].pc.turn; var s' := Next(s, Step(owner, Go));
            && t.session < |s'.db.sessions| && Proven(s'.db.sessions[t.session]) && s'.db.sessions[t.session].watermark == Some(t.position)
            && (NoGap(s', t.session) <==> forall k: nat :: 1 <= k < t.position ==> Covered(s.db, s.budget, s.taken + [t], t.session, k))
  {
    hide Inv;
    InitialInv(s0);
    RunInv(s0, acts);
    RunTurns(s0, acts);
    hide *;
    LocalBindingAt(Run(s0, acts), owner);
  }

  lemma LocalBindingAt(s: State, owner: string)
    requires Inv(s) && TurnsExact(s) && owner in s.procs && TokenPasses(s, s.procs[owner].token) && BindsLocally(s.db, s.procs[owner].pc)
    ensures var t := s.procs[owner].pc.turn; var s' := Next(s, Step(owner, Go));
            && t.session < |s'.db.sessions| && Proven(s'.db.sessions[t.session]) && s'.db.sessions[t.session].watermark == Some(t.position)
            && (NoGap(s', t.session) <==> forall k: nat :: 1 <= k < t.position ==> Covered(s.db, s.budget, s.taken + [t], t.session, k))
  {
    BoundLocally(s, owner);
    NextTurns(s, Step(owner, Go));
    hide *;
    BindingCovered(s, Next(s, Step(owner, Go)), s.procs[owner].pc.turn);
  }

  /** A complete local turn is about to bind its session, which has no vendor session yet, with its result. */
  predicate BindsLocally(db: Ledger, pc: Pc) {
    && pc.Finalizing? && Local(pc.turn.mode) && !pc.turn.truncated && pc.vendor.Some?
    && pc.turn.did < |db.deliveries| && !db.deliveries[pc.turn.did].certainty.Terminal?
    && pc.turn.session < |db.sessions| && Usable(db.sessions[pc.turn.session]) && db.sessions[pc.turn.session].vendor.None?
  }

  lemma BoundLocally(s: State, owner: string)
    requires Inv(s) && owner in s.procs && TokenPasses(s, s.procs[owner].token) && BindsLocally(s.db, s.procs[owner].pc)
    ensures var t := s.procs[owner].pc.turn; var s' := Next(s, Step(owner, Go));
            && t.session < |s'.db.sessions| && Proven(s'.db.sessions[t.session]) && s'.db.sessions[t.session].watermark == Some(t.position)
            && s'.db.peer == s.db.peer && s'.db.log == s.db.log && s'.taken == s.taken + [t] && 1 <= t.position <= |s.db.log|
            && s'.budget == s.budget && s.procs[owner].pc.Finalizing?
  {
    var pc := s.procs[owner].pc;
    PassesHolds(s, s.procs[owner].token);
    OwnView(s, owner);
    InvParts(s);
    SessionRow(s.db, s.taken, s.unproven, pc.turn.session);
    hide Inv, LedgerOk, SessionsOk, ProcsOk, MarksOk, CallsOk, CallbacksOk, TokenPasses, View, BindsLocally, AllShown;
    BindingRow(s.db, PastOf(s), pc, s.kernel.now);
    assert SessionOk(s.db, s.taken, s.unproven, pc.turn.session);
    hide Proven;
    var f := FinalizeTerminal(s.db, pc.turn.did, pc.value, pc.vendor, Some(ProvenanceOf(pc.turn)), s.kernel.now);
    CommitsFirst(s, owner, f.value.0);
  }

  /** What the binding turn's transaction does. */
  lemma BindingRow(db: Ledger, w: Past, pc: Pc, now: real)
    requires LedgerOk(db) && BindsLocally(db, pc) && View(db, w, pc) && db.sessions[pc.turn.session].watermark.None?
    ensures var t := pc.turn; var f := FinalizeTerminal(db, t.did, pc.value, pc.vendor, Some(ProvenanceOf(t)), now);
            && 1 <= t.position <= |db.log| && f.Ok? && f.value.1.First? && WasCalled(db, w.turns, t)
            && f.value.0.peer == db.peer && f.value.0.log == db.log
            && t.session < |f.value.0.sessions| && Proven(f.value.0.sessions[t.session])
            && f.value.0.sessions[t.session].watermark == Some(t.position)
  {
    DeliverableAt(db, pc.turn.did);
    hide LedgerOk, AllShown, FeedOk, IsControl;
  }

  lemma CommitsFirst(s: State, owner: string, db': Ledger)
    requires owner in s.procs && TokenPasses(s, s.procs[owner].token) && s.procs[owner].pc.Finalizing?
    requires var pc := s.procs[owner].pc;
             var f := FinalizeTerminal(s.db, pc.turn.did, pc.value, pc.vendor, Some(ProvenanceOf(pc.turn)), s.kernel.now);
             && f.Ok? && f.value.1.First? && f.value.0 == db' && WasCalled(s.db, s.turns, pc.turn)
    ensures var s' := Next(s, Step(owner, Go)); s'.db == db' && s'.taken == s.taken + [s.procs[owner].pc.turn] && s'.budget == s.budget
  {
    hide FinalizeTerminal, Unproven, TokenPasses;
    var pc := s.procs[owner].pc;
    FinalizeFirst(s.db, pc.turn.did, pc.value, pc.vendor, Some(ProvenanceOf(pc.turn)), s.kernel.now);
    assert Ended(s.db, s.turns, pc.turn.did) == [pc.turn];
    hide Ended, WasCalled;
  }

  lemma BindingCovered(s: State, s': State, t: Turn)
    requires TurnsExact(s') && s'.db.peer == s.db.peer && s'.db.log == s.db.log && s'.taken == s.taken + [t] && s'.budget == s.budget
    requires t.session < |s'.db.sessions| && s'.db.sessions[t.session].watermark == Some(t.position) && 1 <= t.position <= |s.db.log|
    ensures NoGap(s', t.session) <==> forall k: nat :: 1 <= k < t.position ==> Covered(s.db, s.budget, s.taken + [t], t.session, k)
  {
    hide FedTo, TurnExact, Covered, Shown;
    forall k: nat ensures Covered(s.db, s.budget, s.taken + [t], t.session, k) <==> Shown(s'.db, FedTo(s'.taken, t.session), k) {
      CoveredSame(s.db, s'.db, s.budget, s'.taken, t.session, k);
      CoveredIs(s'.db, s'.budget, s'.taken, t.session, k);
    }
    OwnCovered(s.db, s.budget, s.taken, t);
  }

  lemma CoveredSame(db: Ledger, db': Ledger, b: CatchUp.Budget, taken: seq<Turn>, g: nat, k: nat)
    requires db'.peer == db.peer && db'.log == db.log
    ensures Covered(db', b, taken, g, k) == Covered(db, b, taken, g, k)
  {
  }

  /** A turn covers its own Record. */
  lemma OwnCovered(db: Ledger, b: CatchUp.Budget, taken: seq<Turn>, t: Turn)
    requires 1 <= t.position <= |db.log|
    ensures Covered(db, b, taken + [t], t.session, t.position)
  {
    var all := taken + [t];
    assert all[|taken|] == t && ShowsAt(db.peer, db.log, b, all[|taken|], t.position);
  }
}
