/**
 The turns the machine remembers, as the ledger has them: a turn that ended in a terminal result is that of a terminal attempt for its
 Record in its session. And what they are evidence of: how far a session was shown everything, whichever cycle or callback bound it.
 */
module BridgeTurns {
  import opened Wrappers
  import opened BridgeLedger
  import opened BridgeContext
  import opened BridgeInvariant
  import opened BridgeMachine
  import opened BridgeSafety
  import opened BridgeSessions
  import opened BridgeCalls
  import opened BridgeRuns
  import opened BridgeResponses
  import opened BridgeContinuity
  import BridgeTaint
  import Claims
  import CatchUp

  /** A native turn starts from a watermark its session has reached. */
  predicate NativeOk(db: Ledger, t: Turn) {
    t.mode.Native? ==>
      t.session < |db.sessions| && db.sessions[t.session].watermark.Some? && t.mode.after <= db.sessions[t.session].watermark.value
  }

  /** The turn is for the attempt's Record, and for its session as long as the marker is its newest and not resolved. */
  predicate TurnAt(db: Ledger, m: Mark, t: Turn) {
    HasMarker(db, m) && t.did == m.did && db.deliveries[m.did].position == t.position && NativeOk(db, t)
    && (m.n == |db.deliveries[m.did].markers| - 1 && (MarkerAt(db, m).Open? || MarkerAt(db, m).Promoted?) ==>
          db.deliveries[m.did].session == Some(t.session))
  }

  predicate PendingAt(db: Ledger, pc: Pc) {
    && (Pending(pc).Some? ==> PcTurn(pc).Some? && TurnAt(db, Pending(pc).value, PcTurn(pc).value))
    && (PcTurn(pc).Some? ==> NativeOk(db, PcTurn(pc).value))
  }

  predicate TakenAt(db: Ledger, t: Turn) {
    t.did < |db.deliveries| && db.deliveries[t.did].certainty.Terminal? && db.deliveries[t.did].position == t.position
    && db.deliveries[t.did].session == Some(t.session)
  }

  ghost predicate TurnsHeld(s: State) {
    && (forall o :: o in s.procs ==> PendingAt(s.db, s.procs[o].pc))
    && (forall m :: m in s.turns ==> TurnAt(s.db, m, s.turns[m]))
    && (forall i :: 0 <= i < |s.taken| ==> TakenAt(s.db, s.taken[i]))
  }

  // ---------------------------------------------------------------- the session of an attempt

  /** An attempt changes its session only while it has no open marker and has not started. */
  predicate SessionMoves(a: Attempt, b: Attempt) {
    b.session == a.session || (a.certainty.NotStarted? && LastOpen(a.markers).None?)
  }

  predicate SessionsMove(db: Ledger, db': Ledger) {
    |db.deliveries| <= |db'.deliveries| && forall i :: 0 <= i < |db.deliveries| ==> SessionMoves(db.deliveries[i], db'.deliveries[i])
  }

  lemma NextSessions(s: State, a: Action)
    requires Inv(s)
    ensures SessionsMove(s.db, Next(s, a).db)
  {
    NextRows(s, a);
    NextTouches(s, a);
    hide Next, Inv, LastOpen, TokenPasses;
    var db, db' := s.db, Next(s, a).db;
    forall i | 0 <= i < |db.deliveries| ensures SessionMoves(db.deliveries[i], db'.deliveries[i]) {
      if TouchedBy(s, a) != Some(i) { assert RowMoves(db.deliveries[i], db'.deliveries[i]); }
    }
  }

  // ---------------------------------------------------------------- the watermark of a session

  /** No watermark goes back. */
  predicate MarksUp(ss: seq<Session>, ss': seq<Session>) {
    |ss| <= |ss'|
    && forall g :: 0 <= g < |ss| && ss[g].watermark.Some? ==> ss'[g].watermark.Some? && ss[g].watermark.value <= ss'[g].watermark.value
  }

  /** The result an action commits: the delivery it is for, and the vendor session reported with it. */
  predicate Commits(s: State, a: Action, did: nat, vendor: Option<string>) {
    || (a.Step? && a.input.Go? && a.owner in s.procs && TokenPasses(s, s.procs[a.owner].token) && s.procs[a.owner].pc.Finalizing?
        && s.procs[a.owner].pc.turn.did == did && s.procs[a.owner].pc.vendor == vendor)
    || (a.Callback? && a.id !in s.callbacks && a.token.scope == s.scope && TokenPasses(s, a.token) && a.did == did && a.vendor == vendor)
  }

  /** The delivery has no result yet, and takes one. */
  predicate Takes(db: Ledger, did: nat) {
    did < |db.deliveries| && db.deliveries[did].outcome.None?
    && (db.deliveries[did].certainty.MayHaveStarted? || db.deliveries[did].certainty.Started?)
  }

  /** What a first result does to the sessions and to the turns that count as consumed. */
  ghost predicate FirstResult(s: State, s': State, did: nat, vendor: Option<string>) {
    && Takes(s.db, did) && s'.taken == s.taken + Ended(s.db, s.turns, did)
    && exists p: Option<Provenance> ::
         s'.db.sessions == CommitNative(s.db.sessions, s.db.deliveries[did].session, s.db.deliveries[did].position, vendor, p)
  }

  /** Nothing is consumed, and no session claims more. */
  ghost predicate NoResult(s: State, s': State) {
    s'.taken == s.taken && Tamed(s.db.sessions, s'.db.sessions)
  }

  lemma FinalSessions(db: Ledger, did: nat, value: string, vendor: Option<string>, p: Option<Provenance>, now: real)
    requires FinalizeTerminal(db, did, value, vendor, p, now).Ok?
    ensures var f := FinalizeTerminal(db, did, value, vendor, p, now).value;
            if f.1.First? then
              Takes(db, did)
              && f.0.sessions == CommitNative(db.sessions, db.deliveries[did].session, db.deliveries[did].position, vendor, p)
            else f.0.sessions == db.sessions && did < |db.deliveries| && db.deliveries[did].certainty.Terminal?
  {
    hide CommitNative;
  }

  lemma CalledResult(s: State, id: nat, token: Claims.Token, did: nat, value: string, vendor: Option<string>)
    ensures var s' := Called(s, id, token, did, value, vendor);
            NoResult(s, s') || (Commits(s, Callback(id, token, did, value, vendor), did, vendor) && FirstResult(s, s', did, vendor))
  {
    CalledIs(s, id, token, did, value, vendor);
    SameFades(s.db.sessions);
    var f := FinalizeTerminal(s.db, did, value, vendor, None, s.kernel.now);
    if f.Ok? {
      FinalSessions(s.db, did, value, vendor, None, s.kernel.now);
      if !f.value.1.First? { NothingEnded(s.db, s.turns, did); }
    }
    hide Called, FinalizeTerminal, Unproven, Ended, TokenPasses, CommitNative, Tamed;
  }

  /** The commit of a cycle. */
  lemma FinalMove(db: Ledger, pc: Pc, input: Input, ok: bool, claim: nat, now: real, b: CatchUp.Budget)
    requires pc.Finalizing?
    ensures var m := MoveOf(db, pc, input, ok, claim, now, b);
            var f := FinalizeTerminal(db, pc.turn.did, pc.value, pc.vendor, Some(ProvenanceOf(pc.turn)), now);
            && (m.Goes? ==> ok && input.Go? && f.Ok? && !f.value.1.Conflict? && m.db == f.value.0)
            && (m.Raises? ==> m.db.sessions == db.sessions)
  {
    var f := FinalizeTerminal(db, pc.turn.did, pc.value, pc.vendor, Some(ProvenanceOf(pc.turn)), now);
    if f.Ok? { FinalSessions(db, pc.turn.did, pc.value, pc.vendor, Some(ProvenanceOf(pc.turn)), now); }
    hide FinalizeTerminal, CommitNative;
    if f.Ok? && f.value.1.Conflict? { assert f.value.0.sessions == db.sessions; }
  }

  lemma MovedResult(s: State, owner: string, input: Input)
    requires owner in s.procs
    ensures var s' := MoveProc(s, owner, input); var pc := s.procs[owner].pc;
            NoResult(s, s')
            || (pc.Finalizing? && Commits(s, Step(owner, input), pc.turn.did, pc.vendor) && FirstResult(s, s', pc.turn.did, pc.vendor))
  {
    var p, m := s.procs[owner], CycleMove(s, owner, input);
    MovedIs(s, owner, input);
    SameFades(s.db.sessions);
    if !m.Stays? { LeftParts(s, owner, m); }
    if p.pc.Finalizing? {
      FinalMove(s.db, p.pc, input, TokenPasses(s, p.token), p.token.generation, s.kernel.now, s.budget);
      if m.Goes? {
        var did := p.pc.turn.did;
        FinalSessions(s.db, did, p.pc.value, p.pc.vendor, Some(ProvenanceOf(p.pc.turn)), s.kernel.now);
        FinalizeFirst(s.db, did, p.pc.value, p.pc.vendor, Some(ProvenanceOf(p.pc.turn)), s.kernel.now);
        if s.db.deliveries[did].certainty.Terminal? { NothingEnded(s.db, s.turns, did); }
        LeftTaken(s, owner, m);
      }
      hide MoveOf, MoveProc, FinalizeTerminal, CommitNative, Ended, Tamed, TokenPasses, Left;
    } else {
      MovesTamed(s.db, p.pc, input, TokenPasses(s, p.token), p.token.generation, s.kernel.now, s.budget);
      hide MoveOf, MoveProc, Ended, Tamed, Left, FirstResult, Commits;
    }
  }

  lemma LeftTaken(s: State, owner: string, m: Move)
    requires owner in s.procs && m.Goes? && s.procs[owner].pc.Finalizing?
    ensures Left(s, owner, m).taken == s.taken + Ended(s.db, s.turns, s.procs[owner].pc.turn.did)
  {
    hide Ended, Unproven;
  }

  lemma IntakeResult(s: State, position: nat, lease: nat, token: Option<Claims.Token>)
    ensures NoResult(s, Intake(s, position, lease, token))
  {
    IntakeIs(s, position, lease, token);
    BridgeTaint.IntakeFades(s, position, lease, token);
    FadeIsTame(s.db.sessions, Intake(s, position, lease, token).db.sessions);
    hide Intake, Tamed;
  }

  /** Only the commit of a result moves what a session claims. */
  lemma StepResult(s: State, owner: string, input: Input)
    requires owner in s.procs
    ensures var s' := StepProc(s, owner, input); var pc := s.procs[owner].pc;
            NoResult(s, s')
            || (pc.Finalizing? && Commits(s, Step(owner, input), pc.turn.did, pc.vendor) && FirstResult(s, s', pc.turn.did, pc.vendor))
  {
    hide MoveProc, Intake, MustTake, Tamed, FirstResult, Commits, Claims.Heartbeat;
    SameFades(s.db.sessions);
    var p := s.procs[owner];
    if input.Take? && (p.pc.Sweeping? || p.pc.Scan?) {
      IntakeResult(s, p.pc.cursor + 1, input.lease, Some(p.token));
      IntakeIs(s, p.pc.cursor + 1, input.lease, Some(p.token));
    }
    if input.Stranded? { IntakeResult(s, input.position, input.lease, Some(p.token)); }
    MovedResult(s, owner, input);
  }

  lemma FollowedResult(s: State, id: nat, input: Input)
    requires Inv(s) && id in s.callbacks
    ensures NoResult(s, Followed(s, id, input))
  {
    CallbackAt(s, id) by { InvParts(s); }
    var p := s.callbacks[id];
    assert !p.pc.Finalizing?;
    MovesTamed(s.db, p.pc, input, TokenPasses(s, p.token), p.token.generation, s.kernel.now, s.budget);
    SameFades(s.db.sessions);
    hide Inv, MoveOf, Tamed, CallbackOk;
  }

  lemma OtherResult(s: State, a: Action)
    requires Inv(s) && !a.Step? && !a.Callback?
    ensures NoResult(s, Next(s, a))
  {
    SameFades(s.db.sessions);
    hide Inv, Followed, Tamed, Intake, FenceControl, CompleteControl, Claims.Acquire, RegisterRetry, AppendRecord;
    match a
    case Follow(id, input) => if id in s.callbacks { FollowedResult(s, id, input); }
    case Authorize(record) => if RegisterRetry(s.db, record).Ok? { RegisteredIs(s.db, record); }
    case Append(r) => AppendIs(s.db, r);
    case Accept(position, id) => IntakeResult(s, position, id, None);
    case Complete(id) => CompleteSessions(s, id);
    case _ =>
  }

  lemma CompleteSessions(s: State, id: nat)
    ensures NoResult(s, StepHandler(s, Complete(id)))
  {
    SameFades(s.db.sessions);
    hide Tamed;
  }

  lemma NextResult(s: State, a: Action)
    requires Inv(s)
    ensures NoResult(s, Next(s, a)) || exists did: nat, vendor :: Commits(s, a, did, vendor) && FirstResult(s, Next(s, a), did, vendor)
  {
    hide Inv, StepProc, Called, FirstResult, Commits, NoResult;
    SameResult(s);
    if a.Step? {
      if a.owner in s.procs { StepResult(s, a.owner, a.input); }
    } else if a.Callback? {
      CalledResult(s, a.id, a.token, a.did, a.value, a.vendor);
    } else {
      hide Next;
      OtherResult(s, a);
    }
  }

  lemma SameResult(s: State)
    ensures NoResult(s, s)
  {
    SameFades(s.db.sessions);
    hide Tamed;
  }

  lemma TamedMarks(ss: seq<Session>, ss': seq<Session>)
    requires Tamed(ss, ss')
    ensures MarksUp(ss, ss')
  {
  }

  lemma CommitMarks(ss: seq<Session>, g: Option<nat>, position: nat, vendor: Option<string>, p: Option<Provenance>)
    ensures MarksUp(ss, CommitNative(ss, g, position, vendor, p))
  {
  }

  lemma NextMarks(s: State, a: Action)
    requires Inv(s)
    ensures MarksUp(s.db.sessions, Next(s, a).db.sessions)
  {
    NextResult(s, a);
    hide Inv, Next, Commits, Tamed, MarksUp, CommitNative, Takes, Ended;
    var s' := Next(s, a);
    if NoResult(s, s') {
      TamedMarks(s.db.sessions, s'.db.sessions);
    } else {
      var did: nat, vendor :| Commits(s, a, did, vendor) && FirstResult(s, s', did, vendor);
      FirstMarks(s, s', did, vendor);
    }
  }

  lemma FirstMarks(s: State, s': State, did: nat, vendor: Option<string>)
    requires FirstResult(s, s', did, vendor)
    ensures MarksUp(s.db.sessions, s'.db.sessions)
  {
    hide MarksUp, CommitNative, Ended;
    var p :| s'.db.sessions == CommitNative(s.db.sessions, s.db.deliveries[did].session, s.db.deliveries[did].position, vendor, p);
    CommitMarks(s.db.sessions, s.db.deliveries[did].session, s.db.deliveries[did].position, vendor, p);
  }

  // ---------------------------------------------------------------- what stays

  lemma TurnStays(db: Ledger, db': Ledger, m: Mark, t: Turn)
    requires LedgerOk(db) && Grows(db, db') && SessionsMove(db, db') && MarksUp(db.sessions, db'.sessions) && TurnAt(db, m, t)
    ensures TurnAt(db', m, t)
  {
    Row(db, m.did);
    assert AttemptGrows(db.deliveries[m.did], db'.deliveries[m.did]) && SessionMoves(db.deliveries[m.did], db'.deliveries[m.did]);
    hide LedgerOk, Grows, Answers, Deliverable, CancelApplies, RefusalNoted;
  }

  lemma TakenStays(db: Ledger, db': Ledger, t: Turn)
    requires Grows(db, db') && SessionsMove(db, db') && TakenAt(db, t)
    ensures TakenAt(db', t)
  {
    assert AttemptGrows(db.deliveries[t.did], db'.deliveries[t.did]) && SessionMoves(db.deliveries[t.did], db'.deliveries[t.did]);
    hide Grows, LastOpen;
  }

  // ---------------------------------------------------------------- every step

  /** What the next state's turns are. */
  ghost predicate HeldFrom(s: State, s': State) {
    && (forall o :: o in s'.procs ==> KeptTurn(s, s', o) || PendingAt(s'.db, s'.procs[o].pc))
    && (forall m :: m in s'.turns ==> (m in s.turns && s'.turns[m] == s.turns[m]) || TurnAt(s'.db, m, s'.turns[m]))
    && s.taken <= s'.taken && (forall i :: |s.taken| <= i < |s'.taken| ==> TakenAt(s'.db, s'.taken[i]))
  }

  predicate KeptTurn(s: State, s': State, o: string)
    requires o in s'.procs
  {
    o in s.procs && KeepsTurn(s.procs[o].pc, s'.procs[o].pc)
  }

  /** No other marker, and no other turn. */
  predicate KeepsTurn(pc: Pc, pc': Pc) {
    (Pending(pc').Some? ==> Pending(pc') == Pending(pc)) && (PcTurn(pc').Some? ==> PcTurn(pc') == PcTurn(pc))
  }

  lemma HeldFromOk(s: State, s': State)
    requires LedgerOk(s.db) && Grows(s.db, s'.db) && SessionsMove(s.db, s'.db) && MarksUp(s.db.sessions, s'.db.sessions)
    requires TurnsHeld(s) && HeldFrom(s, s')
    ensures TurnsHeld(s')
  {
    hide LedgerOk, Grows, SessionsMove, TurnAt, TakenAt, NativeOk, MarksUp;
    forall o | o in s'.procs ensures PendingAt(s'.db, s'.procs[o].pc) {
      if KeptTurn(s, s', o) {
        assert PendingAt(s.db, s.procs[o].pc);
        PendingStays(s.db, s'.db, s.procs[o].pc, s'.procs[o].pc);
        hide Pending, PcTurn;
      }
    }
    forall m | m in s'.turns ensures TurnAt(s'.db, m, s'.turns[m]) {
      if m in s.turns && s'.turns[m] == s.turns[m] { TurnStays(s.db, s'.db, m, s.turns[m]); }
    }
    forall i | 0 <= i < |s'.taken| ensures TakenAt(s'.db, s'.taken[i]) {
      if i < |s.taken| {
        assert s'.taken[i] == s.taken[i];
        TakenStays(s.db, s'.db, s.taken[i]);
      }
    }
  }

  lemma PendingStays(db: Ledger, db': Ledger, pc: Pc, pc': Pc)
    requires LedgerOk(db) && Grows(db, db') && SessionsMove(db, db') && MarksUp(db.sessions, db'.sessions)
    requires PendingAt(db, pc) && KeepsTurn(pc, pc')
    ensures PendingAt(db', pc')
  {
    PendingHasTurn(pc');
    if Pending(pc').Some? { TurnStays(db, db', Pending(pc).value, PcTurn(pc).value); }
    hide LedgerOk, Grows, SessionsMove, TurnAt, Pending, PcTurn;
  }

  /** The result takes the turn of the attempt it makes terminal. */
  lemma EndedAt(db: Ledger, turns: map<Mark, Turn>, did: nat, value: string, vendor: Option<string>, p: Option<Provenance>, now: real)
    requires LedgerOk(db) && (forall m :: m in turns ==> TurnAt(db, m, turns[m]))
    requires FinalizeTerminal(db, did, value, vendor, p, now).Ok?
    ensures var db' := FinalizeTerminal(db, did, value, vendor, p, now).value.0;
            forall i :: 0 <= i < |Ended(db, turns, did)| ==> TakenAt(db', Ended(db, turns, did)[i])
  {
    if Ended(db, turns, did) != [] {
      Row(db, did);
      assert TurnAt(db, Mark(did, |db.deliveries[did].markers| - 1), turns[Mark(did, |db.deliveries[did].markers| - 1)]);
    }
    hide LedgerOk, CommitNative, Answers, Deliverable, CancelApplies, RefusalNoted;
  }

  /** A new marker is for the turn that was prepared. */
  lemma PassedHeld(db: Ledger, w: Past, pc: Pc, input: Input, ok: bool, claim: nat, now: real)
    requires pc.Passed? && (ok ==> View(db, w, pc)) && PendingAt(db, pc)
    ensures var m := MoveOf(db, pc, input, ok, claim, now, w.budget); m.Goes? ==> PendingAt(m.db, m.pc)
  {
    hide FeedOk, Ready, LastOpen;
  }

  lemma PendingHasTurn(pc: Pc)
    ensures Pending(pc).Some? ==> PcTurn(pc).Some?
    ensures pc.Resolved? ==> Pending(pc).None?
  {
  }

  /** A turn that has just been computed. */
  lemma PreparedHeld(db: Ledger, pc: Pc, input: Input, ok: bool, claim: nat, now: real, b: CatchUp.Budget)
    requires pc.Resolved?
    ensures var m := MoveOf(db, pc, input, ok, claim, now, b); m.Goes? ==> PendingAt(m.db, m.pc)
  {
    hide TurnFor, NativeOk, TurnAt;
    if pc.did < |db.deliveries| && pc.session < |db.sessions| && TurnFor(db, pc.did, pc.session, b).Some? {
      NativeStarts(db, pc.did, pc.session, b);
    }
  }

  lemma NativeStarts(db: Ledger, did: nat, g: nat, b: CatchUp.Budget)
    requires did < |db.deliveries| && g < |db.sessions| && TurnFor(db, did, g, b).Some?
    ensures NativeOk(db, TurnFor(db, did, g, b).value)
  {
    hide NativeDelta, BootstrapOf, LocalDelta, UnseenRedirects, Positions, LocalSeen, OwnAnswers, Ran, LastRun;
  }

  lemma PendingMoves(db: Ledger, w: Past, pc: Pc, input: Input, ok: bool, claim: nat, now: real)
    requires LedgerOk(db) && (ok ==> View(db, w, pc)) && PendingAt(db, pc)
    ensures var m := MoveOf(db, pc, input, ok, claim, now, w.budget);
            m.Goes? ==> KeepsTurn(pc, m.pc) || PendingAt(m.db, m.pc)
  {
    MovesMark(db, w, pc, input, ok, claim, now);
    MovesTurns(db, pc, input, ok, claim, now, w.budget);
    var m := MoveOf(db, pc, input, ok, claim, now, w.budget);
    if pc.Passed? { PassedHeld(db, w, pc, input, ok, claim, now); }
    if pc.Resolved? { PreparedHeld(db, pc, input, ok, claim, now, w.budget); }
    hide *;
    if m.Goes? { PendingCases(db, pc, m, w.budget); }
  }

  lemma PendingCases(db: Ledger, pc: Pc, m: Move, b: CatchUp.Budget)
    requires m.Goes? && MoveMarks(db, pc, m) && TurnMove(db, pc, m, b) && (pc.Passed? || pc.Resolved? ==> PendingAt(m.db, m.pc))
    ensures KeepsTurn(pc, m.pc) || PendingAt(m.db, m.pc)
  {
    PendingHasTurn(m.pc);
    PendingHasTurn(pc);
    hide MarkersMove, NotHalt, Covers, TurnFor, Pending, PcTurn, TurnAt, NativeOk;
  }

  lemma CommitIs(db: Ledger, pc: Pc, input: Input, ok: bool, claim: nat, now: real, b: CatchUp.Budget)
    requires pc.Finalizing?
    ensures var m := MoveOf(db, pc, input, ok, claim, now, b);
            var f := FinalizeTerminal(db, pc.turn.did, pc.value, pc.vendor, Some(ProvenanceOf(pc.turn)), now);
            m.Goes? ==> f.Ok? && m.db == f.value.0
  {
    hide FinalizeTerminal;
  }

  lemma MovedHeld(s: State, owner: string, input: Input)
    requires Inv(s) && TurnsHeld(s) && owner in s.procs
    ensures HeldFrom(s, MoveProc(s, owner, input))
  {
    var p, m := s.procs[owner], CycleMove(s, owner, input);
    MovedIs(s, owner, input);
    InvParts(s);
    if !m.Stays? { LeftParts(s, owner, m); }
    MovedPending(s, owner, input);
    MovedTaken(s, owner, input);
    hide Inv, LedgerOk, SessionsOk, ProcsOk, MarksOk, CallsOk, CallbacksOk, MoveOf, MoveProc, TurnAt, TakenAt, PendingAt, Ended, CycleMove, Left,
         Pending, PcTurn;
  }

  lemma MovedPending(s: State, owner: string, input: Input)
    requires Inv(s) && TurnsHeld(s) && owner in s.procs
    ensures var m, pc := CycleMove(s, owner, input), s.procs[owner].pc;
            m.Goes? ==> KeepsTurn(pc, m.pc) || PendingAt(m.db, m.pc)
  {
    var p := s.procs[owner];
    PassesHolds(s, p.token);
    if Holds(s.kernel, p.token) { OwnView(s, owner); }
    InvParts(s);
    assert PendingAt(s.db, p.pc);
    hide Inv, LedgerOk, SessionsOk, ProcsOk, MarksOk, CallsOk, CallbacksOk, View, MoveOf, TokenPasses, Holds, PendingAt;
    PendingMoves(s.db, PastOf(s), p.pc, input, TokenPasses(s, p.token), p.token.generation, s.kernel.now);
  }

  lemma MovedTaken(s: State, owner: string, input: Input)
    requires Inv(s) && TurnsHeld(s) && owner in s.procs
    ensures var m, pc := CycleMove(s, owner, input), s.procs[owner].pc;
            pc.Finalizing? && m.Goes? ==>
              forall i :: 0 <= i < |Ended(s.db, s.turns, pc.turn.did)| ==> TakenAt(m.db, Ended(s.db, s.turns, pc.turn.did)[i])
    ensures s.procs[owner].pc.Finalizing? && CycleMove(s, owner, input).Raises? ==> Left(s, owner, CycleMove(s, owner, input)).taken == s.taken
  {
    var p, m := s.procs[owner], CycleMove(s, owner, input);
    InvParts(s);
    if p.pc.Finalizing? && m.Goes? {
      CommitIs(s.db, p.pc, input, TokenPasses(s, p.token), p.token.generation, s.kernel.now, s.budget);
      EndedAt(s.db, s.turns, p.pc.turn.did, p.pc.value, p.pc.vendor, Some(ProvenanceOf(p.pc.turn)), s.kernel.now);
    }
    hide Inv, LedgerOk, SessionsOk, ProcsOk, MarksOk, CallsOk, CallbacksOk, MoveOf, FinalizeTerminal, Ended, TurnAt, TakenAt;
  }

  lemma TakeHeld(s: State, owner: string, lease: nat)
    requires owner in s.procs && (s.procs[owner].pc.Sweeping? || s.procs[owner].pc.Scan?)
    ensures HeldFrom(s, TakeIn(s, owner, lease))
  {
    IntakeIs(s, s.procs[owner].pc.cursor + 1, lease, Some(s.procs[owner].token));
    hide Intake, TurnAt;
  }

  lemma IntakeHeld(s: State, position: nat, lease: nat, token: Option<Claims.Token>)
    ensures HeldFrom(s, Intake(s, position, lease, token))
  {
    IntakeIs(s, position, lease, token);
    hide Intake, TurnAt;
  }

  lemma CallHeld(s: State, owner: string)
    requires owner in s.procs && s.procs[owner].pc.Armed? && TurnsHeld(s)
    ensures HeldFrom(s, Call(s, owner))
  {
    assert PendingAt(s.db, s.procs[owner].pc);
    hide TurnAt;
  }

  lemma BeatHeld(s: State, owner: string)
    requires owner in s.procs
    ensures HeldFrom(s, Heartbeat(s, owner))
  {
    hide TurnAt, Claims.Heartbeat;
  }

  lemma StepHeld(s: State, owner: string, input: Input)
    requires Inv(s) && TurnsHeld(s) && owner in s.procs
    ensures HeldFrom(s, StepProc(s, owner, input))
  {
    hide Inv, TurnsHeld, HeldFrom, MoveProc, TakeIn, Intake, Call, Heartbeat, MustTake;
    var p := s.procs[owner];
    if (p.pc.Sweeping? || p.pc.Scan?) && input.Take? && input.lease !in s.handlers && MustTake(s.db, p.pc.cursor) {
      TakeHeld(s, owner, input.lease);
    } else if p.pc.Gate? && input.Stranded? && input.position in s.db.controls {
      IntakeHeld(s, input.position, input.lease, Some(p.token));
    } else if p.pc.Armed? && input.Go? {
      CallHeld(s, owner);
    } else if p.pc.Live? && input.Beat? {
      BeatHeld(s, owner);
    } else {
      MovedHeld(s, owner, input);
    }
  }

  lemma CalledHeld(s: State, id: nat, token: Claims.Token, did: nat, value: string, vendor: Option<string>)
    requires Inv(s) && TurnsHeld(s)
    ensures HeldFrom(s, Called(s, id, token, did, value, vendor))
  {
    CalledIs(s, id, token, did, value, vendor);
    InvParts(s);
    var f := FinalizeTerminal(s.db, did, value, vendor, None, s.kernel.now);
    if f.Ok? { EndedAt(s.db, s.turns, did, value, vendor, None, s.kernel.now); }
    hide Inv, LedgerOk, SessionsOk, ProcsOk, MarksOk, CallsOk, CallbacksOk, Called, FinalizeTerminal, Ended, Unproven, TurnAt, TakenAt, TokenPasses;
  }

  lemma OtherHeld(s: State, a: Action)
    requires !a.Step? && !a.Callback?
    ensures HeldFrom(s, Next(s, a))
  {
    OtherFrame(s, a);
    hide Next, TurnAt;
  }

  lemma NextHeld(s: State, a: Action)
    requires Inv(s) && TurnsHeld(s)
    ensures TurnsHeld(Next(s, a))
  {
    NextInv(s, a);
    NextSessions(s, a);
    NextMarks(s, a);
    InvParts(s);
    hide MarksUp, Inv, LedgerOk, SessionsOk, ProcsOk, MarksOk, CallsOk, CallbacksOk, Grows, SessionsMove, TurnsHeld, HeldFrom, StepProc, Called;
    if a.Step? {
      if a.owner in s.procs { StepHeld(s, a.owner, a.input); }
    } else if a.Callback? {
      CalledHeld(s, a.id, a.token, a.did, a.value, a.vendor);
    } else {
      hide Next;
      OtherHeld(s, a);
    }
    if Next(s, a) != s { HeldFromOk(s, Next(s, a)); }
  }

  lemma {:induction false} RunHeld(s: State, acts: seq<Action>)
    requires Inv(s) && TurnsHeld(s)
    ensures TurnsHeld(Run(s, acts))
    decreases |acts|
  {
    hide Inv, TurnsHeld, Next;
    if acts != [] {
      NextHeld(s, acts[0]);
      NextInv(s, acts[0]);
      RunHeld(Next(s, acts[0]), acts[1..]);
    }
  }

  /** Over every run: a turn that counts as consumed is that of a terminal attempt for its Record, in the session the attempt has. */
  lemma TakenIs(s0: State, acts: seq<Action>, i: nat)
    requires Initial(s0) && i < |Run(s0, acts).taken|
    ensures var s := Run(s0, acts); var t := s.taken[i];
            && t.did < |s.db.deliveries| && s.db.deliveries[t.did].certainty.Terminal?
            && s.db.deliveries[t.did].position == t.position && s.db.deliveries[t.did].session == Some(t.session)
  {
    hide Inv, Next;
    InitialInv(s0);
    RunHeld(s0, acts);
  }

  // ---------------------------------------------------------------- how far a session was shown everything

  /** How far the complete bootstrap and native turns of the session reach without a break. */
  function Reach(taken: seq<Turn>, g: nat): nat {
    if taken == [] then 0
    else
      var r, t := Reach(taken[..|taken| - 1], g), taken[|taken| - 1];
      if t.session == g && Evident(t) && t.position > r && (t.mode.Native? ==> t.mode.after <= r) then t.position else r
  }

  predicate Evident(t: Turn) {
    !t.truncated && (t.mode.Bootstrap? || t.mode.Native?)
  }

  lemma ReachMore(taken: seq<Turn>, more: seq<Turn>, g: nat)
    requires |more| <= 1
    ensures Reach(taken, g) <= Reach(taken + more, g)
    ensures more != [] && more[0].session == g && Evident(more[0]) && (more[0].mode.Native? ==> more[0].mode.after <= Reach(taken, g)) ==>
              more[0].position <= Reach(taken + more, g)
  {
    if more == [] {
      assert taken + more == taken;
    } else {
      assert (taken + more)[..|taken + more| - 1] == taken;
    }
  }

  /** Up to there every position is covered. */
  lemma {:induction false} ReachCovered(db: Ledger, b: CatchUp.Budget, taken: seq<Turn>, g: nat, k: nat)
    requires forall i :: 0 <= i < |taken| ==> 1 <= taken[i].position <= |db.log|
    requires 1 <= k <= Reach(taken, g)
    ensures Covered(db, b, taken, g, k)
    decreases |taken|
  {
    var n := |taken| - 1;
    var init, t := taken[..n], taken[n];
    assert taken == init + [t];
    if k <= Reach(init, g) {
      ReachCovered(db, b, init, g, k);
      CoveredMore(db, b, init, t, g, k);
    } else {
      assert ShowsAt(db.peer, db.log, b, taken[n], k) || ForeignRedirect(db.peer, At(db, k));
    }
  }

  lemma CoveredMore(db: Ledger, b: CatchUp.Budget, taken: seq<Turn>, t: Turn, g: nat, k: nat)
    requires Covered(db, b, taken, g, k)
    ensures Covered(db, b, taken + [t], g, k)
  {
    hide ShowsAt, ForeignRedirect;
    if i :| 0 <= i < |taken| && taken[i].session == g && ShowsAt(db.peer, db.log, b, taken[i], k) {
      assert (taken + [t])[i] == taken[i];
    }
  }

  /** A result is committed that binds the session, or moves its watermark, and does not end a complete bootstrap or native turn: a local
      turn, a truncated bootstrap, or an attempt that nobody is known to have called. */
  ghost predicate Blind(s: State, a: Action, g: nat) {
    exists did: nat, vendor ::
      Commits(s, a, did, vendor) && Takes(s.db, did) && s.db.deliveries[did].session == Some(g) && Binds(s.db, g, vendor)
      && (Ended(s.db, s.turns, did) == [] || !Evident(Ended(s.db, s.turns, did)[0]))
  }

  ghost predicate NeverBlind(s: State, acts: seq<Action>, g: nat)
    decreases |acts|
  {
    acts != [] ==> !Blind(s, acts[0], g) && NeverBlind(Next(s, acts[0]), acts[1..], g)
  }

  /** The session claims no more than its turns reach. */
  predicate Grounded(db: Ledger, taken: seq<Turn>, g: nat) {
    g < |db.sessions| && db.sessions[g].watermark.Some? ==> db.sessions[g].watermark.value <= Reach(taken, g)
  }

  lemma TamedGrounded(db: Ledger, db': Ledger, taken: seq<Turn>, g: nat)
    requires Grounded(db, taken, g) && Tamed(db.sessions, db'.sessions)
    ensures Grounded(db', taken, g)
  {
    hide Reach;
  }

  /** The turn a first result ends, for a started row: of its session and Record, and starting from what the session claims. */
  lemma EndedIs(db: Ledger, turns: map<Mark, Turn>, did: nat)
    requires LedgerOk(db) && (forall m :: m in turns ==> TurnAt(db, m, turns[m])) && Takes(db, did) && Ended(db, turns, did) != []
    ensures |Ended(db, turns, did)| == 1
    ensures var t := Ended(db, turns, did)[0];
            db.deliveries[did].session == Some(t.session) && t.position == db.deliveries[did].position && NativeOk(db, t)
  {
    Row(db, did);
    assert TurnAt(db, Mark(did, |db.deliveries[did].markers| - 1), turns[Mark(did, |db.deliveries[did].markers| - 1)]);
    hide LedgerOk, Answers, Deliverable, CancelApplies, RefusalNoted;
  }

  lemma FirstGrounded(s: State, s': State, did: nat, vendor: Option<string>, g: nat)
    requires LedgerOk(s.db) && TurnsHeld(s) && Grounded(s.db, s.taken, g) && FirstResult(s, s', did, vendor)
    requires s.db.deliveries[did].session == Some(g) && Binds(s.db, g, vendor) ==>
               Ended(s.db, s.turns, did) != [] && Evident(Ended(s.db, s.turns, did)[0])
    ensures Grounded(s'.db, s'.taken, g)
  {
    var more := Ended(s.db, s.turns, did);
    if more != [] { EndedIs(s.db, s.turns, did); }
    ReachMore(s.taken, more, g);
    var row := s.db.deliveries[did];
    var p :| s'.db.sessions == CommitNative(s.db.sessions, row.session, row.position, vendor, p);
    hide LedgerOk, Ended, Reach, TurnAt, TakenAt, PendingAt;
  }

  lemma NextGrounded(s: State, a: Action, g: nat)
    requires Inv(s) && TurnsHeld(s) && Grounded(s.db, s.taken, g) && !Blind(s, a, g)
    ensures Grounded(Next(s, a).db, Next(s, a).taken, g)
  {
    NextResult(s, a);
    InvParts(s);
    hide Inv, LedgerOk, SessionsOk, ProcsOk, MarksOk, CallsOk, CallbacksOk, Next, Commits, Tamed, Ended, Grounded, TurnsHeld, Evident;
    var s' := Next(s, a);
    if NoResult(s, s') {
      TamedGrounded(s.db, s'.db, s.taken, g);
    } else {
      var did: nat, vendor :| Commits(s, a, did, vendor) && FirstResult(s, s', did, vendor);
      FirstGrounded(s, s', did, vendor, g);
    }
  }

  lemma {:induction false} RunGrounded(s: State, acts: seq<Action>, g: nat)
    requires Inv(s) && TurnsHeld(s) && Grounded(s.db, s.taken, g) && NeverBlind(s, acts, g)
    ensures Grounded(Run(s, acts).db, Run(s, acts).taken, g)
    decreases |acts|
  {
    hide Inv, TurnsHeld, Grounded, Next, Blind;
    if acts != [] {
      NextGrounded(s, acts[0], g);
      NextHeld(s, acts[0]);
      NextInv(s, acts[0]);
      RunGrounded(Next(s, acts[0]), acts[1..], g);
    }
  }

  /** A session no result was committed to blindly, by a cycle or by a callback, has no context gap, lost or not. */
  lemma NoGapUnlessBlind(s0: State, acts: seq<Action>, g: nat)
    requires Initial(s0) && NeverBlind(s0, acts, g)
    requires g < |Run(s0, acts).db.sessions| && Run(s0, acts).db.sessions[g].watermark.Some?
    ensures NoGap(Run(s0, acts), g)
  {
    hide Inv, Next;
    InitialInv(s0);
    RunGrounded(s0, acts, g);
    RunTurns(s0, acts);
    GapExact(s0, acts, g);
    var s := Run(s0, acts);
    hide Run, Initial, NeverBlind, Covered, NoGap, Reach;
    forall k: nat | 1 <= k <= s.db.sessions[g].watermark.value ensures Covered(s.db, s.budget, s.taken, g, k) {
      ReachCovered(s.db, s.budget, s.taken, g, k);
    }
  }

  // ---------------------------------------------------------------- a session bound by a callback

  /** The callback commits the first result of a delivery whose session has no vendor session yet, and reports one. */
  predicate BindsByCallback(s: State, a: Action) {
    && a.Callback? && a.id !in s.callbacks && a.token.scope == s.scope && TokenPasses(s, a.token) && a.vendor.Some?
    && Takes(s.db, a.did) && s.db.deliveries[a.did].session.Some? && s.db.deliveries[a.did].session.value < |s.db.sessions|
    && Usable(s.db.sessions[s.db.deliveries[a.did].session.value]) && s.db.sessions[s.db.deliveries[a.did].session.value].vendor.None?
  }

  /** When a callback binds a session, the claim it makes is true exactly if every position up to the delivery's Record was covered before: by
      the turns the session ended, and by the turn the callback ends, if it was called at all. */
  lemma CallbackBindingExact(s0: State, acts: seq<Action>, a: Action)
    requires Initial(s0) && BindsByCallback(Run(s0, acts), a)
    ensures var s := Run(s0, acts); var s' := Next(s, a); var row := s.db.deliveries[a.did]; var g := row.session.value;
            && g < |s'.db.sessions| && s'.db.sessions[g].vendor == a.vendor && s'.db.sessions[g].watermark == Some(row.position)
            && (NoGap(s', g) <==>
                  forall k: nat :: 1 <= k <= row.position ==> Covered(s.db, s.budget, s.taken + Ended(s.db, s.turns, a.did), g, k))
  {
    hide Inv;
    InitialInv(s0);
    RunInv(s0, acts);
    RunTurns(s0, acts);
    hide *;
    CallbackBindingAt(Run(s0, acts), a);
  }

  lemma CallbackBindingAt(s: State, a: Action)
    requires Inv(s) && TurnsExact(s) && BindsByCallback(s, a)
    ensures var s' := Next(s, a); var row := s.db.deliveries[a.did]; var g := row.session.value;
            && g < |s'.db.sessions| && s'.db.sessions[g].vendor == a.vendor && s'.db.sessions[g].watermark == Some(row.position)
            && (NoGap(s', g) <==>
                  forall k: nat :: 1 <= k <= row.position ==> Covered(s.db, s.budget, s.taken + Ended(s.db, s.turns, a.did), g, k))
  {
    CallbackBinds(s, a);
    NextTurns(s, a);
    hide Inv, Next, BindsByCallback, TurnExact, Covered, Shown, FedTo, Ended;
    var s', g := Next(s, a), s.db.deliveries[a.did].session.value;
    forall k: nat ensures Covered(s.db, s.budget, s'.taken, g, k) <==> Shown(s'.db, FedTo(s'.taken, g), k) {
      CoveredSame(s.db, s'.db, s.budget, s'.taken, g, k);
      CoveredIs(s'.db, s'.budget, s'.taken, g, k);
    }
  }

  lemma CallbackBinds(s: State, a: Action)
    requires Inv(s) && BindsByCallback(s, a)
    ensures Takes(s.db, a.did) && s.db.deliveries[a.did].session.Some?
    ensures var s' := Next(s, a); var row := s.db.deliveries[a.did]; var g := row.session.value;
            && g < |s'.db.sessions| && s'.db.sessions[g].vendor == a.vendor && s'.db.sessions[g].watermark == Some(row.position)
            && s'.db.peer == s.db.peer && s'.db.log == s.db.log && s'.budget == s.budget
            && s'.taken == s.taken + Ended(s.db, s.turns, a.did)
  {
    CalledIs(s, a.id, a.token, a.did, a.value, a.vendor);
    InvParts(s);
    SessionRow(s.db, s.taken, s.unproven, s.db.deliveries[a.did].session.value);
    BindingCommit(s.db, a.did, a.value, a.vendor, s.kernel.now);
    hide Inv, LedgerOk, SessionsOk, ProcsOk, MarksOk, CallsOk, CallbacksOk, AllShown, TokenPasses, Called, Ended, Unproven, FinalizeTerminal;
    assert Next(s, a) == Called(s, a.id, a.token, a.did, a.value, a.vendor);
  }

  lemma BindingCommit(db: Ledger, did: nat, value: string, vendor: Option<string>, now: real)
    requires Takes(db, did) && db.deliveries[did].session.Some? && db.deliveries[did].session.value < |db.sessions| && vendor.Some?
    requires var m := db.sessions[db.deliveries[did].session.value]; Usable(m) && m.watermark.None?
    ensures var f := FinalizeTerminal(db, did, value, vendor, None, now); var g := db.deliveries[did].session.value;
            && f.Ok? && f.value.1.First? && f.value.0.peer == db.peer && f.value.0.log == db.log && g < |f.value.0.sessions|
            && f.value.0.sessions[g].vendor == vendor && f.value.0.sessions[g].watermark == Some(db.deliveries[did].position)
  {
  }
}
