/**
 The Session Bridge of one (stream, peer) scope as a state machine.

 One step is one write transaction, one decision on values just read, or one event of the runtime. Any number of owners run
 delivery cycles at once, and terminal callbacks arrive beside them under any token; a crash drops a program counter and keeps
 the tables; the clock and other owners may take the claim away between any two steps; clients append whatever they like, and
 the runtime yields whatever events it likes. Only `PrespawnError` before a `started` event is trusted to mean that nothing ran.
 */
module BridgeMachine {
  import opened Wrappers
  import opened BridgeLedger
  import opened BridgeContext
  import Claims
  import CatchUp

  /** Where durable intent is re-checked, with what the cycle holds there. */
  datatype Site =
    | AtStart
    | AtBegun(did: nat)
    | AtCreate(did: nat)
    | AtPrepared(turn: Turn)
    | AtMarked(turn: Turn, n: nat)

  datatype Then = ThenScan | ThenAck(did: nat) | ThenRest

  /** The program counter of one delivery cycle with its live local variables. */
  datatype Pc =
    | Idle
    | Gate(site: Site)
    | Sweeping(cursor: nat, site: Site)
    | Swept(site: Site)
    | Unpaused(site: Site)
    | Uncertain(did: nat)
    | Clear
    | Scan(cursor: nat)
    | Chosen(position: nat, retry: Option<nat>)
    | Admitted(did: nat)
    | Creating(did: nat)
    | Resolved(did: nat, session: nat)
    | Passed(turn: Turn)
    | Halting(turn: Turn, n: nat, cancel: bool)
    | Cleared(turn: Turn, n: nat)
    | Armed(turn: Turn, n: nat)
    | Live(turn: Turn, n: nat, started: bool)
    | Naming(turn: Turn, n: nat, execution: string)
    | Ditching(session: nat, tainted: bool)
    | Finalizing(turn: Turn, value: string, vendor: Option<string>)
    | Noting(turn: Turn, code: string)
    | Settling(did: nat, code: string)
    | Losing(did: nat)
    | Materializing(did: nat)
    | Responding(did: nat, payload: Payload)
    | Binding(did: nat, k: nat)
    | Advancing(target: nat, seen: Option<nat>, next: Then)
    | Acking(did: nat)
    | Cancelling(did: nat)
    | CancelAcking(did: nat)

  /** What the environment decides at a step. */
  datatype Input =
    | Go
    | Abort
    | Take(lease: nat)
    | Stranded(position: nat, lease: nat)
    | Reread
    | Rebind
    | Refuse(code: string)
    | Resume(session: nat)
    | ResumeFails(session: nat, lost: bool)
    | Allocate
    | Prune(session: nat)
    | Create(cli: bool)
    | CreateFails
    | Beat
    | StartedEvent(execution: string)
    | TerminalEvent(value: string, vendor: Option<string>)
    | RefusalEvent(code: string)
    | Prespawn(contextLost: bool)
    | Vanish
    | Json(json: seq<CatchUp.byte>, tokens: nat)

  datatype Proc = Proc(token: Claims.Token, pc: Pc)

  datatype Phase = Fencing | Acting | Completing(outcome: ControlOutcome)

  /** One application of a control Record, under its own lease; inside a cycle it carries the cycle's token. */
  datatype Handler = Handler(position: nat, attempts: nat, token: Option<Claims.Token>, phase: Phase)

  /** Every owner runs at most one cycle; any number of terminal callbacks run beside it, also under the same token. `calls` logs every
      `runtime.deliver` as (attempt, marker), and `turns` what was passed to it; `taken` are the turns that ended in a terminal result, so
      what each session has consumed; `unproven` are sessions bound by a turn that is not evidence of their whole context. */
  datatype State = State(
    db: Ledger,
    kernel: Claims.State,
    scope: Claims.Scope,
    procs: map<string, Proc>,
    callbacks: map<nat, Proc>,
    handlers: map<nat, Handler>,
    calls: seq<Mark>,
    turns: map<Mark, Turn>,
    taken: seq<Turn>,
    unproven: set<nat>,
    budget: CatchUp.Budget,
    lease: real)

  datatype Action =
    | Kernel(act: Claims.Action)
    | Append(rec: Rec)
    | Close
    | Authorize(record: nat)
    | Begin(owner: string, lease: real, workspace: string)
    | Crash(owner: string)
    | Step(owner: string, input: Input)
    | Callback(id: nat, token: Claims.Token, did: nat, value: string, vendor: Option<string>)
    | Follow(id: nat, input: Input)
    | Lapse(id: nat)
    | Accept(position: nat, id: nat)
    | Fence(id: nat, supported: bool)
    | Act(id: nat, failed: bool)
    | Complete(id: nat)
    | Abandon(id: nat)

  // ---------------------------------------------------------------- one cycle's own steps

  /** A step of a cycle: not possible here, done, or an exception that leaves the cycle. */
  datatype Move = Stays | Goes(db: Ledger, pc: Pc) | Raises(db: Ledger)

  /** A fenced write: the token must pass the claim check in the same transaction. */
  function Fenced(db: Ledger, ok: bool, r: Result<Ledger, Error>, pc: Pc): Move {
    if ok && r.Ok? then Goes(r.value, pc) else Raises(db)
  }

  function FencedIf(db: Ledger, ok: bool, db': Ledger, pc: Pc): Move {
    if db' == db then Goes(db, pc) else Fenced(db, ok, Ok(db'), pc)
  }

  function SiteDid(site: Site): Option<nat> {
    match site
    case AtStart => None
    case AtBegun(did) => Some(did)
    case AtCreate(did) => Some(did)
    case AtPrepared(t) => Some(t.did)
    case AtMarked(t, _) => Some(t.did)
  }

  /** The reason of the refusal recorded for the delivery. */
  function RefusalOf(evidence: seq<Note>, did: nat): Option<string> {
    if evidence == [] then None
    else
      var n := evidence[|evidence| - 1];
      if n.event.RefusalDetected? && n.delivery == Some(did) then Some(n.event.code)
      else RefusalOf(evidence[..|evidence| - 1], did)
  }

  predicate FailedBefore(a: Attempt) {
    exists n :: 0 <= n < |a.markers| && a.markers[n].PrespawnFailure?
  }

  /** Recognise what recovery found: terminal truth, a refusal, an uncertain attempt, one not started, or nothing. */
  ghost function Inspect(db: Ledger, ok: bool, input: Input): Move {
    var infl := Inflight(db);
    if infl.None? then (if input.Go? then Goes(db, Clear) else Stays)
    else
      var did := infl.value;
      var a := db.deliveries[did];
      match input
      case Rebind =>
        if a.certainty.NotStarted? && FailedBefore(a) then Fenced(db, ok, RejectSelector(db, did, "delivery_failed"), Clear) else Stays
      case Go =>
        (match a.certainty
         case Terminal => Goes(db, Materializing(did))
         case NotStarted =>
           if Paused(db) || RetryBlocked(db, a.retry) then Goes(db, Idle) else Goes(db, Chosen(a.position, None))
         case _ =>
           if a.certainty.Started? && RefusalOf(db.evidence, did).Some?
           then Goes(db, Settling(did, RefusalOf(db.evidence, did).value))
           else FencedIf(db, ok, db.(sessions := Taint(db.sessions, a.session)), Uncertain(did)))
      case _ => Stays
  }

  /** An uncertain attempt is replayed only on an unconsumed RETRY that no later cancel blocks. */
  ghost function Decide(db: Ledger, did: nat): Move {
    if did >= |db.deliveries| then Raises(db)
    else if Paused(db) || did !in db.retries || db.retries[did].consumed.Some? || !db.deliveries[did].certainty.MayHaveStarted?
            || RetryBlocked(db, Some(db.retries[did].position)) then Goes(db, Idle)
    else Goes(db, Chosen(db.deliveries[did].position, Some(did)))
  }

  /** One Record of the unread window that needs no intake: own and reconcile Records and control for others are consumed,
      anything else is picked. */
  function ScanNext(db: Ledger, cursor: nat): Move {
    if cursor >= |db.log| then Goes(db, Idle)
    else
      var r := At(db, cursor + 1);
      if r.author == db.peer || r.kind.Reconcile? then Goes(db, Advancing(cursor + 1, None, ThenScan))
      else if IsControl(r.kind) then (if Addressed(db, r) then Stays else Goes(db, Advancing(cursor + 1, None, ThenScan)))
      else Goes(db, Chosen(cursor + 1, None))
  }

  /** The next Record a sweep must take in before going on, if it is control intent for the peer. */
  predicate MustTake(db: Ledger, cursor: nat) {
    cursor < |db.log| && ControlFor(db, cursor + 1)
  }

  ghost function StartStep(db: Ledger, pc: Pc, input: Input, ok: bool, claim: nat): Move {
    match pc
    case Idle => if input.Go? then FencedIf(db, ok, PromoteUnresolved(db), Gate(AtStart)) else Stays
    case Swept(AtStart) => Inspect(db, ok, input)
    case Uncertain(did) => if input.Go? then Decide(db, did) else Stays
    case Clear => if input.Go? then Goes(db, if Paused(db) then Idle else Scan(db.offset)) else Stays
    case Scan(cursor) =>
      if input.Go? then ScanNext(db, cursor) else if input.Reread? then Goes(db, Scan(db.offset)) else Stays
    case Chosen(position, retry) =>
      if !input.Go? then Stays
      else
        (match BeginAttempt(db, position, retry, claim)
         case Err(_) => Raises(db)
         case Ok(r) => Fenced(db, ok, Ok(r.0), Gate(AtBegun(r.1))))
    case _ => Stays
  }

  /** The two reads of a gate: pause state, then whether a cancel applies. */
  ghost function GateStep(db: Ledger, pc: Pc, input: Input, ok: bool): Move {
    match pc
    case Gate(site) =>
      if input.Refuse? && site.AtBegun? then Fenced(db, ok, RejectSelector(db, site.did, input.code), Idle)
      else if input.Go? then Goes(db, Sweeping(db.offset, site)) else Stays
    case Sweeping(cursor, site) =>
      if !input.Go? || MustTake(db, cursor) then Stays
      else if cursor < |db.log| then Goes(db, Sweeping(cursor + 1, site)) else Goes(db, Swept(site))
    case Swept(site) =>
      if !input.Go? then Stays
      else if !Paused(db) then Goes(db, Unpaused(site))
      else if site.AtMarked? then Goes(db, Halting(site.turn, site.n, false))
      else Goes(db, Idle)
    case Unpaused(site) =>
      if !input.Go? then Stays
      else
        (match site
         case AtStart => Stays
         case AtBegun(did) => Goes(db, if CancelApplies(db, did) then Cancelling(did) else Admitted(did))
         case AtCreate(did) => Goes(db, if CancelApplies(db, did) then Cancelling(did) else Creating(did))
         case AtPrepared(t) => Goes(db, if CancelApplies(db, t.did) then Cancelling(t.did) else Passed(t))
         case AtMarked(t, n) => Goes(db, if CancelApplies(db, t.did) then Halting(t, n, true) else Cleared(t, n)))
    case _ => Stays
  }

  /** Session resolution: resume a compatible session, or allocate a fresh one, behind its own gate. */
  function SessionStep(db: Ledger, pc: Pc, input: Input, ok: bool, budget: CatchUp.Budget): Move {
    match pc
    case Admitted(did) =>
      (match input
       case Refuse(code) => Fenced(db, ok, RejectSelector(db, did, code), Idle)
       case Prune(g) => Fenced(db, ok, Ok(Tombstone(db, g)), pc)
       case Resume(g) =>
         if did < |db.deliveries| && Resumable(db, g, db.deliveries[did].position, budget)
         then Fenced(db, ok, ResumeSession(db, did, g), Resolved(did, g)) else Stays
       case ResumeFails(g, lost) => Fenced(db, ok, Ok(if lost then LoseSession(db, g) else db), pc)
       case Allocate => Goes(db, Gate(AtCreate(did)))
       case _ => Stays)
    case Creating(did) =>
      (match input
       case Create(cli) => Fenced(db, ok, CreateSession(db, did, cli), Resolved(did, |db.sessions|))
       case CreateFails => Goes(db, Gate(AtCreate(did)))
       case Go => Goes(db, Idle)
       case _ => Stays)
    case Resolved(did, g) =>
      if !input.Go? then Stays
      else if did >= |db.deliveries| || g >= |db.sessions| || TurnFor(db, did, g, budget).None? then Raises(db)
      else Goes(db, Gate(AtPrepared(TurnFor(db, did, g, budget).value)))
    case _ => Stays
  }

  /** Marker, fence and the events of the runtime. */
  function InvokeStep(db: Ledger, pc: Pc, input: Input, ok: bool): Move {
    match pc
    case Passed(t) =>
      if !input.Go? || t.did >= |db.deliveries| then Stays
      else Fenced(db, ok, MarkInvocation(db, t.did), Gate(AtMarked(t, |db.deliveries[t.did].markers|)))
    case Halting(t, n, cancel) =>
      if !input.Go? then Stays else Fenced(db, ok, ResolveInvocation(db, t.did, ControlHalt), if cancel then Cancelling(t.did) else Idle)
    case Cleared(t, n) => if !input.Go? then Stays else Goes(db, if ok then Armed(t, n) else Idle)
    case Live(t, n, started) =>
      (match input
       case StartedEvent(e) => Fenced(db, ok, Transition(db, t.did, Started, StartedNote), Naming(t, n, e))
       case TerminalEvent(value, vendor) =>
         if started then Goes(db, Finalizing(t, value, vendor))
         else Fenced(db, ok, Transition(db, t.did, MayHaveStarted, StartUncertain), Idle)
       case RefusalEvent(code) => if started then Goes(db, Noting(t, code)) else Stays
       case Prespawn(lost) =>
         if started then Goes(db, Ditching(t.session, !lost))
         else Fenced(db, ok, ResolveInvocation(db, t.did, PrespawnFailure), if lost then Ditching(t.session, false) else Idle)
       case Vanish =>
         if started then Goes(db, Ditching(t.session, true))
         else Fenced(db, ok, Transition(db, t.did, MayHaveStarted, StartUncertain), Idle)
       case _ => Stays)
    case Naming(t, n, e) => if input.Go? then Fenced(db, ok, BindExecution(db, t.did, e), Live(t, n, true)) else Stays
    case Ditching(g, tainted) =>
      if input.Go? then FencedIf(db, ok, if tainted then db.(sessions := Taint(db.sessions, Some(g))) else LoseSession(db, g), Idle)
      else Stays
    case _ => Stays
  }

  function ProvenanceOf(t: Turn): Provenance {
    Provenance(t.mode.Native?, t.truncated)
  }

  /** Terminal evidence. A stale token leaves evidence only; a conflicting result leaves evidence and raises. */
  function Finalized(db: Ledger, ok: bool, did: nat, value: string, vendor: Option<string>, p: Option<Provenance>, now: real): Move {
    if !ok then Raises(db.(evidence := db.evidence + [Note(StaleTerminal, Some(did))]))
    else
      match FinalizeTerminal(db, did, value, vendor, p, now)
      case Err(_) => Raises(db)
      case Ok(r) => if r.1.Conflict? then Raises(r.0) else Goes(r.0, Materializing(did))
  }

  function SettleStep(db: Ledger, pc: Pc, input: Input, ok: bool, now: real): Move {
    match pc
    case Finalizing(t, value, vendor) =>
      if input.Go? then Finalized(db, ok, t.did, value, vendor, Some(ProvenanceOf(t)), now) else Stays
    case Noting(t, code) => if input.Go? then Fenced(db, ok, Ok(NoteRefusal(db, t.did, code)), Settling(t.did, code)) else Stays
    case Settling(did, code) => if input.Go? then Fenced(db, ok, SettleRefusal(db, did, code), Losing(did)) else Stays
    case Losing(did) =>
      if !input.Go? || did >= |db.deliveries| then Stays
      else
        var a := db.deliveries[did];
        FencedIf(db, ok, if a.session.Some? then LoseSession(db, a.session.value) else db, Advancing(a.position, None, ThenAck(did)))
    case Materializing(did) =>
      if !input.Go? || did >= |db.deliveries| then Stays else Goes(db, Responding(did, PayloadOf(db.deliveries[did])))
    case Responding(did, p) =>
      if !input.Json? then Stays
      else
        (match AppendResponse(db, did, p, input.json, input.tokens)
         case Err(_) => Raises(db)
         case Ok(r) => Fenced(db, ok, Ok(r.0), Binding(did, r.1)))
    case Binding(did, k) =>
      if !input.Go? || did >= |db.deliveries| then Stays
      else Fenced(db, ok, BindResponse(db, did, k), Advancing(db.deliveries[did].position, None, ThenAck(did)))
    case Cancelling(did) =>
      if !input.Go? || did >= |db.deliveries| then Stays
      else Fenced(db, ok, Ok(NoteCancelled(db, did, db.deliveries[did].position)), CancelAcking(did))
    case CancelAcking(did) =>
      if !input.Go? || did >= |db.deliveries| then Stays
      else Fenced(db, ok, AckCancelled(db, did), Advancing(db.deliveries[did].position, None, ThenRest))
    case Acking(did) => if input.Go? then Fenced(db, ok, Ack(db, did), Idle) else Stays
    case _ => Stays
  }

  function After(target: nat, next: Then): Pc {
    match next
    case ThenScan => Scan(target)
    case ThenAck(did) => Acking(did)
    case ThenRest => Idle
  }

  /** The Offset loop: read, then compare-and-set on the revision read, again after a lost race. */
  function OffsetStep(db: Ledger, pc: Pc, input: Input, ok: bool): Move {
    if !pc.Advancing? || !input.Go? then Stays
    else if pc.seen.None? then
      Goes(db, if db.offset >= pc.target then After(pc.target, pc.next) else pc.(seen := Some(db.revision)))
    else
      match AdvanceOffset(db, pc.target, pc.seen.value)
      case Ok(db') => Fenced(db, ok, Ok(db'), After(pc.target, pc.next))
      case Err(e) => if e.CasMismatch? && ok then Goes(db, pc.(seen := None)) else Raises(db)
  }

  ghost function MoveOf(db: Ledger, pc: Pc, input: Input, ok: bool, claim: nat, now: real, budget: CatchUp.Budget): Move {
    if input.Abort? then Raises(db)
    else
      match pc
      case Idle => StartStep(db, pc, input, ok, claim)
      case Swept(site) => if site.AtStart? then StartStep(db, pc, input, ok, claim) else GateStep(db, pc, input, ok)
      case Uncertain(_) => StartStep(db, pc, input, ok, claim)
      case Clear => StartStep(db, pc, input, ok, claim)
      case Scan(_) => StartStep(db, pc, input, ok, claim)
      case Chosen(_, _) => StartStep(db, pc, input, ok, claim)
      case Gate(_) => GateStep(db, pc, input, ok)
      case Sweeping(_, _) => GateStep(db, pc, input, ok)
      case Unpaused(_) => GateStep(db, pc, input, ok)
      case Admitted(_) => SessionStep(db, pc, input, ok, budget)
      case Creating(_) => SessionStep(db, pc, input, ok, budget)
      case Resolved(_, _) => SessionStep(db, pc, input, ok, budget)
      case Passed(_) => InvokeStep(db, pc, input, ok)
      case Halting(_, _, _) => InvokeStep(db, pc, input, ok)
      case Cleared(_, _) => InvokeStep(db, pc, input, ok)
      case Live(_, _, _) => InvokeStep(db, pc, input, ok)
      case Naming(_, _, _) => InvokeStep(db, pc, input, ok)
      case Ditching(_, _) => InvokeStep(db, pc, input, ok)
      case Armed(_, _) => Stays
      case Advancing(_, _, _) => OffsetStep(db, pc, input, ok)
      case _ => SettleStep(db, pc, input, ok, now)
  }

  // ---------------------------------------------------------------- steps of the whole system

  predicate TokenPasses(s: State, token: Claims.Token) {
    Claims.Passes(s.kernel, token)
  }

  /** What session `g` has consumed: the Records of its terminal turns, and what was injected with them. */
  function FedTo(taken: seq<Turn>, g: nat): set<nat> {
    set i, k | 0 <= i < |taken| && taken[i].session == g && k in taken[i].feed + {taken[i].position} :: k
  }

  /** The turn a terminal result ends: the one last passed to the runtime, under the attempt's last marker. */
  function Ended(db: Ledger, turns: map<Mark, Turn>, did: nat): seq<Turn> {
    if did < |db.deliveries| && !db.deliveries[did].certainty.Terminal? && db.deliveries[did].markers != []
       && Mark(did, |db.deliveries[did].markers| - 1) in turns
    then [turns[Mark(did, |db.deliveries[did].markers| - 1)]] else []
  }

  function SetPc(s: State, owner: string, pc: Pc): State
    requires owner in s.procs
  {
    s.(procs := s.procs[owner := s.procs[owner].(pc := pc)])
  }

  /** A control is accepted and leased, and its handler goes on from there; it may outlive the cycle that started it. */
  function Intake(s: State, position: nat, lease: nat, token: Option<Claims.Token>): State {
    if lease in s.handlers then s
    else
      match AcceptControl(s.db, position, Lease(lease, s.kernel.now + s.lease), s.kernel.now,
                          Claims.RowOf(s.kernel, s.scope), s.kernel.workspace)
      case Err(_) => s
      case Ok(r) =>
        if r.1.Leased? then s.(db := r.0, handlers := s.handlers[lease := Handler(position, r.1.attempts, token, Fencing)])
        else s.(db := r.0)
  }

  /** A terminal result binds the session to a vendor session though its turn is no evidence of the session's whole context:
      a local turn, or a late callback. */
  function Unproven(db: Ledger, did: nat, vendor: Option<string>, turn: Option<Turn>): set<nat> {
    if did < |db.deliveries| && !db.deliveries[did].certainty.Terminal? && db.deliveries[did].session.Some?
       && (turn.None? || Local(turn.value.mode)) && Binds(db, db.deliveries[did].session.value, vendor)
    then {db.deliveries[did].session.value} else {}
  }

  predicate Binds(db: Ledger, g: nat, vendor: Option<string>) {
    g < |db.sessions| && Usable(db.sessions[g]) && (vendor.Some? || db.sessions[g].vendor.Some?)
  }

  /** What a committed terminal result (the first or a repeated one) leaves behind. */
  function Concluded(s: State, db': Ledger, did: nat, vendor: Option<string>, turn: Option<Turn>): State {
    s.(db := db', taken := s.taken + Ended(s.db, s.turns, did), unproven := s.unproven + Unproven(s.db, did, vendor, turn))
  }

  /** `runtime.deliver` is called, outside any transaction, with the turn. */
  function Call(s: State, owner: string): State
    requires owner in s.procs && s.procs[owner].pc.Armed?
  {
    var t, n := s.procs[owner].pc.turn, s.procs[owner].pc.n;
    SetPc(s.(calls := s.calls + [Mark(t.did, n)], turns := s.turns[Mark(t.did, n) := t]), owner, Live(t, n, false))
  }

  /** Every event is preceded by a heartbeat; a cycle that lost its claim stops there. */
  function Heartbeat(s: State, owner: string): State
    requires owner in s.procs
  {
    match Claims.Heartbeat(s.kernel, s.procs[owner].token)
    case Err(_) => SetPc(s, owner, Idle)
    case Ok(k) => s.(kernel := k)
  }

  /** A sweep or a scan takes in the next Record before it looks further. */
  function TakeIn(s: State, owner: string, lease: nat): State
    requires owner in s.procs && (s.procs[owner].pc.Sweeping? || s.procs[owner].pc.Scan?)
  {
    var p := s.procs[owner];
    var next := p.pc.cursor + 1;
    SetPc(Intake(s, next, lease, Some(p.token)), owner,
          if p.pc.Sweeping? then Sweeping(next, p.pc.site) else Advancing(next, None, ThenScan))
  }

  ghost function MoveProc(s: State, owner: string, input: Input): State
    requires owner in s.procs
  {
    var p := s.procs[owner];
    var ok := TokenPasses(s, p.token);
    match MoveOf(s.db, p.pc, input, ok, p.token.generation, s.kernel.now, s.budget)
    case Stays => s
    case Raises(db) => SetPc(s.(db := db), owner, Idle)
    case Goes(db, pc) =>
      SetPc(if p.pc.Finalizing? then Concluded(s, db, p.pc.turn.did, p.pc.vendor, Some(p.pc.turn)) else s.(db := db), owner, pc)
  }

  /** A terminal callback, from any thread, under any token: it commits its result and goes on to materialise it. */
  function Called(s: State, id: nat, token: Claims.Token, did: nat, value: string, vendor: Option<string>): State {
    if id in s.callbacks || token.scope != s.scope then s
    else
      match Finalized(s.db, TokenPasses(s, token), did, value, vendor, None, s.kernel.now)
      case Stays => s
      case Raises(db) => s.(db := db)
      case Goes(db, pc) => Concluded(s, db, did, vendor, None).(callbacks := s.callbacks[id := Proc(token, pc)])
  }

  /** The next step of a callback: it appends, binds, advances and acknowledges like a cycle. */
  ghost function Followed(s: State, id: nat, input: Input): State
    requires id in s.callbacks
  {
    var p := s.callbacks[id];
    match MoveOf(s.db, p.pc, input, TokenPasses(s, p.token), p.token.generation, s.kernel.now, s.budget)
    case Stays => s
    case Raises(db) => s.(db := db, callbacks := s.callbacks - {id})
    case Goes(db, pc) => s.(db := db, callbacks := if pc.Idle? then s.callbacks - {id} else s.callbacks[id := p.(pc := pc)])
  }

  ghost function StepProc(s: State, owner: string, input: Input): State
    requires owner in s.procs
  {
    var p := s.procs[owner];
    if (p.pc.Sweeping? || p.pc.Scan?) && input.Take? && input.lease !in s.handlers && MustTake(s.db, p.pc.cursor) then
      TakeIn(s, owner, input.lease)
    else if p.pc.Gate? && input.Stranded? && input.position in s.db.controls then
      Intake(s, input.position, input.lease, Some(p.token))
    else if p.pc.Armed? && input.Go? then Call(s, owner)
    else if p.pc.Live? && input.Beat? then Heartbeat(s, owner)
    else MoveProc(s, owner, input)
  }

  ghost function StepHandler(s: State, a: Action): State {
    match a
    case Accept(position, id) => Intake(s, position, id, None)
    case Fence(id, supported) =>
      if id !in s.handlers || !s.handlers[id].phase.Fencing? then s
      else
        var h := s.handlers[id];
        var current := h.token.None? || TokenPasses(s, h.token.value);
        var row := Claims.RowOf(s.kernel, s.scope);
        (match FenceControl(s.db, h.position, id, h.attempts, s.kernel.now, current,
                            if row.Some? then Some(row.value.generation) else None, supported)
         case Superseded => s.(handlers := s.handlers - {id})
         case ClaimLost => s.(handlers := s.handlers - {id})
         case Decided(o) => s.(handlers := s.handlers[id := h.(phase := Completing(o))])
         case DoEffect => s.(handlers := s.handlers[id := h.(phase := Acting)]))
    case Act(id, failed) =>
      if id !in s.handlers || !s.handlers[id].phase.Acting? then s
      else s.(handlers := s.handlers[id := s.handlers[id].(phase := Completing(if failed then Failed else ControlOutcome.Done))])
    case Complete(id) =>
      if id !in s.handlers || !s.handlers[id].phase.Completing? then s
      else
        var h := s.handlers[id];
        var current := h.token.None? || TokenPasses(s, h.token.value);
        s.(db := CompleteControl(s.db, h.position, id, h.attempts, s.kernel.now, current, h.phase.outcome).0,
           handlers := s.handlers - {id})
    case Abandon(id) => s.(handlers := s.handlers - {id})
    case _ => s
  }

  /** One step; an action that is not possible leaves the state alone. */
  ghost function Next(s: State, a: Action): State {
    match a
    case Kernel(act) => if act.Restore? then s else s.(kernel := Claims.Next(s.kernel, act))
    case Append(r) => s.(db := AppendRecord(s.db, r))
    case Close => s.(db := s.db.(closed := true))
    case Authorize(record) =>
      (match RegisterRetry(s.db, record) case Err(_) => s case Ok(db) => s.(db := db))
    case Begin(owner, lease, workspace) =>
      if (owner in s.procs && !s.procs[owner].pc.Idle?) || workspace !in s.kernel.used then s
      else
        (match Claims.Acquire(s.kernel, s.scope, owner, lease, workspace)
         case Err(_) => s
         case Ok(r) => s.(kernel := r.0, procs := s.procs[owner := Proc(r.1, Idle)]))
    case Crash(owner) => s.(procs := s.procs - {owner})
    case Step(owner, input) => if owner in s.procs then StepProc(s, owner, input) else s
    case Callback(id, token, did, value, vendor) => Called(s, id, token, did, value, vendor)
    case Follow(id, input) => if id in s.callbacks then Followed(s, id, input) else s
    case Lapse(id) => s.(callbacks := s.callbacks - {id})
    case _ => StepHandler(s, a)
  }

  ghost function Run(s: State, acts: seq<Action>): State
    decreases |acts|
  {
    if acts == [] then s else Run(Next(s, acts[0]), acts[1..])
  }

  /** A new scope: no Records, no attempts, no cycle running. */
  ghost predicate Initial(s: State) {
    && s.db == Empty(s.scope.peer) && Claims.WellFormed(s.kernel)
    && s.procs == map[] && s.callbacks == map[] && s.handlers == map[]
    && s.calls == [] && s.turns == map[] && s.taken == [] && s.unproven == {}
  }
}
