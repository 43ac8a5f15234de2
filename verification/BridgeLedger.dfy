/**
 The Bridge ledger of one (stream, peer) scope: its tables, and one function per write transaction.

 A transaction either commits a whole new ledger or fails and leaves everything alone. Which token may run it, and when,
 is decided in `BridgeMachine`. The append-only and write-once triggers of the tables appear as failing transactions
 where a statement could violate them, and as proved facts (`Grows`, `LedgerOk`) where it cannot.
 */
module BridgeLedger {
  import opened Wrappers
  import CatchUp
  import Claims

  // ---------------------------------------------------------------- rows

  datatype Kind =
    | Prompt | Response | Other
    | Reconcile
    | Pause | Resume | Cancel | Redirect | OtherControl | Boundary

  /** The kinds with a row in the control table; no cycle ever delivers one. */
  predicate IsControl(k: Kind) {
    k.Pause? || k.Resume? || k.Cancel? || k.Redirect? || k.OtherControl? || k.Boundary?
  }

  /** What a response Record carries: fixed once the delivery is terminal. */
  datatype Payload = Payload(answer: string, replyTo: nat, execution: Option<string>, createdAt: real)

  datatype Body = Opaque(text: string) | Decision(retry: bool, delivery: nat) | Reply(payload: Payload)

  datatype Key = ClientKey(key: string) | ResponseKey(delivery: nat)

  /** A Record; its position is its place in the log, counted from 1. An empty target set addresses everyone. */
  datatype Rec = Rec(author: string, kind: Kind, targets: set<string>, key: Key, body: Body, json: seq<CatchUp.byte>, tokens: nat)

  datatype Certainty = NotStarted | MayHaveStarted | Started | Terminal

  datatype Marker = Open | PrespawnFailure | ControlHalt | Promoted

  datatype Outcome = Answer(value: string) | Rejected(code: string) | Refused(code: string)

  /** One delivery attempt; its id is its place in the table. `created` is the evidence sequence number of its creation. */
  datatype Attempt = Attempt(
    position: nat,
    number: nat,
    claim: nat,
    retry: Option<nat>,
    created: nat,
    certainty: Certainty,
    markers: seq<Marker>,
    session: Option<nat>,
    execution: Option<string>,
    outcome: Option<Outcome>,
    terminalAt: real,
    response: Option<nat>,
    acked: bool)

  /** A RETRY authorization: the position of the newest valid reconcile Record and the attempt that consumed it. */
  datatype Authorization = Authorization(position: nat, consumed: Option<nat>)

  datatype Effect = NoEffect | Interrupt | Terminate | Steer

  datatype ControlOutcome = Done | Failed | Unsupported | StaleTarget | NothingRunning | NotRequired | Noted | UnsupportedKind

  datatype Target = Nothing | Running(delivery: nat, claim: nat)

  datatype Lease = Lease(id: nat, expires: real)

  datatype Control = Control(
    kind: Kind,
    acceptedSeq: nat,
    outcome: Option<ControlOutcome>,
    lease: Option<Lease>,
    attempts: nat,
    target: Option<Target>)

  datatype SessionState = Active | Fresh | Lost | Tombstoned

  /** A retained session; its generation is its place in the table. `cli` is a native command-line runtime kind. */
  datatype Session = Session(cli: bool, state: SessionState, vendor: Option<string>, watermark: Option<nat>, truncated: Option<bool>)

  datatype Note = Note(event: Event, delivery: Option<nat>)

  datatype Event =
    | AttemptCreated | AboutToInvoke(marker: nat) | MarkerResolved(marker: nat, reason: Marker)
    | StartedNote | StartUncertain | RecoveredNote | TerminalNote | DuplicateTerminal | ConflictingTerminal | StaleTerminal
    | RefusalDetected(code: string) | RequestRejected | CancelledBeforeInvoke(position: nat)
    | ResponseAppended | OffsetAcked | RetryRegistered | ControlApplied(position: nat) | SessionTainted

  datatype Ledger = Ledger(
    peer: string,
    closed: bool,
    log: seq<Rec>,
    deliveries: seq<Attempt>,
    retries: map<nat, Authorization>,
    controls: map<nat, Control>,
    sessions: seq<Session>,
    offset: nat,
    revision: nat,
    evidence: seq<Note>)

  datatype Error =
    | NoDelivery | IllegalTransition | MarkerProtocol | RecordRejected | ReconcileRejected | AlreadySettled | SessionBound
    | IdempotencyConflict | StreamClosed | CasMismatch | OffsetRegression | OffsetBeyondHead | ControlRejected

  function Empty(peer: string): Ledger {
    Ledger(peer, false, [], [], map[], map[], [], 0, 1, [])
  }

  // ---------------------------------------------------------------- reading rows

  function At(db: Ledger, position: nat): Rec
    requires 1 <= position <= |db.log|
  {
    db.log[position - 1]
  }

  predicate Targeted(peer: string, r: Rec) {
    r.targets == {} || peer in r.targets
  }

  predicate Addressed(db: Ledger, r: Rec) {
    Targeted(db.peer, r)
  }

  /** Neither the peer's own Record, nor a reconcile Record, nor control intent: something to deliver. */
  predicate Deliverable(db: Ledger, position: nat) {
    1 <= position <= |db.log|
    && At(db, position).author != db.peer && !At(db, position).kind.Reconcile? && !IsControl(At(db, position).kind)
  }

  /** The newest unresolved marker. */
  function LastOpen(ms: seq<Marker>): Option<nat> {
    if ms == [] then None
    else if ms[|ms| - 1].Open? then Some(|ms| - 1) else LastOpen(ms[..|ms| - 1])
  }

  /** The newest attempt for the Record at `position`. */
  function LastAttempt(ds: seq<Attempt>, position: nat): Option<nat> {
    if ds == [] then None
    else if ds[|ds| - 1].position == position then Some(|ds| - 1) else LastAttempt(ds[..|ds| - 1], position)
  }

  /** The newest attempt of the scope, when it is not acknowledged. */
  function Inflight(db: Ledger): Option<nat> {
    if db.deliveries != [] && !db.deliveries[|db.deliveries| - 1].acked then Some(|db.deliveries| - 1) else None
  }

  /** Whether the pause or resume at the highest position among the accepted ones is a pause. */
  ghost predicate Paused(db: Ledger) {
    exists c :: c in db.controls && db.controls[c].kind.Pause?
                && forall d :: d in db.controls && d > c ==> !db.controls[d].kind.Resume?
  }

  /** A cancel bars the attempt: its intake is later evidence than the row, and it stands in the log after what the row answers to. */
  ghost predicate CancelApplies(db: Ledger, did: nat) {
    did < |db.deliveries| &&
    exists c :: c in db.controls && db.controls[c].kind.Cancel? && Above(c, db.deliveries[did])
                && db.controls[c].acceptedSeq >= db.deliveries[did].created
  }

  predicate Above(c: nat, a: Attempt) {
    c > a.position && (a.retry.Some? ==> c > a.retry.value)
  }

  /** A RETRY never overrides a cancel positioned after it. */
  ghost predicate RetryBlocked(db: Ledger, retry: Option<nat>) {
    retry.Some? && exists c :: c in db.controls && db.controls[c].kind.Cancel? && c > retry.value
  }

  predicate RefusalNoted(db: Ledger, did: nat) {
    exists i :: 0 <= i < |db.evidence| && db.evidence[i].event.RefusalDetected? && db.evidence[i].delivery == Some(did)
  }

  function Put(db: Ledger, did: nat, a: Attempt, note: Note): Ledger
    requires did < |db.deliveries|
  {
    db.(deliveries := db.deliveries[did := a], evidence := db.evidence + [note])
  }

  // ---------------------------------------------------------------- certainty

  predicate Allowed(from: Certainty, to: Certainty) {
    match from
    case NotStarted => !to.Terminal?
    case MayHaveStarted => !to.NotStarted?
    case Started => to.Started? || to.Terminal?
    case Terminal => to.Terminal?
  }

  /** A native session is lost when the turn it was used for may have run without a known end. */
  function Taint(ss: seq<Session>, g: Option<nat>): seq<Session> {
    if g.Some? && g.value < |ss| && !ss[g.value].state.Lost? && !ss[g.value].state.Tombstoned?
       && (ss[g.value].vendor.Some? || ss[g.value].cli)
    then ss[g.value := ss[g.value].(state := Lost, vendor := None)] else ss
  }

  function Transition(db: Ledger, did: nat, to: Certainty, event: Event): Result<Ledger, Error> {
    if did >= |db.deliveries| then Err(NoDelivery)
    else if !Allowed(db.deliveries[did].certainty, to) then Err(IllegalTransition)
    else
      var a := db.deliveries[did];
      var sessions := if to.MayHaveStarted? then Taint(db.sessions, a.session) else db.sessions;
      Ok(Put(db, did, a.(certainty := to), Note(event, Some(did))).(sessions := sessions))
  }

  /** Opens a marker on the row: from now on a call of the runtime may follow, yet the row still reads as never started. */
  function MarkInvocation(db: Ledger, did: nat): Result<Ledger, Error> {
    if did >= |db.deliveries| then Err(NoDelivery)
    else
      var a := db.deliveries[did];
      if !a.certainty.NotStarted? || LastOpen(a.markers).Some? then Err(MarkerProtocol)
      else Ok(Put(db, did, a.(markers := a.markers + [Open]), Note(AboutToInvoke(|a.markers|), Some(did))))
  }

  /** Closes the open marker: no runtime call came of it, or none that ran. */
  function ResolveInvocation(db: Ledger, did: nat, reason: Marker): Result<Ledger, Error> {
    if did >= |db.deliveries| then Err(NoDelivery)
    else
      var a := db.deliveries[did];
      var n := LastOpen(a.markers);
      if !a.certainty.NotStarted? || n.None? || n.value >= |a.markers| || a.execution.Some? then Err(MarkerProtocol)
      else Ok(Put(db, did, a.(markers := a.markers[n.value := reason]), Note(MarkerResolved(n.value, reason), Some(did))))
  }

  predicate Dangling(a: Attempt) {
    a.certainty.NotStarted? && LastOpen(a.markers).Some?
  }

  function PromoteMarkers(ms: seq<Marker>): seq<Marker> {
    seq(|ms|, i requires 0 <= i < |ms| => if ms[i].Open? then Promoted else ms[i])
  }

  /** What a later owner makes of a row with an open marker: it can no longer be told from one that ran. */
  function PromoteOne(db: Ledger, did: nat): Ledger
    requires did < |db.deliveries|
  {
    var a := db.deliveries[did];
    if !Dangling(a) then db
    else
      Put(db, did, a.(certainty := MayHaveStarted, markers := PromoteMarkers(a.markers)), Note(RecoveredNote, Some(did)))
      .(sessions := Taint(db.sessions, a.session))
  }

  function PromoteFirst(db: Ledger, n: nat): (r: Ledger)
    requires n <= |db.deliveries|
    ensures |r.deliveries| == |db.deliveries|
  {
    if n == 0 then db else PromoteOne(PromoteFirst(db, n - 1), n - 1)
  }

  function PromoteUnresolved(db: Ledger): Ledger {
    PromoteFirst(db, |db.deliveries|)
  }

  // ---------------------------------------------------------------- attempts

  /** The attempt a cycle works on: a new row, or the last one again if nothing of it ever ran. */
  function BeginAttempt(db: Ledger, position: nat, retryOf: Option<nat>, claim: nat): Result<(Ledger, nat), Error> {
    if position == 0 || position > |db.log| || At(db, position).author == db.peer || !Addressed(db, At(db, position)) then
      Err(RecordRejected)
    else
      var last := LastAttempt(db.deliveries, position);
      if last.Some? && last.value < |db.deliveries| && db.deliveries[last.value].certainty.NotStarted? && retryOf.None? then
        Ok((db, last.value))
      else if last.Some? && retryOf.None? then Err(IllegalTransition)
      else
        var did := |db.deliveries|;
        if retryOf.None? then
          Ok((Insert(db, position, 1, claim, None), did))
        else
          var r := retryOf.value;
          if r !in db.retries || db.retries[r].consumed.Some? || last != Some(r) || r >= did then Err(ReconcileRejected)
          else
            var number := db.deliveries[r].number + 1;
            Ok((Insert(db, position, number, claim, Some(db.retries[r].position))
                .(retries := db.retries[r := db.retries[r].(consumed := Some(number))]), did))
  }

  function Insert(db: Ledger, position: nat, number: nat, claim: nat, retry: Option<nat>): Ledger {
    db.(deliveries := db.deliveries + [Attempt(position, number, claim, retry, |db.evidence| + 1, NotStarted, [], None, None, None, 0.0,
                                               None, false)],
        evidence := db.evidence + [Note(AttemptCreated, Some(|db.deliveries|))])
  }

  function BindExecution(db: Ledger, did: nat, execution: string): Result<Ledger, Error> {
    if did >= |db.deliveries| then Err(NoDelivery)
    else Ok(db.(deliveries := db.deliveries[did := db.deliveries[did].(execution := Some(execution))]))
  }

  // ---------------------------------------------------------------- settlement

  datatype Provenance = Provenance(resumed: bool, truncated: bool)

  /** The terminal turn commits what a native session has consumed. */
  function CommitNative(ss: seq<Session>, g: Option<nat>, position: nat, vendor: Option<string>, p: Option<Provenance>): seq<Session> {
    if g.None? || g.value >= |ss| || ss[g.value].state.Lost? || ss[g.value].state.Tombstoned? then ss
    else
      var m := ss[g.value];
      var id := if vendor.Some? then vendor else m.vendor;
      if id.None? then ss
      else
        var w := if m.watermark.Some? && m.watermark.value > position then m.watermark.value else position;
        var t := if p.Some? && !p.value.resumed then Some(p.value.truncated) else m.truncated;
        ss[g.value := m.(vendor := id, watermark := Some(w), state := Active, truncated := t)]
  }

  datatype Settled = First | Duplicate | Conflict

  /** Terminal truth: committed once; the same answer again is a duplicate, another one a conflict, each evidence only. */
  function FinalizeTerminal(db: Ledger, did: nat, value: string, vendor: Option<string>, p: Option<Provenance>, now: real)
    : Result<(Ledger, Settled), Error>
  {
    if did >= |db.deliveries| then Err(NoDelivery)
    else
      var a := db.deliveries[did];
      if a.certainty.Terminal? then
        if a.outcome == Some(Answer(value)) then
          Ok((db.(evidence := db.evidence + [Note(DuplicateTerminal, Some(did))]), Duplicate))
        else Ok((db.(evidence := db.evidence + [Note(ConflictingTerminal, Some(did))]), Conflict))
      else if a.outcome.Some? then Err(AlreadySettled)
      else if !Allowed(a.certainty, Terminal) then Err(IllegalTransition)
      else
        Ok((Put(db, did, a.(certainty := Terminal, outcome := Some(Answer(value)), terminalAt := now), Note(TerminalNote, Some(did)))
            .(sessions := CommitNative(db.sessions, a.session, a.position, vendor, p)), First))
  }

  function PayloadOf(a: Attempt): Payload {
    Payload(if a.outcome.Some? && a.outcome.value.Answer? then a.outcome.value.value else "", a.position, a.execution, a.terminalAt)
  }

  /** Equal but for the execution id. */
  predicate SameAnswer(p: Payload, q: Payload) {
    p.answer == q.answer && p.replyTo == q.replyTo && p.createdAt == q.createdAt
  }

  function ResponseRec(peer: string, did: nat, p: Payload, json: seq<CatchUp.byte>, tokens: nat): Rec {
    Rec(peer, Response, {}, ResponseKey(did), Reply(p), json, tokens)
  }

  /** The position of the Record the peer wrote under `key`, or 0. */
  function FindKey(log: seq<Rec>, author: string, key: Key): nat {
    if log == [] then 0
    else if log[|log| - 1].author == author && log[|log| - 1].key == key then |log| else FindKey(log[..|log| - 1], author, key)
  }

  /** The Record at `k` is the response Record that carries `p`. */
  predicate Carries(db: Ledger, k: nat, p: Payload) {
    1 <= k <= |db.log| && At(db, k).kind.Response? && At(db, k).targets == {} && At(db, k).body == Reply(p)
  }

  /** Idempotent append of the response Record: a retry is answered even after closure, another Record under the key is a conflict,
      a CLOSED Stream accepts no new Record. `p` is what the delivery row said when it was read. */
  function AppendResponse(db: Ledger, did: nat, p: Payload, json: seq<CatchUp.byte>, tokens: nat): Result<(Ledger, nat), Error> {
    var k := FindKey(db.log, db.peer, ResponseKey(did));
    if k > 0 then
      if Carries(db, k, p) then Ok((db, k)) else Err(IdempotencyConflict)
    else if db.closed then Err(StreamClosed)
    else Ok((db.(log := db.log + [ResponseRec(db.peer, did, p, json, tokens)]), |db.log| + 1))
  }

  /** Anybody's append: any author under any key. A key that is taken, by the same Record or another one, and a CLOSED Stream leave the
      log alone. */
  function AppendRecord(db: Ledger, r: Rec): Ledger {
    if FindKey(db.log, r.author, r.key) > 0 || db.closed then db else db.(log := db.log + [r])
  }

  function BindResponse(db: Ledger, did: nat, k: nat): Result<Ledger, Error> {
    if did >= |db.deliveries| then Err(NoDelivery)
    else if db.deliveries[did].response.Some? then Ok(db)
    else Ok(Put(db, did, db.deliveries[did].(response := Some(k)), Note(ResponseAppended, Some(did))))
  }

  /** Offset compare-and-set: revision, monotonicity, head bound, in this order. */
  function AdvanceOffset(db: Ledger, position: nat, expected: nat): Result<Ledger, Error> {
    if db.revision != expected then Err(CasMismatch)
    else if position < db.offset then Err(OffsetRegression)
    else if position > |db.log| then Err(OffsetBeyondHead)
    else Ok(db.(offset := position, revision := db.revision + 1))
  }

  function Ack(db: Ledger, did: nat): Result<Ledger, Error> {
    if did >= |db.deliveries| then Err(NoDelivery)
    else if db.deliveries[did].acked then Ok(db)
    else Ok(Put(db, did, db.deliveries[did].(acked := true), Note(OffsetAcked, Some(did))))
  }

  /** A definitive request failure before any execution: settle, consume and acknowledge in one transaction. */
  function RejectSelector(db: Ledger, did: nat, code: string): Result<Ledger, Error> {
    if did >= |db.deliveries| then Err(NoDelivery)
    else
      var a := db.deliveries[did];
      if !a.certainty.NotStarted? || LastOpen(a.markers).Some? then Err(MarkerProtocol)
      else
        var settled := if a.outcome.None? then a.(outcome := Some(Rejected(code)), acked := true) else a.(acked := true);
        var notes := (if a.outcome.None? then [Note(RequestRejected, Some(did))] else []) + [Note(OffsetAcked, Some(did))];
        var moved := db.offset < a.position;
        Ok(db.(deliveries := db.deliveries[did := settled], evidence := db.evidence + notes,
               offset := if moved then a.position else db.offset, revision := if moved then db.revision + 1 else db.revision))
  }

  function NoteRefusal(db: Ledger, did: nat, code: string): Ledger {
    db.(evidence := db.evidence + [Note(RefusalDetected(code), Some(did))])
  }

  function SettleRefusal(db: Ledger, did: nat, code: string): Result<Ledger, Error> {
    if did >= |db.deliveries| then Err(NoDelivery)
    else if db.deliveries[did].outcome.Some? then Ok(db)
    else Ok(db.(deliveries := db.deliveries[did := db.deliveries[did].(outcome := Some(Refused(code)))]))
  }

  /** The cancellation is noted once, however many attempts of the Record it meets. */
  function NoteCancelled(db: Ledger, did: nat, position: nat): Ledger {
    if exists i :: 0 <= i < |db.evidence| && db.evidence[i].event == CancelledBeforeInvoke(position) then db
    else db.(evidence := db.evidence + [Note(CancelledBeforeInvoke(position), Some(did))])
  }

  function AckCancelled(db: Ledger, did: nat): Result<Ledger, Error> {
    if did >= |db.deliveries| then Err(NoDelivery)
    else if !db.deliveries[did].certainty.NotStarted? then Ok(db)
    else Ok(db.(deliveries := db.deliveries[did := db.deliveries[did].(acked := true)]))
  }

  /** Register a durable reconcile RETRY; the newest by position wins until one is consumed. */
  function RegisterRetry(db: Ledger, record: nat): Result<Ledger, Error> {
    if record == 0 || record > |db.log| then Err(ReconcileRejected)
    else
      var r := At(db, record);
      if !r.kind.Reconcile? || !r.body.Decision? || !r.body.retry then Err(ReconcileRejected)
      else
        var did := r.body.delivery;
        if did >= |db.deliveries| || r.author == db.peer || !Addressed(db, r)
           || !db.deliveries[did].certainty.MayHaveStarted? then Err(ReconcileRejected)
        else
          var retries :=
            if did !in db.retries then db.retries[did := Authorization(record, None)]
            else if db.retries[did].consumed.None? && record > db.retries[did].position
              then db.retries[did := Authorization(record, None)]
            else db.retries;
          Ok(db.(retries := retries, evidence := db.evidence + [Note(RetryRegistered, Some(did))]))
  }

  // ---------------------------------------------------------------- sessions

  /** The session columns of an attempt never change once it may have run or is settled. */
  function BindSession(db: Ledger, did: nat, g: nat): Result<Ledger, Error> {
    if did >= |db.deliveries| then Err(NoDelivery)
    else
      var a := db.deliveries[did];
      if !a.certainty.NotStarted? || a.outcome.Some? || LastOpen(a.markers).Some? then Err(SessionBound)
      else Ok(db.(deliveries := db.deliveries[did := a.(session := Some(g))]))
  }

  function CreateSession(db: Ledger, did: nat, cli: bool): Result<Ledger, Error> {
    match BindSession(db, did, |db.sessions|)
    case Err(e) => Err(e)
    case Ok(b) => Ok(b.(sessions := db.sessions + [Session(cli, if db.sessions == [] then Active else Fresh, None, None, None)]))
  }

  function ResumeSession(db: Ledger, did: nat, g: nat): Result<Ledger, Error>
    requires g < |db.sessions|
  {
    match BindSession(db, did, g)
    case Err(e) => Err(e)
    case Ok(b) => Ok(b.(sessions := db.sessions[g := db.sessions[g].(state := Active)]))
  }

  function LoseSession(db: Ledger, g: nat): Ledger {
    if g < |db.sessions| && !db.sessions[g].state.Tombstoned?
    then db.(sessions := db.sessions[g := db.sessions[g].(state := Lost, vendor := None)]) else db
  }

  function Tombstone(db: Ledger, g: nat): Ledger {
    if g < |db.sessions| then db.(sessions := db.sessions[g := db.sessions[g].(state := Tombstoned)]) else db
  }

  // ---------------------------------------------------------------- control intent

  function EffectOf(k: Kind): Effect {
    match k
    case Pause => Interrupt
    case Cancel => Terminate
    case Redirect => Steer
    case _ => NoEffect
  }

  function NoEffectOutcome(k: Kind): ControlOutcome {
    match k
    case Resume => NotRequired
    case Boundary => Noted
    case _ => UnsupportedKind
  }

  /** What a control acts on, decided once: the newest attempt, if it may be running. */
  function ControlTarget(db: Ledger): Target {
    if db.deliveries == [] then Nothing
    else
      var d := db.deliveries[|db.deliveries| - 1];
      if !d.acked && (d.certainty.MayHaveStarted? || d.certainty.Started?) && d.session.Some?
      then Running(|db.deliveries| - 1, d.claim) else Nothing
  }

  predicate ControlFor(db: Ledger, position: nat) {
    1 <= position <= |db.log| && IsControl(At(db, position).kind)
    && At(db, position).author != db.peer && Addressed(db, At(db, position))
  }

  datatype Accepted = Replayed | Applied | InProgress | Leased(attempts: nat)

  /** Durable intent, lease and target, all committed before any runtime effect. A cancel also taints the session of a target
      whose claim is still the current one. */
  function AcceptControl(db: Ledger, position: nat, lease: Lease, now: real, claim: Option<Claims.Row>, workspace: string)
    : Result<(Ledger, Accepted), Error>
  {
    if !ControlFor(db, position) then Err(ControlRejected)
    else
      var kind := At(db, position).kind;
      var row := if position in db.controls then db.controls[position] else Control(kind, |db.evidence|, None, None, 0, None);
      if row.outcome.Some? then Ok((db, Replayed))
      else if EffectOf(kind).NoEffect? then
        Ok((db.(controls := db.controls[position := row.(outcome := Some(NoEffectOutcome(kind)))],
                evidence := db.evidence + [Note(ControlApplied(position), None)]), Applied))
      else if row.lease.Some? && now < row.lease.value.expires then
        Ok((db.(controls := db.controls[position := row]), InProgress))
      else
        var target := if row.target.Some? then row.target.value else ControlTarget(db);
        var row' := row.(lease := Some(lease), attempts := row.attempts + 1, target := Some(target));
        var live := kind.Cancel? && target.Running? && target.delivery < |db.deliveries|
                    && claim.Some? && claim.value.generation == target.claim && claim.value.workspace == workspace
                    && claim.value.expires > now;
        var sessions := if live then Taint(db.sessions, db.deliveries[target.delivery].session) else db.sessions;
        Ok((db.(controls := db.controls[position := row'], sessions := sessions,
                evidence := if sessions != db.sessions then db.evidence + [Note(SessionTainted, Some(target.delivery))]
                            else db.evidence),
            Leased(row.attempts + 1)))
  }

  /** The handler's lease is still the row's own, unexpired one, and nothing is decided yet. */
  predicate HoldsLease(db: Ledger, position: nat, id: nat, attempts: nat, now: real) {
    position in db.controls
    && db.controls[position].outcome.None? && db.controls[position].lease.Some?
    && db.controls[position].lease.value.id == id && db.controls[position].attempts == attempts
    && now < db.controls[position].lease.value.expires
  }

  datatype Fence = Superseded | ClaimLost | Decided(outcome: ControlOutcome) | DoEffect

  /** The last look before the effect: whether nobody has taken over the control or the claim, and the target still runs. */
  function FenceControl(db: Ledger, position: nat, id: nat, attempts: nat, now: real, tokenCurrent: bool,
                        claim: Option<nat>, supported: bool): Fence
  {
    if !HoldsLease(db, position, id, attempts, now) then Superseded
    else if !tokenCurrent then ClaimLost
    else if db.controls[position].target.None? || db.controls[position].target.value.Nothing? then Decided(NothingRunning)
    else
      var t := db.controls[position].target.value;
      if t.delivery >= |db.deliveries| || db.deliveries[t.delivery].acked
         || !(db.deliveries[t.delivery].certainty.MayHaveStarted? || db.deliveries[t.delivery].certainty.Started?)
         || claim != Some(t.claim) then Decided(StaleTarget)
      else if !supported then Decided(Unsupported)
      else DoEffect
  }

  /** Decides an undecided control, for the handler whose lease the row still names, and leaves one row of evidence. */
  function CompleteControl(db: Ledger, position: nat, id: nat, attempts: nat, now: real, tokenCurrent: bool, outcome: ControlOutcome)
    : (Ledger, bool)
  {
    if !tokenCurrent || !HoldsLease(db, position, id, attempts, now) then (db, false)
    else
      (db.(controls := db.controls[position := db.controls[position].(outcome := Some(outcome))],
           evidence := db.evidence + [Note(ControlApplied(position), None)]), true)
  }

  // ---------------------------------------------------------------- what only ever grows

  /** Forward over any number of transitions. */
  predicate Forward(from: Certainty, to: Certainty) {
    from.NotStarted? || Allowed(from, to)
  }

  predicate AttemptGrows(a: Attempt, b: Attempt) {
    && a.position == b.position && a.number == b.number && a.claim == b.claim && a.retry == b.retry && a.created == b.created
    && Forward(a.certainty, b.certainty)
    && |a.markers| <= |b.markers| && (forall n :: 0 <= n < |a.markers| ==> !a.markers[n].Open? ==> b.markers[n] == a.markers[n])
    && (a.outcome.Some? ==> b.outcome == a.outcome)
    && (a.certainty.MayHaveStarted? ==> !b.certainty.Started?)
    && (a.certainty.Terminal? ==> b.terminalAt == a.terminalAt && b.outcome == a.outcome)
    && (a.response.Some? ==> b.response == a.response)
    && (a.acked ==> b.acked)
  }

  predicate ControlGrows(c: Control, d: Control) {
    && d.kind == c.kind && d.acceptedSeq == c.acceptedSeq && c.attempts <= d.attempts
    && (c.outcome.Some? ==> d.outcome == c.outcome) && (c.target.Some? ==> d.target == c.target)
  }

  /** Nothing durable is ever taken back: the log and the evidence are append-only, certainty moves forward, terminal truth,
      results, resolutions, consumed authorizations, control targets and outcomes are write-once, the Offset is monotone. */
  ghost predicate Grows(db: Ledger, db': Ledger) {
    && db'.peer == db.peer && (db.closed ==> db'.closed && db'.log == db.log)
    && db.log <= db'.log && db.evidence <= db'.evidence && db.offset <= db'.offset && db.revision <= db'.revision
    && |db.deliveries| <= |db'.deliveries|
    && (forall i :: 0 <= i < |db.deliveries| ==> AttemptGrows(db.deliveries[i], db'.deliveries[i]))
    && (forall c :: c in db.controls ==> c in db'.controls && ControlGrows(db.controls[c], db'.controls[c]))
    && (forall r :: r in db.retries ==> r in db'.retries && (db.retries[r].consumed.Some? ==> db'.retries[r] == db.retries[r]))
  }

  lemma AttemptGrowsTrans(a: Attempt, b: Attempt, c: Attempt)
    requires AttemptGrows(a, b) && AttemptGrows(b, c)
    ensures AttemptGrows(a, c)
  {
    forall n | 0 <= n < |a.markers| && !a.markers[n].Open? ensures c.markers[n] == a.markers[n] {
      assert b.markers[n] == a.markers[n];
    }
  }

  lemma GrowsTrans(a: Ledger, b: Ledger, c: Ledger)
    requires Grows(a, b) && Grows(b, c)
    ensures Grows(a, c)
  {
    forall i | 0 <= i < |a.deliveries| ensures AttemptGrows(a.deliveries[i], c.deliveries[i]) {
      AttemptGrowsTrans(a.deliveries[i], b.deliveries[i], c.deliveries[i]);
    }
    assert a.log <= c.log && a.evidence <= c.evidence;
    hide AttemptGrows;
  }
}
