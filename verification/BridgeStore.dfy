/**
 The Bridge as an object over its tables: the transactions statement by statement, and the loops of a delivery cycle.

 Every transaction is proved equal to its function on the ledger. The event loop and what follows it are proved to be a run of the
 cycle's own steps in `BridgeMachine`, with no other owner in between.
 */
module BridgeStore {
  import opened Wrappers
  import opened BridgeLedger
  import opened BridgeContext
  import opened BridgeInvariant
  import opened BridgeMachine
  import opened BridgeSafety
  import CatchUp
  import Claims

  class Bridge {
    const peer: string
    var closed: bool
    var log: seq<Rec>
    var deliveries: seq<Attempt>
    var retries: map<nat, Authorization>
    var controls: map<nat, Control>
    var sessions: seq<Session>
    var offset: nat
    var revision: nat
    var evidence: seq<Note>

    ghost function Contents(): Ledger
      reads this
    {
      Ledger(peer, closed, log, deliveries, retries, controls, sessions, offset, revision, evidence)
    }

    constructor (peer: string)
      ensures this.peer == peer && Contents() == Empty(peer)
    {
      this.peer, closed := peer, false;
      log, deliveries, retries, controls, sessions, offset, revision, evidence := [], [], map[], map[], [], 0, 1, [];
    }

    // -------------------------------------------------------------- rows

    /** The newest unresolved marker. */
    method OpenInvocation(ms: seq<Marker>) returns (n: Option<nat>)
      ensures n == LastOpen(ms)
    {
      var i: nat := |ms|;
      assert ms[..i] == ms;
      while i > 0 && !ms[i - 1].Open?
        invariant i <= |ms| && LastOpen(ms) == LastOpen(ms[..i])
      {
        assert ms[..i][..i - 1] == ms[..i - 1];
        i := i - 1;
      }
      if i > 0 { return Some(i - 1); }
      assert ms[..0] == [];
      return None;
    }

    method WriteAttempt(did: nat, a: Attempt, note: Note)
      requires did < |deliveries|
      modifies this`deliveries, this`evidence
      ensures Contents() == Put(old(Contents()), did, a, note)
    {
      deliveries := deliveries[did := a];
      evidence := evidence + [note];
    }

    method TaintSession(g: Option<nat>)
      modifies this`sessions
      ensures Contents() == old(Contents()).(sessions := Taint(old(sessions), g))
    {
      if g.None? || g.value >= |sessions| { return; }
      var m := sessions[g.value];
      if m.state.Lost? || m.state.Tombstoned? || (m.vendor.None? && !m.cli) { return; }
      sessions := sessions[g.value := m.(state := Lost, vendor := None)];
    }

    method DropSession(g: nat)
      modifies this`sessions
      ensures Contents() == LoseSession(old(Contents()), g)
    {
      if g < |sessions| && !sessions[g].state.Tombstoned? {
        sessions := sessions[g := sessions[g].(state := Lost, vendor := None)];
      }
    }

    // -------------------------------------------------------------- certainty and markers

    method MoveCertainty(did: nat, to: Certainty, event: Event) returns (r: Result<(), Error>)
      modifies this`deliveries, this`evidence, this`sessions
      ensures match Transition(old(Contents()), did, to, event)
              case Err(e) => r == Err(e) && Contents() == old(Contents())
              case Ok(db) => r == Ok(()) && Contents() == db
    {
      if did >= |deliveries| { return Err(NoDelivery); }
      var a := deliveries[did];
      if !Allowed(a.certainty, to) { return Err(IllegalTransition); }
      WriteAttempt(did, a.(certainty := to), Note(event, Some(did)));
      if to.MayHaveStarted? { TaintSession(a.session); }
      return Ok(());
    }

    method WriteMarker(did: nat) returns (r: Result<nat, Error>)
      modifies this`deliveries, this`evidence
      ensures match MarkInvocation(old(Contents()), did)
              case Err(e) => r == Err(e) && Contents() == old(Contents())
              case Ok(db) => did < old(|deliveries|) && r == Ok(|old(deliveries)[did].markers|) && Contents() == db
    {
      if did >= |deliveries| { return Err(NoDelivery); }
      var a := deliveries[did];
      var open := OpenInvocation(a.markers);
      if !a.certainty.NotStarted? || open.Some? { return Err(MarkerProtocol); }
      WriteAttempt(did, a.(markers := a.markers + [Open]), Note(AboutToInvoke(|a.markers|), Some(did)));
      return Ok(|a.markers|);
    }

    method ResolveMarker(did: nat, reason: Marker) returns (r: Result<(), Error>)
      modifies this`deliveries, this`evidence
      ensures match ResolveInvocation(old(Contents()), did, reason)
              case Err(e) => r == Err(e) && Contents() == old(Contents())
              case Ok(db) => r == Ok(()) && Contents() == db
    {
      if did >= |deliveries| { return Err(NoDelivery); }
      var a := deliveries[did];
      var open := OpenInvocation(a.markers);
      if !a.certainty.NotStarted? || open.None? || open.value >= |a.markers| || a.execution.Some? { return Err(MarkerProtocol); }
      WriteAttempt(did, a.(markers := a.markers[open.value := reason]), Note(MarkerResolved(open.value, reason), Some(did)));
      return Ok(());
    }

    /** Every unresolved marker of one attempt becomes promoted. */
    method Promote(ms: seq<Marker>) returns (promoted: seq<Marker>)
      ensures promoted == PromoteMarkers(ms)
    {
      promoted := ms;
      var i := 0;
      while i < |ms|
        invariant i <= |ms| == |promoted|
        invariant forall k :: 0 <= k < |ms| ==> promoted[k] == if k < i && ms[k].Open? then Promoted else ms[k]
      {
        if ms[i].Open? { promoted := promoted[i := Promoted]; }
        i := i + 1;
      }
    }

    /** The loop over the rows with an open marker. */
    method PromoteAll()
      modifies this`deliveries, this`evidence, this`sessions
      ensures Contents() == PromoteUnresolved(old(Contents()))
    {
      ghost var before := Contents();
      var did := 0;
      while did < |deliveries|
        invariant did <= |deliveries| == |before.deliveries| && Contents() == PromoteFirst(before, did)
      {
        PromoteNext(before, did);
        PromoteRow(did);
        did := did + 1;
      }
      PromoteIs(before);
    }

    method PromoteRow(did: nat)
      requires did < |deliveries|
      modifies this`deliveries, this`evidence, this`sessions
      ensures Contents() == PromoteOne(old(Contents()), did)
    {
      var a := deliveries[did];
      var open := OpenInvocation(a.markers);
      if !a.certainty.NotStarted? || open.None? { return; }
      var ms := Promote(a.markers);
      WriteAttempt(did, a.(certainty := MayHaveStarted, markers := ms), Note(RecoveredNote, Some(did)));
      TaintSession(a.session);
    }

    // -------------------------------------------------------------- attempts

    method NewestFor(position: nat) returns (did: Option<nat>)
      ensures did == LastAttempt(deliveries, position)
    {
      var i: nat := |deliveries|;
      assert deliveries[..i] == deliveries;
      while i > 0 && deliveries[i - 1].position != position
        invariant i <= |deliveries| && LastAttempt(deliveries, position) == LastAttempt(deliveries[..i], position)
      {
        assert deliveries[..i][..i - 1] == deliveries[..i - 1];
        i := i - 1;
      }
      if i > 0 { return Some(i - 1); }
      assert deliveries[..0] == [];
      return None;
    }

    /** The transaction that settles which attempt the cycle works on, and spends the RETRY it needed. */
    method Begin(position: nat, retryOf: Option<nat>, claim: nat) returns (r: Result<nat, Error>)
      modifies this`deliveries, this`evidence, this`retries
      ensures match BeginAttempt(old(Contents()), position, retryOf, claim)
              case Err(e) => r == Err(e) && Contents() == old(Contents())
              case Ok(v) => r == Ok(v.1) && Contents() == v.0
    {
      if position == 0 || position > |log| { return Err(RecordRejected); }
      var rec := log[position - 1];
      if rec.author == peer || (rec.targets != {} && peer !in rec.targets) { return Err(RecordRejected); }
      var last := NewestFor(position);
      if last.Some? && last.value < |deliveries| && deliveries[last.value].certainty.NotStarted? && retryOf.None? { return Ok(last.value); }
      if last.Some? && retryOf.None? { return Err(IllegalTransition); }
      var did, number, retry := |deliveries|, 1, None;
      if retryOf.Some? {
        var q := retryOf.value;
        if q !in retries || retries[q].consumed.Some? || last != Some(q) || q >= did { return Err(ReconcileRejected); }
        number := deliveries[q].number + 1;
        retry := Some(retries[q].position);
        retries := retries[q := retries[q].(consumed := Some(number))];
      }
      deliveries := deliveries + [Attempt(position, number, claim, retry, |evidence| + 1, NotStarted, [], None, None, None, 0.0, None, false)];
      evidence := evidence + [Note(AttemptCreated, Some(did))];
      return Ok(did);
    }

    // -------------------------------------------------------------- settlement

    /** Terminal truth, with what the native session consumed, in one transaction. */
    method Finalize(did: nat, value: string, vendor: Option<string>, p: Option<Provenance>, now: real) returns (r: Result<Settled, Error>)
      modifies this`deliveries, this`evidence, this`sessions
      ensures match FinalizeTerminal(old(Contents()), did, value, vendor, p, now)
              case Err(e) => r == Err(e) && Contents() == old(Contents())
              case Ok(v) => r == Ok(v.1) && Contents() == v.0
    {
      if did >= |deliveries| { return Err(NoDelivery); }
      var a := deliveries[did];
      if a.certainty.Terminal? {
        if a.outcome == Some(Answer(value)) {
          evidence := evidence + [Note(DuplicateTerminal, Some(did))];
          return Ok(Duplicate);
        }
        evidence := evidence + [Note(ConflictingTerminal, Some(did))];
        return Ok(Conflict);
      }
      if a.outcome.Some? { return Err(AlreadySettled); }
      if !Allowed(a.certainty, Terminal) { return Err(IllegalTransition); }
      CommitSession(a.session, a.position, vendor, p);
      WriteAttempt(did, a.(certainty := Terminal, outcome := Some(Answer(value)), terminalAt := now), Note(TerminalNote, Some(did)));
      return Ok(First);
    }

    method CommitSession(g: Option<nat>, position: nat, vendor: Option<string>, p: Option<Provenance>)
      modifies this`sessions
      ensures sessions == CommitNative(old(sessions), g, position, vendor, p)
    {
      if g.None? || g.value >= |sessions| || sessions[g.value].state.Lost? || sessions[g.value].state.Tombstoned? { return; }
      var m := sessions[g.value];
      var id := if vendor.Some? then vendor else m.vendor;
      if id.None? { return; }
      var watermark := if m.watermark.Some? && m.watermark.value > position then m.watermark.value else position;
      m := m.(vendor := id, watermark := Some(watermark), state := Active);
      if p.Some? && !p.value.resumed { m := m.(truncated := Some(p.value.truncated)); }
      sessions := sessions[g.value := m];
    }

    method FindResponse(did: nat) returns (k: nat)
      ensures k == FindKey(log, peer, ResponseKey(did))
    {
      k := |log|;
      assert log[..k] == log;
      while k > 0 && !(log[k - 1].author == peer && log[k - 1].key == ResponseKey(did))
        invariant k <= |log| && FindKey(log, peer, ResponseKey(did)) == FindKey(log[..k], peer, ResponseKey(did))
      {
        assert log[..k][..k - 1] == log[..k - 1];
        k := k - 1;
      }
    }

    /** Idempotent append of what the delivery row said when it was read. */
    method RespondOnce(did: nat, p: Payload, json: seq<CatchUp.byte>, tokens: nat) returns (r: Result<nat, Error>)
      modifies this`log
      ensures match AppendResponse(old(Contents()), did, p, json, tokens)
              case Err(e) => r == Err(e) && Contents() == old(Contents())
              case Ok(v) => r == Ok(v.1) && Contents() == v.0
    {
      var k := FindResponse(did);
      FindKeyIs(log, peer, ResponseKey(did));
      if k > 0 {
        if log[k - 1].kind.Response? && log[k - 1].targets == {} && log[k - 1].body == Reply(p) { return Ok(k); }
        return Err(IdempotencyConflict);
      }
      if closed { return Err(StreamClosed); }
      log := log + [Rec(peer, Response, {}, ResponseKey(did), Reply(p), json, tokens)];
      return Ok(|log|);
    }

    /** Read the Offset and its revision, then compare-and-set; retried when the revision moved. */
    method AdvanceTo(position: nat) returns (r: Result<(), Error>)
      modifies this`offset, this`revision
      ensures Contents() == (if r.Ok? then AdvancedTo(old(Contents()), position) else old(Contents()))
      ensures r.Ok? <==> position <= |log| || position <= old(offset)
    {
      if offset >= position { return Ok(()); }
      var seen := revision;
      if position > |log| { return Err(OffsetBeyondHead); }
      assert revision == seen;
      offset, revision := position, seen + 1;
      return Ok(());
    }

    /** The response Record, its binding, the Offset and the acknowledgement: each step is safe to repeat. Another Record under the response
        key, or a Stream closed before the response was appended, refuses it with nothing changed. */
    method Materialize(did: nat, json: seq<CatchUp.byte>, tokens: nat) returns (r: Result<nat, Error>)
      requires LedgerOk(Contents()) && did < |deliveries| && deliveries[did].certainty.Terminal?
      modifies this`log, this`deliveries, this`evidence, this`offset, this`revision
      ensures match AppendResponse(old(Contents()), did, PayloadOf(old(deliveries)[did]), json, tokens)
              case Err(e) => r == Err(e) && Contents() == old(Contents())
              case Ok(v) => r == Ok(v.1)
      ensures Contents() == Materialized(old(Contents()), did, json, tokens)
    {
      hide LedgerOk, Grows, AppendResponse, Answers, Carries;
      ghost var before := Contents();
      MaterializedRefused(before, did, json, tokens);
      var p := PayloadOf(deliveries[did]);
      AppendKeepsRows(before, did, p, json, tokens);
      DeliverableAt(before, did);
      assert deliveries[did].position <= |log|;
      var k := RespondOnce(did, p, json, tokens);
      if k.Err? { return Err(k.error); }
      MaterializedMeans(before, did, json, tokens);
      hide Materialized, Deliverable;
      if deliveries[did].response.None? {
        WriteAttempt(did, deliveries[did].(response := Some(k.value)), Note(ResponseAppended, Some(did)));
      }
      var _ := AdvanceTo(deliveries[did].position);
      if !deliveries[did].acked {
        WriteAttempt(did, deliveries[did].(acked := true), Note(OffsetAcked, Some(did)));
      }
      return Ok(k.value);
    }

    // -------------------------------------------------------------- rejection, refusal, retry

    method NameExecution(did: nat, execution: string) returns (r: Result<(), Error>)
      modifies this`deliveries
      ensures match BindExecution(old(Contents()), did, execution)
              case Err(e) => r == Err(e) && Contents() == old(Contents())
              case Ok(db) => r == Ok(()) && Contents() == db
    {
      if did >= |deliveries| { return Err(NoDelivery); }
      deliveries := deliveries[did := deliveries[did].(execution := Some(execution))];
      return Ok(());
    }

    /** Refusal evidence, the settled result, the lost session, the Offset, and last the acknowledgement. */
    method Refuse(did: nat, code: string) returns (r: Result<(), Error>)
      requires did < |deliveries|
      modifies this`deliveries, this`evidence, this`sessions, this`offset, this`revision
      ensures r.Ok? <==> old(deliveries)[did].position <= |log| || old(deliveries)[did].position <= old(offset)
      ensures r.Ok? ==> Contents() == RefusedFully(old(Contents()), did, code)
    {
      evidence := evidence + [Note(RefusalDetected(code), Some(did))];
      if deliveries[did].outcome.None? {
        deliveries := deliveries[did := deliveries[did].(outcome := Some(Outcome.Refused(code)))];
      }
      if deliveries[did].session.Some? { DropSession(deliveries[did].session.value); }
      r := AdvanceTo(deliveries[did].position);
      if r.Err? { return; }
      if !deliveries[did].acked {
        WriteAttempt(did, deliveries[did].(acked := true), Note(OffsetAcked, Some(did)));
      }
    }

    method Reject(did: nat, code: string) returns (r: Result<(), Error>)
      modifies this`deliveries, this`evidence, this`offset, this`revision
      ensures match RejectSelector(old(Contents()), did, code)
              case Err(e) => r == Err(e) && Contents() == old(Contents())
              case Ok(db) => r == Ok(()) && Contents() == db
    {
      if did >= |deliveries| { return Err(NoDelivery); }
      var a := deliveries[did];
      var open := OpenInvocation(a.markers);
      if !a.certainty.NotStarted? || open.Some? { return Err(MarkerProtocol); }
      var notes: seq<Note> := [];
      if a.outcome.None? {
        deliveries := deliveries[did := a.(outcome := Some(Outcome.Rejected(code)), acked := true)];
        notes := [Note(RequestRejected, Some(did))];
      } else {
        deliveries := deliveries[did := a.(acked := true)];
      }
      if offset < a.position { offset, revision := a.position, revision + 1; }
      evidence := evidence + (notes + [Note(OffsetAcked, Some(did))]);
      return Ok(());
    }

    method Reconcile(record: nat) returns (r: Result<(), Error>)
      modifies this`retries, this`evidence
      ensures match RegisterRetry(old(Contents()), record)
              case Err(e) => r == Err(e) && Contents() == old(Contents())
              case Ok(db) => r == Ok(()) && Contents() == db
    {
      if record == 0 || record > |log| { return Err(ReconcileRejected); }
      var rec := log[record - 1];
      if !rec.kind.Reconcile? || !rec.body.Decision? || !rec.body.retry { return Err(ReconcileRejected); }
      var did := rec.body.delivery;
      if did >= |deliveries| || rec.author == peer || (rec.targets != {} && peer !in rec.targets) { return Err(ReconcileRejected); }
      if !deliveries[did].certainty.MayHaveStarted? { return Err(ReconcileRejected); }
      if did !in retries {
        retries := retries[did := Authorization(record, None)];
      } else if retries[did].consumed.None? && record > retries[did].position {
        retries := retries[did := Authorization(record, None)];
      }
      evidence := evidence + [Note(RetryRegistered, Some(did))];
      return Ok(());
    }

    // -------------------------------------------------------------- control intent

    /** The newest accepted pause or resume decides. */
    method IsPaused() returns (paused: bool)
      ensures paused <==> Paused(Contents())
    {
      var rest := controls.Keys;
      var newest: Option<nat> := None;
      while rest != {}
        invariant rest <= controls.Keys
        invariant newest.Some? ==> newest.value in controls && IsGate(controls[newest.value].kind)
        invariant forall c :: c in controls && c !in rest && IsGate(controls[c].kind) ==> newest.Some? && c <= newest.value
        decreases |rest|
      {
        var c :| c in rest;
        if IsGate(controls[c].kind) && (newest.None? || newest.value < c) { newest := Some(c); }
        rest := rest - {c};
      }
      paused := newest.Some? && controls[newest.value].kind.Pause?;
      PausedByNewest(Contents(), newest);
    }

    /** Whether a cancel accepted after the attempt applies to it. */
    method CancelFor(did: nat) returns (applies: bool)
      ensures applies <==> CancelApplies(Contents(), did)
    {
      if did >= |deliveries| { return false; }
      var a, rest := deliveries[did], controls.Keys;
      while rest != {}
        invariant rest <= controls.Keys
        invariant forall c :: c in controls && c !in rest ==>
                    !(controls[c].kind.Cancel? && Above(c, a) && controls[c].acceptedSeq >= a.created)
        decreases |rest|
      {
        var c :| c in rest;
        if controls[c].kind.Cancel? && Above(c, a) && controls[c].acceptedSeq >= a.created { return true; }
        rest := rest - {c};
      }
      return false;
    }

    /** The first transaction of a control: its row, with who handles it and what it acts on. */
    method Accept(position: nat, lease: Lease, now: real, claim: Option<Claims.Row>, workspace: string) returns (r: Result<Accepted, Error>)
      modifies this`controls, this`sessions, this`evidence
      ensures match AcceptControl(old(Contents()), position, lease, now, claim, workspace)
              case Err(e) => r == Err(e) && Contents() == old(Contents())
              case Ok(v) => r == Ok(v.1) && Contents() == v.0
    {
      hide Taint, EffectOf, NoEffectOutcome, IsControl;
      if position == 0 || position > |log| || !IsControl(log[position - 1].kind) { return Err(ControlRejected); }
      var rec := log[position - 1];
      if rec.author == peer || (rec.targets != {} && peer !in rec.targets) { return Err(ControlRejected); }
      var row := if position in controls then controls[position] else Control(rec.kind, |evidence|, None, None, 0, None);
      if row.outcome.Some? { return Ok(Replayed); }
      if EffectOf(rec.kind).NoEffect? {
        controls := controls[position := row.(outcome := Some(NoEffectOutcome(rec.kind)))];
        evidence := evidence + [Note(ControlApplied(position), None)];
        return Ok(Applied);
      }
      if row.lease.Some? && now < row.lease.value.expires {
        controls := controls[position := row];
        return Ok(InProgress);
      }
      var target := Nothing;
      if row.target.Some? {
        target := row.target.value;
      } else if deliveries != [] {
        var d := deliveries[|deliveries| - 1];
        if !d.acked && (d.certainty.MayHaveStarted? || d.certainty.Started?) && d.session.Some? {
          target := Running(|deliveries| - 1, d.claim);
        }
      }
      assert target == if row.target.Some? then row.target.value else ControlTarget(Contents());
      hide ControlTarget;
      var was := sessions;
      if rec.kind.Cancel? && target.Running? && target.delivery < |deliveries| && claim.Some?
         && claim.value.generation == target.claim && claim.value.workspace == workspace && claim.value.expires > now {
        TaintSession(deliveries[target.delivery].session);
      }
      if sessions != was { evidence := evidence + [Note(SessionTainted, Some(target.delivery))]; }
      controls := controls[position := row.(lease := Some(lease), attempts := row.attempts + 1, target := Some(target))];
      return Ok(Leased(row.attempts + 1));
    }

    /** The last transaction of a control: decides it, unless somebody else has or the lease has passed on. */
    method CompleteWith(position: nat, id: nat, attempts: nat, now: real, tokenCurrent: bool, outcome: ControlOutcome) returns (won: bool)
      modifies this`controls, this`evidence
      ensures (Contents(), won) == CompleteControl(old(Contents()), position, id, attempts, now, tokenCurrent, outcome)
    {
      if !tokenCurrent || position !in controls { return false; }
      var row := controls[position];
      if row.outcome.Some? || row.lease.None? || row.lease.value.id != id || row.attempts != attempts || now >= row.lease.value.expires {
        return false;
      }
      controls := controls[position := row.(outcome := Some(outcome))];
      evidence := evidence + [Note(ControlApplied(position), None)];
      return true;
    }

    /** Accept, fence, act and complete one control inside a cycle. */
    method ApplyControl(position: nat, lease: Lease, now: real, claim: Option<Claims.Row>, workspace: string, supported: bool, failed: bool)
      returns (r: Result<Accepted, Error>)
      modifies this`controls, this`sessions, this`evidence
      ensures Contents() == ControlledBy(old(Contents()), position, lease, now, claim, workspace, supported, failed)
      ensures match AcceptControl(old(Contents()), position, lease, now, claim, workspace)
              case Err(e) => r == Err(e)
              case Ok(v) => r == Ok(v.1) && position in controls
      ensures r.Err? <==> !ControlFor(old(Contents()), position)
      ensures old(controls).Keys <= controls.Keys
    {
      hide Taint, ControlTarget, EffectOf, NoEffectOutcome, IsControl;
      r := Accept(position, lease, now, claim, workspace);
      if r.Err? || !r.value.Leased? { return; }
      var row := controls[position];
      var outcome: Option<ControlOutcome> := None;
      if !(row.outcome.None? && row.lease.Some? && row.lease.value.id == lease.id && now < row.lease.value.expires) { return; }
      if row.target.None? || row.target.value.Nothing? {
        outcome := Some(NothingRunning);
      } else {
        var t := row.target.value;
        if t.delivery >= |deliveries| || deliveries[t.delivery].acked
           || !(deliveries[t.delivery].certainty.MayHaveStarted? || deliveries[t.delivery].certainty.Started?)
           || claim.None? || claim.value.generation != t.claim {
          outcome := Some(StaleTarget);
        } else if !supported {
          outcome := Some(Unsupported);
        } else {
          outcome := Some(if failed then Failed else ControlOutcome.Done);
        }
      }
      var _ := CompleteWith(position, lease.id, row.attempts, now, true, outcome.value);
    }

    /** The next Record to deliver: own and reconcile Records and control intent on the way are consumed, intent for the peer only after
        it was accepted; the window is read in pages. */
    method NextRecord(leases: nat, leaseSec: real, now: real, claim: Option<Claims.Row>, workspace: string, supported: bool)
      returns (picked: Option<nat>)
      requires offset <= |log|
      modifies this`controls, this`sessions, this`evidence, this`offset, this`revision
      ensures old(offset) <= offset <= |log| && old(controls).Keys <= controls.Keys
      ensures forall k :: old(offset) < k <= offset ==> Consumable(Contents(), k)
      ensures match picked
              case Some(k) => k == offset + 1 && Deliverable(Contents(), k)
              case None => offset == |log|
    {
      var lease := leases;
      while offset < |log|
        invariant old(offset) <= offset <= |log| && old(controls).Keys <= controls.Keys
        invariant forall k :: old(offset) < k <= offset ==> Consumable(Contents(), k)
        decreases |log| - offset
      {
        hide Consumable, IsControl;
        var k := offset + 1;
        var rec := log[k - 1];
        if rec.author != peer && !rec.kind.Reconcile? && !IsControl(rec.kind) {
          IsDeliverable(Contents(), k);
          return Some(k);
        }
        ghost var before := Contents();
        if rec.author != peer && !rec.kind.Reconcile? && (rec.targets == {} || peer in rec.targets) {
          var _ := ApplyControl(k, Lease(lease, now + leaseSec), now, claim, workspace, supported, false);
          lease := lease + 1;
        }
        var _ := AdvanceTo(k);
        StillConsumable(before, Contents(), k);
      }
      return None;
    }
  }

  /** A position the scan may pass over. */
  predicate Consumable(db: Ledger, k: nat) {
    && 1 <= k <= |db.log|
    && (|| At(db, k).author == db.peer || At(db, k).kind.Reconcile?
        || (IsControl(At(db, k).kind) && (Addressed(db, At(db, k)) ==> k in db.controls)))
  }

  lemma IsDeliverable(db: Ledger, k: nat)
    requires 1 <= k <= |db.log| && At(db, k).author != db.peer && !At(db, k).kind.Reconcile? && !IsControl(At(db, k).kind)
    ensures Deliverable(db, k)
  {
  }

  lemma StillConsumable(db: Ledger, db': Ledger, k: nat)
    requires db'.peer == db.peer && db'.log == db.log && db.controls.Keys <= db'.controls.Keys && 1 <= k <= |db.log|
    requires At(db, k).author == db.peer || At(db, k).kind.Reconcile? || (IsControl(At(db, k).kind) && (Addressed(db, At(db, k)) ==> k in db'.controls))
    ensures Consumable(db', k)
    ensures forall j :: Consumable(db, j) ==> Consumable(db', j)
  {
  }

  predicate IsGate(k: Kind) {
    k.Pause? || k.Resume?
  }

  /** By Record position, never by handling order. */
  lemma PausedByNewest(db: Ledger, newest: Option<nat>)
    requires newest.Some? ==> newest.value in db.controls && IsGate(db.controls[newest.value].kind)
    requires forall c :: c in db.controls && IsGate(db.controls[c].kind) ==> newest.Some? && c <= newest.value
    ensures Paused(db) <==> newest.Some? && db.controls[newest.value].kind.Pause?
  {
    if newest.Some? && db.controls[newest.value].kind.Pause? {
      assert forall d :: d in db.controls && d > newest.value ==> !IsGate(db.controls[d].kind);
    }
  }

  lemma PromoteNext(db: Ledger, did: nat)
    requires did < |db.deliveries|
    ensures PromoteFirst(db, did + 1) == PromoteOne(PromoteFirst(db, did), did)
  {
  }

  /** One application of a control under a current token: intake, then the fence on what was taken in, the effect, and the outcome. */
  function ControlledBy(db: Ledger, position: nat, lease: Lease, now: real, claim: Option<Claims.Row>, workspace: string, supported: bool,
                          failed: bool): Ledger
  {
    match AcceptControl(db, position, lease, now, claim, workspace)
    case Err(_) => db
    case Ok(v) =>
      if !v.1.Leased? then v.0
      else
        match FenceControl(v.0, position, lease.id, v.1.attempts, now, true,
                           if claim.Some? then Some(claim.value.generation) else None, supported)
        case Superseded => v.0
        case ClaimLost => v.0
        case Decided(o) => CompleteControl(v.0, position, lease.id, v.1.attempts, now, true, o).0
        case DoEffect =>
          CompleteControl(v.0, position, lease.id, v.1.attempts, now, true, if failed then Failed else ControlOutcome.Done).0
  }

  /** A control that was taken in under a fresh lease is decided at once, by what its target is at that moment. */
  lemma AppliedOutcome(db: Ledger, position: nat, lease: Lease, now: real, claim: Option<Claims.Row>, workspace: string, supported: bool,
                       failed: bool)
    requires AcceptControl(db, position, lease, now, claim, workspace).Ok? && now < lease.expires
    requires AcceptControl(db, position, lease, now, claim, workspace).value.1.Leased?
    ensures var db' := ControlledBy(db, position, lease, now, claim, workspace, supported, failed);
            && position in db'.controls && db'.controls[position].target.Some?
            && db'.controls[position].outcome == Some(
                 match db'.controls[position].target.value
                 case Nothing => NothingRunning
                 case Running(d, c) =>
                   if d < |db.deliveries| && !db.deliveries[d].acked
                      && (db.deliveries[d].certainty.MayHaveStarted? || db.deliveries[d].certainty.Started?)
                      && claim.Some? && claim.value.generation == c
                   then (if !supported then Unsupported else if failed then Failed else ControlOutcome.Done)
                   else StaleTarget)
  {
    LeasedRow(db, position, lease, now, claim, workspace);
    var v := AcceptControl(db, position, lease, now, claim, workspace).value;
    hide AcceptControl;
    FencedOutcome(v.0, position, lease, v.1.attempts, now, claim, supported, failed);
  }

  /** What a fresh lease leaves in the row. */
  lemma LeasedRow(db: Ledger, position: nat, lease: Lease, now: real, claim: Option<Claims.Row>, workspace: string)
    requires AcceptControl(db, position, lease, now, claim, workspace).Ok?
    requires AcceptControl(db, position, lease, now, claim, workspace).value.1.Leased?
    ensures var v := AcceptControl(db, position, lease, now, claim, workspace).value;
            && v.0.deliveries == db.deliveries && position in v.0.controls
            && v.0.controls[position].outcome.None? && v.0.controls[position].lease == Some(lease)
            && v.0.controls[position].attempts == v.1.attempts && v.0.controls[position].target.Some?
  {
    hide Taint, ControlTarget, IsControl, NoEffectOutcome;
  }

  lemma FencedOutcome(db: Ledger, position: nat, lease: Lease, attempts: nat, now: real, claim: Option<Claims.Row>, supported: bool, failed: bool)
    requires position in db.controls && db.controls[position].outcome.None? && db.controls[position].lease == Some(lease)
    requires db.controls[position].attempts == attempts && db.controls[position].target.Some? && now < lease.expires
    ensures HoldsLease(db, position, lease.id, attempts, now)
    ensures FenceControl(db, position, lease.id, attempts, now, true, if claim.Some? then Some(claim.value.generation) else None, supported)
            == match db.controls[position].target.value
               case Nothing => Fence.Decided(NothingRunning)
               case Running(d, c) =>
                 if d < |db.deliveries| && !db.deliveries[d].acked
                    && (db.deliveries[d].certainty.MayHaveStarted? || db.deliveries[d].certainty.Started?)
                    && claim.Some? && claim.value.generation == c
                 then (if !supported then Fence.Decided(Unsupported) else DoEffect)
                 else Fence.Decided(StaleTarget)
  {
  }

  function AdvancedTo(db: Ledger, position: nat): Ledger {
    if db.offset >= position then db else db.(offset := position, revision := db.revision + 1)
  }

  /** A settled refusal as one function. */
  function RefusedFully(db: Ledger, did: nat, code: string): Ledger
    requires did < |db.deliveries|
  {
    var a := db.deliveries[did];
    var settled := SettleRefusal(NoteRefusal(db, did, code), did, code).value;
    var lost := if a.session.Some? then LoseSession(settled, a.session.value) else settled;
    Ack(AdvancedTo(lost, a.position), did).value
  }

  /** Materialisation as one function: append or find the response, bind it, move the Offset, acknowledge. */
  function Materialized(db: Ledger, did: nat, json: seq<CatchUp.byte>, tokens: nat): Ledger
    requires did < |db.deliveries|
  {
    match AppendResponse(db, did, PayloadOf(db.deliveries[did]), json, tokens)
    case Err(_) => db
    case Ok(v) =>
      match BindResponse(v.0, did, v.1)
      case Err(_) => v.0
      case Ok(bound) =>
        if did >= |bound.deliveries| then bound
        else
          var advanced := AdvancedTo(bound, bound.deliveries[did].position);
          match Ack(advanced, did) case Err(_) => advanced case Ok(acked) => acked
  }

  lemma MaterializedRefused(db: Ledger, did: nat, json: seq<CatchUp.byte>, tokens: nat)
    requires did < |db.deliveries|
    ensures AppendResponse(db, did, PayloadOf(db.deliveries[did]), json, tokens).Err? ==> Materialized(db, did, json, tokens) == db
  {
    hide AppendResponse;
  }

  lemma MaterializedMeans(db: Ledger, did: nat, json: seq<CatchUp.byte>, tokens: nat)
    requires did < |db.deliveries| && AppendResponse(db, did, PayloadOf(db.deliveries[did]), json, tokens).Ok?
    ensures var (db1, k) := AppendResponse(db, did, PayloadOf(db.deliveries[did]), json, tokens).value;
            db1.deliveries == db.deliveries ==>
              Materialized(db, did, json, tokens)
              == Ack(AdvancedTo(BindResponse(db1, did, k).value, db.deliveries[did].position), did).value
  {
    hide AppendResponse;
  }

  lemma AppendKeepsRows(db: Ledger, did: nat, p: Payload, json: seq<CatchUp.byte>, tokens: nat)
    ensures AppendResponse(db, did, p, json, tokens).Ok? ==>
              AppendResponse(db, did, p, json, tokens).value.0 == db.(log := AppendResponse(db, did, p, json, tokens).value.0.log)
              && |db.log| <= |AppendResponse(db, did, p, json, tokens).value.0.log|
  {
  }

  /** From any point an earlier attempt at it was interrupted: it keeps the ledger laws; it is refused, with nothing changed, exactly if
      another Record of the peer has the response key, or no Record has it and the Stream is CLOSED; otherwise it leaves the delivery
      acknowledged with exactly its one response and the Offset past its Record. */
  lemma MaterializedIs(db: Ledger, did: nat, json: seq<CatchUp.byte>, tokens: nat)
    requires LedgerOk(db) && did < |db.deliveries| && db.deliveries[did].certainty.Terminal?
    ensures var db' := Materialized(db, did, json, tokens); var r := AppendResponse(db, did, PayloadOf(db.deliveries[did]), json, tokens);
            && LedgerOk(db') && Grows(db, db') && |db'.deliveries| == |db.deliveries|
            && (r.Err? <==> Occupied(db, did, PayloadOf(db.deliveries[did])) || (db.closed && forall k: nat :: !OwnResponse(db, k, did)))
            && (r.Err? ==> db' == db)
            && (r.Ok? ==>
                  && db'.deliveries[did].acked && db'.deliveries[did].response.Some?
                  && IsResponse(db', db'.deliveries[did].response.value, did) && db'.deliveries[did].position <= db'.offset)
  {
    hide LedgerOk, AppendResponse, Occupied, AllAccounted, Deliverable;
    var p := PayloadOf(db.deliveries[did]);
    AppendResponseOk(db, did, p, json, tokens);
    SelfGrows(db);
    if AppendResponse(db, did, p, json, tokens).Ok? {
      MaterializedOk(db, did, json, tokens);
      var (db1, k) := AppendResponse(db, did, p, json, tokens).value;
      AppendedOwn(db, db1, k, did);
    }
    hide Materialized, Answers, IsResponse;
  }

  /** The Record found or appended was there, or the Stream was open. */
  lemma AppendedOwn(db: Ledger, db': Ledger, k: nat, did: nat)
    requires Grows(db, db') && Answers(db', k, did)
    ensures db.closed ==> OwnResponse(db, k, did)
  {
  }

  lemma MaterializedOk(db: Ledger, did: nat, json: seq<CatchUp.byte>, tokens: nat)
    requires LedgerOk(db) && did < |db.deliveries| && db.deliveries[did].certainty.Terminal?
    requires AppendResponse(db, did, PayloadOf(db.deliveries[did]), json, tokens).Ok?
    ensures var db' := Materialized(db, did, json, tokens);
            && LedgerOk(db') && Grows(db, db') && |db'.deliveries| == |db.deliveries|
            && db'.deliveries[did].acked && db'.deliveries[did].response.Some? && IsResponse(db', db'.deliveries[did].response.value, did)
            && db'.deliveries[did].position <= db'.offset
  {
    hide LedgerOk, Grows, AppendResponse, Answers, IsResponse, Carries, AllAccounted, Deliverable, Occupied, RefusedRow;
    var p := PayloadOf(db.deliveries[did]);
    AppendResponseOk(db, did, p, json, tokens);
    var (db1, k) := AppendResponse(db, did, p, json, tokens).value;
    BindResponseOk(db1, did, k);
    var db2 := BindResponse(db1, did, k).value;
    GrowsTrans(db, db1, db2);
    SettledTarget(db2, did);
    DeliverableAt(db2, did);
    var position := db2.deliveries[did].position;
    var db3 := AdvancedTo(db2, position);
    if db3 != db2 {
      AdvanceKept(db2, position);
      GrowsTrans(db, db2, db3);
    }
    AckedOk(db3, did);
    var db4 := Ack(db3, did).value;
    GrowsTrans(db, db3, db4);
    ResponseOf(db1, db4, did, k, p);
  }

  lemma AdvanceKept(db: Ledger, position: nat)
    requires LedgerOk(db) && AllAccounted(db, position) && Deliverable(db, position) && db.offset < position
    ensures LedgerOk(AdvancedTo(db, position)) && Grows(db, AdvancedTo(db, position))
  {
    assert AdvanceOffset(db, position, db.revision) == Ok(AdvancedTo(db, position)) by { hide LedgerOk; }
    hide AdvanceOffset, Accounted;
    AdvanceOk(db, position, db.revision);
  }

  /** The bound response is the Record that was found or appended. */
  lemma ResponseOf(db1: Ledger, db: Ledger, did: nat, k: nat, p: Payload)
    requires LedgerOk(db) && did < |db.deliveries| && db.deliveries[did].response.Some? && PayloadOf(db.deliveries[did]) == p
    requires Answers(db1, k, did) && Carries(db1, k, p) && db.log == db1.log && db.peer == db1.peer
    ensures IsResponse(db, db.deliveries[did].response.value, did)
  {
    Row(db, did);
    OnlyOne(db, k, did);
    hide LedgerOk;
  }
}
