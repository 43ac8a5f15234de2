/**
 What every reachable Bridge ledger satisfies, and that each transaction keeps it.

 Each lemma names the facts its caller must know; `BridgeMachine` shows that a cycle whose token is current knows them.
 */
module BridgeInvariant {
  import opened Wrappers
  import opened BridgeLedger
  import Claims
  import CatchUp

  /** Nothing below the Offset is skipped: position `k` needs no delivery, or its delivery is settled or cancelled. */
  ghost predicate Accounted(db: Ledger, k: nat) {
    && 1 <= k <= |db.log|
    && (|| At(db, k).author == db.peer
        || At(db, k).kind.Reconcile?
        || (IsControl(At(db, k).kind) && (Addressed(db, At(db, k)) ==> k in db.controls))
        || exists did: nat :: SettledAt(db, did, k))
  }

  predicate Cancelled(db: Ledger, k: nat) {
    exists i :: 0 <= i < |db.evidence| && db.evidence[i].event == CancelledBeforeInvoke(k)
  }

  /** Terminal, refused, rejected or cancelled before it ran. */
  predicate SettledAt(db: Ledger, did: nat, k: nat) {
    did < |db.deliveries| && db.deliveries[did].position == k
    && (db.deliveries[did].certainty.Terminal? || db.deliveries[did].outcome.Some? || Cancelled(db, k))
  }

  /** All markers but the newest are resolved as never run; a promoted one ends NOT_STARTED, and what may have run has the newest one open
      or promoted. */
  predicate MarkersOk(a: Attempt) {
    && (forall n :: 0 <= n < |a.markers| - 1 ==> a.markers[n].PrespawnFailure? || a.markers[n].ControlHalt?)
    && (a.certainty.NotStarted? && a.markers != [] ==> !a.markers[|a.markers| - 1].Promoted?)
    && (!a.certainty.NotStarted? ==> a.markers != [] && (a.markers[|a.markers| - 1].Open? || a.markers[|a.markers| - 1].Promoted?))
  }

  predicate NoOpen(a: Attempt) {
    a.markers == [] || !a.markers[|a.markers| - 1].Open?
  }

  ghost predicate AckOk(db: Ledger, did: nat)
    requires did < |db.deliveries|
  {
    var a := db.deliveries[did];
    match a.certainty
    case NotStarted => NoOpen(a) && (db.offset >= a.position || CancelApplies(db, did))
    case MayHaveStarted => false
    case Started => a.outcome.Some? && db.offset >= a.position
    case Terminal => (a.response.Some? || RefusalNoted(db, did)) && db.offset >= a.position
  }

  predicate OutcomeOk(db: Ledger, a: Attempt) {
    match a.certainty
    case NotStarted => a.outcome.Some? ==> a.outcome.value.Rejected? && a.acked && db.offset >= a.position
    case MayHaveStarted => a.outcome.None?
    case Started => a.outcome.Some? ==> a.outcome.value.Refused?
    case Terminal => a.outcome.Some? && a.outcome.value.Answer?
  }

  /** Position `k` holds a response Record of delivery `did` with its result; the execution id may have been stored later. */
  predicate Answers(db: Ledger, k: nat, did: nat) {
    && did < |db.deliveries| && OwnResponse(db, k, did) && At(db, k).body.Reply?
    && Carries(db, k, At(db, k).body.payload) && SameAnswer(At(db, k).body.payload, PayloadOf(db.deliveries[did]))
  }

  /** Position `k` holds the one response Record of delivery `did`, exactly as its row reads. */
  predicate IsResponse(db: Ledger, k: nat, did: nat) {
    did < |db.deliveries| && OwnResponse(db, k, did) && Carries(db, k, PayloadOf(db.deliveries[did]))
  }

  ghost predicate AttemptOk(db: Ledger, did: nat)
    requires did < |db.deliveries|
  {
    var a := db.deliveries[did];
    && Deliverable(db, a.position) && a.position <= db.offset + 1
    && a.created <= |db.evidence|
    && MarkersOk(a) && OutcomeOk(db, a)
    && (a.acked ==> AckOk(db, did))
    && (a.response.Some? ==> a.certainty.Terminal? && Answers(db, a.response.value, did))
    && (!a.acked && did + 1 < |db.deliveries| ==> did in db.retries && db.retries[did].consumed.Some?)
  }

  ghost predicate AttemptsOk(db: Ledger) {
    forall did :: 0 <= did < |db.deliveries| ==> AttemptOk(db, did)
  }

  /** Attempts come in Record order, and attempt numbers of one Record count up. */
  ghost predicate Ordered(db: Ledger) {
    forall i, j :: 0 <= i < j < |db.deliveries| ==> InOrder(db.deliveries[i], db.deliveries[j])
  }

  predicate InOrder(a: Attempt, b: Attempt) {
    a.position <= b.position && (a.position == b.position ==> a.number < b.number)
  }

  function AttemptsOf(db: Ledger, k: nat): set<nat> {
    set did | 0 <= did < |db.deliveries| && db.deliveries[did].position == k
  }

  function RetriesOf(db: Ledger, k: nat): set<nat> {
    set did | did in db.retries && did < |db.deliveries| && db.deliveries[did].position == k && db.retries[did].consumed.Some?
  }

  /** A Record has at most one attempt more than it has consumed RETRY authorizations. */
  ghost predicate CountsOk(db: Ledger) {
    forall k: nat :: |AttemptsOf(db, k)| <= 1 + |RetriesOf(db, k)|
  }

  ghost predicate OffsetOk(db: Ledger) {
    db.offset <= |db.log| && forall k: nat :: 1 <= k <= db.offset ==> Accounted(db, k)
  }

  /** One Record of the peer under a response key. */
  ghost predicate ResponsesOk(db: Ledger) {
    forall j: nat, k: nat, did: nat :: OwnResponse(db, j, did) && OwnResponse(db, k, did) ==> j == k
  }

  predicate OwnResponse(db: Ledger, k: nat, did: nat) {
    1 <= k <= |db.log| && At(db, k).author == db.peer && At(db, k).key == ResponseKey(did)
  }

  /** Only an uncertain attempt is ever authorized to be retried, and it can only end. */
  ghost predicate RetriesOk(db: Ledger) {
    forall r :: r in db.retries ==>
      r < |db.deliveries| && (db.deliveries[r].certainty.MayHaveStarted? || db.deliveries[r].certainty.Terminal?)
      && db.retries[r].position <= |db.log|
  }

  ghost predicate ControlsOk(db: Ledger) {
    forall c :: c in db.controls ==>
      ControlFor(db, c) && db.controls[c].kind == At(db, c).kind && db.controls[c].acceptedSeq <= |db.evidence|
  }

  /** One evidence row per terminal attempt, per bound response and per decided control, and none otherwise. */
  ghost predicate EvidenceOk(db: Ledger) {
    && (forall did: nat :: multiset(db.evidence)[Note(TerminalNote, Some(did))]
                           == if did < |db.deliveries| && db.deliveries[did].certainty.Terminal? then 1 else 0)
    && (forall did: nat :: multiset(db.evidence)[Note(ResponseAppended, Some(did))]
                           == if did < |db.deliveries| && db.deliveries[did].response.Some? then 1 else 0)
    && (forall c: nat :: multiset(db.evidence)[Note(ControlApplied(c), None)]
                         == if c in db.controls && db.controls[c].outcome.Some? then 1 else 0)
  }

  ghost predicate LedgerOk(db: Ledger) {
    && AttemptsOk(db) && Ordered(db) && CountsOk(db) && OffsetOk(db) && ResponsesOk(db) && RetriesOk(db) && ControlsOk(db)
    && EvidenceOk(db)
  }

  // ---------------------------------------------------------------- frames

  lemma CancelStays(db: Ledger, db': Ledger, did: nat)
    requires Grows(db, db') && CancelApplies(db, did)
    ensures CancelApplies(db', did)
  {
    var c :| c in db.controls && db.controls[c].kind.Cancel? && Above(c, db.deliveries[did])
             && db.controls[c].acceptedSeq >= db.deliveries[did].created;
    assert c in db'.controls && ControlGrows(db.controls[c], db'.controls[c]);
    assert AttemptGrows(db.deliveries[did], db'.deliveries[did]);
  }

  lemma CancelledStays(db: Ledger, db': Ledger, k: nat)
    requires db.evidence <= db'.evidence && Cancelled(db, k)
    ensures Cancelled(db', k)
  {
    var i :| 0 <= i < |db.evidence| && db.evidence[i].event == CancelledBeforeInvoke(k);
    assert db'.evidence[i] == db.evidence[i];
  }

  lemma AccountedStays(db: Ledger, db': Ledger, k: nat)
    requires Grows(db, db') && Accounted(db, k)
    ensures Accounted(db', k)
  {
    assert At(db', k) == At(db, k);
    if did: nat :| SettledAt(db, did, k) {
      assert AttemptGrows(db.deliveries[did], db'.deliveries[did]);
      if Cancelled(db, k) { CancelledStays(db, db', k); }
      assert SettledAt(db', did, k);
    }
  }

  lemma AnswersStays(db: Ledger, db': Ledger, k: nat, did: nat)
    requires Grows(db, db') && Answers(db, k, did) && db.deliveries[did].certainty.Terminal?
    ensures Answers(db', k, did)
  {
    assert At(db', k) == At(db, k);
    assert AttemptGrows(db.deliveries[did], db'.deliveries[did]);
  }

  lemma RefusalStays(db: Ledger, db': Ledger, did: nat)
    requires db.evidence <= db'.evidence && RefusalNoted(db, did)
    ensures RefusalNoted(db', did)
  {
    var i :| 0 <= i < |db.evidence| && db.evidence[i].event.RefusalDetected? && db.evidence[i].delivery == Some(did);
    assert db'.evidence[i] == db.evidence[i];
  }

  lemma AttemptFrame(db: Ledger, db': Ledger, i: nat)
    requires Grows(db, db') && i < |db.deliveries| && AttemptOk(db, i) && db'.deliveries[i] == db.deliveries[i]
    requires i + 1 < |db'.deliveries| && !db.deliveries[i].acked && i + 1 == |db.deliveries|
             ==> i in db'.retries && db'.retries[i].consumed.Some?
    ensures AttemptOk(db', i)
  {
    var a := db.deliveries[i];
    assert At(db', a.position) == At(db, a.position);
    if a.acked && a.certainty.NotStarted? && CancelApplies(db, i) { CancelStays(db, db', i); }
    if a.response.Some? { AnswersStays(db, db', a.response.value, i); }
    if RefusalNoted(db, i) { RefusalStays(db, db', i); }
    hide CancelApplies, Answers, RefusalNoted;
  }

  lemma AttemptsFrame(db: Ledger, db': Ledger, did: nat)
    requires Grows(db, db') && AttemptsOk(db) && |db'.deliveries| == |db.deliveries|
    requires forall i :: 0 <= i < |db.deliveries| && i != did ==> db'.deliveries[i] == db.deliveries[i]
    requires did < |db'.deliveries| ==> AttemptOk(db', did)
    ensures AttemptsOk(db')
  {
    forall i | 0 <= i < |db'.deliveries| ensures AttemptOk(db', i) {
      if i != did {
        AttemptFrame(db, db', i);
      }
    }
  }

  lemma OrderedFrame(db: Ledger, db': Ledger)
    requires Grows(db, db') && Ordered(db) && |db'.deliveries| == |db.deliveries|
    ensures Ordered(db')
  {
    forall i, j | 0 <= i < j < |db'.deliveries| ensures InOrder(db'.deliveries[i], db'.deliveries[j]) {
      assert InOrder(db.deliveries[i], db.deliveries[j]);
      assert AttemptGrows(db.deliveries[i], db'.deliveries[i]) && AttemptGrows(db.deliveries[j], db'.deliveries[j]);
    }
  }

  lemma CountsFrame(db: Ledger, db': Ledger)
    requires Grows(db, db') && CountsOk(db) && |db'.deliveries| == |db.deliveries|
    ensures CountsOk(db')
  {
    forall k: nat ensures |AttemptsOf(db', k)| <= 1 + |RetriesOf(db', k)| {
      assert AttemptsOf(db', k) == AttemptsOf(db, k) by {
        forall i | 0 <= i < |db.deliveries| ensures db'.deliveries[i].position == db.deliveries[i].position {
          assert AttemptGrows(db.deliveries[i], db'.deliveries[i]);
        }
      }
      assert RetriesOf(db, k) <= RetriesOf(db', k) by {
        forall r | r in RetriesOf(db, k) ensures r in RetriesOf(db', k) {
          assert AttemptGrows(db.deliveries[r], db'.deliveries[r]);
        }
      }
      SubsetSize(RetriesOf(db, k), RetriesOf(db', k));
      assert |AttemptsOf(db, k)| <= 1 + |RetriesOf(db, k)|;
    }
  }

  lemma SubsetSize(a: set<nat>, b: set<nat>)
    requires a <= b
    ensures |a| <= |b|
  {
    assert b == a + (b - a);
  }

  lemma OffsetFrame(db: Ledger, db': Ledger)
    requires Grows(db, db') && OffsetOk(db) && db'.offset == db.offset
    ensures OffsetOk(db')
  {
    forall k: nat | 1 <= k <= db'.offset ensures Accounted(db', k) {
      assert Accounted(db, k);
      AccountedStays(db, db', k);
    }
  }

  lemma ResponsesFrame(db: Ledger, db': Ledger)
    requires Grows(db, db') && ResponsesOk(db)
    requires db'.log == db.log
    ensures ResponsesOk(db')
  {
    forall k: nat, did: nat | OwnResponse(db', k, did) ensures OwnResponse(db, k, did) {}
  }

  lemma RetriesFrame(db: Ledger, db': Ledger)
    requires Grows(db, db') && RetriesOk(db) && db'.retries == db.retries
    ensures RetriesOk(db')
  {
    forall r | r in db'.retries ensures db'.deliveries[r].certainty.MayHaveStarted? || db'.deliveries[r].certainty.Terminal? {
      assert AttemptGrows(db.deliveries[r], db'.deliveries[r]);
    }
  }

  lemma ControlsFrame(db: Ledger, db': Ledger)
    requires Grows(db, db') && ControlsOk(db) && db'.controls == db.controls
    ensures ControlsOk(db')
  {
    forall c | c in db'.controls
      ensures ControlFor(db', c) && db'.controls[c].kind == At(db', c).kind && db'.controls[c].acceptedSeq <= |db'.evidence|
    {
      assert ControlFor(db, c) && At(db', c) == At(db, c);
    }
  }

  predicate PlainNote(n: Note) {
    !n.event.TerminalNote? && !n.event.ResponseAppended? && !n.event.ControlApplied?
  }

  ghost predicate SameFacts(db: Ledger, db': Ledger) {
    && |db'.deliveries| >= |db.deliveries|
    && (forall i :: 0 <= i < |db.deliveries| ==> (db'.deliveries[i].certainty.Terminal? <==> db.deliveries[i].certainty.Terminal?))
    && (forall i :: 0 <= i < |db.deliveries| ==> (db'.deliveries[i].response.Some? <==> db.deliveries[i].response.Some?))
    && (forall i :: |db.deliveries| <= i < |db'.deliveries| ==> !db'.deliveries[i].certainty.Terminal? && db'.deliveries[i].response.None?)
    && (forall c :: c in db.controls && db.controls[c].outcome.Some? <==> c in db'.controls && db'.controls[c].outcome.Some?)
  }

  lemma EvidenceFrame(db: Ledger, db': Ledger, notes: seq<Note>)
    requires EvidenceOk(db) && SameFacts(db, db') && db'.evidence == db.evidence + notes
    requires forall i :: 0 <= i < |notes| ==> PlainNote(notes[i])
    ensures EvidenceOk(db')
  {
    forall n: Note | !PlainNote(n) ensures multiset(db'.evidence)[n] == multiset(db.evidence)[n] {
      assert n !in multiset(notes);
      assert multiset(db.evidence + notes) == multiset(db.evidence) + multiset(notes);
    }
    forall did: nat ensures multiset(db'.evidence)[Note(TerminalNote, Some(did))]
                            == if did < |db'.deliveries| && db'.deliveries[did].certainty.Terminal? then 1 else 0
    {
      assert multiset(db'.evidence)[Note(TerminalNote, Some(did))] == multiset(db.evidence)[Note(TerminalNote, Some(did))];
    }
    forall did: nat ensures multiset(db'.evidence)[Note(ResponseAppended, Some(did))]
                            == if did < |db'.deliveries| && db'.deliveries[did].response.Some? then 1 else 0
    {
      assert multiset(db'.evidence)[Note(ResponseAppended, Some(did))] == multiset(db.evidence)[Note(ResponseAppended, Some(did))];
    }
    forall c: nat ensures multiset(db'.evidence)[Note(ControlApplied(c), None)]
                          == if c in db'.controls && db'.controls[c].outcome.Some? then 1 else 0
    {
      assert multiset(db'.evidence)[Note(ControlApplied(c), None)] == multiset(db.evidence)[Note(ControlApplied(c), None)];
    }
  }

  /** `db'` differs from `db` in attempt `did`, in sessions, and by plain evidence only. */
  predicate OneRow(db: Ledger, db': Ledger, did: nat) {
    && did < |db.deliveries| && |db'.deliveries| == |db.deliveries|
    && db' == db.(deliveries := db'.deliveries, sessions := db'.sessions, evidence := db'.evidence)
    && db.deliveries[..did] == db'.deliveries[..did] && db.deliveries[did + 1..] == db'.deliveries[did + 1..]
    && (db'.evidence == db.evidence
        || (|db'.evidence| == |db.evidence| + 1 && db'.evidence[..|db.evidence|] == db.evidence && PlainNote(db'.evidence[|db.evidence|])))
  }

  lemma OneRowSame(db: Ledger, db': Ledger, did: nat)
    requires OneRow(db, db', did)
    ensures forall i :: 0 <= i < |db.deliveries| && i != did ==> db'.deliveries[i] == db.deliveries[i]
    ensures exists notes: seq<Note> :: db'.evidence == db.evidence + notes && forall i :: 0 <= i < |notes| ==> PlainNote(notes[i])
  {
    forall i | 0 <= i < |db.deliveries| && i != did ensures db'.deliveries[i] == db.deliveries[i] {
      if i < did {
        assert db.deliveries[..did][i] == db'.deliveries[..did][i];
      } else {
        assert db.deliveries[did + 1..][i - did - 1] == db'.deliveries[did + 1..][i - did - 1];
      }
    }
    if db'.evidence == db.evidence {
      assert db'.evidence == db.evidence + [];
    } else {
      assert db'.evidence == db.evidence + [db'.evidence[|db.evidence|]];
    }
  }

  lemma OneRowGrows(db: Ledger, db': Ledger, did: nat)
    requires OneRow(db, db', did) && AttemptGrows(db.deliveries[did], db'.deliveries[did])
    ensures Grows(db, db')
  {
    OneRowSame(db, db', did);
    forall i | 0 <= i < |db.deliveries| ensures AttemptGrows(db.deliveries[i], db'.deliveries[i]) {
      if i != did { assert db'.deliveries[i] == db.deliveries[i]; }
    }
    assert db.evidence <= db'.evidence;
  }

  /** Neither finalized nor given its response. */
  predicate SameEnd(a: Attempt, b: Attempt) {
    (b.certainty.Terminal? <==> a.certainty.Terminal?) && (b.response.Some? <==> a.response.Some?)
  }

  lemma OneRowOk(db: Ledger, db': Ledger, did: nat)
    requires LedgerOk(db) && OneRow(db, db', did) && AttemptGrows(db.deliveries[did], db'.deliveries[did])
    requires SameEnd(db.deliveries[did], db'.deliveries[did])
    requires AttemptOk(db', did)
    ensures LedgerOk(db') && Grows(db, db')
  {
    OneRowGrows(db, db', did);
    OneRowSame(db, db', did);
    OneRowFrames(db, db', did);
  }

  lemma OneRowFrames(db: Ledger, db': Ledger, did: nat)
    requires LedgerOk(db) && OneRow(db, db', did) && Grows(db, db')
    requires SameEnd(db.deliveries[did], db'.deliveries[did])
    requires AttemptOk(db', did)
    requires forall i :: 0 <= i < |db.deliveries| && i != did ==> db'.deliveries[i] == db.deliveries[i]
    requires exists notes: seq<Note> :: db'.evidence == db.evidence + notes && forall i :: 0 <= i < |notes| ==> PlainNote(notes[i])
    ensures LedgerOk(db')
  {
    hide AttemptOk, Ordered, CountsOk, OffsetOk, ResponsesOk, RetriesOk, ControlsOk, EvidenceOk, Grows, AttemptsOk;
    AttemptsFrame(db, db', did);
    OrderedFrame(db, db');
    CountsFrame(db, db');
    OffsetFrame(db, db');
    ResponsesFrame(db, db');
    RetriesFrame(db, db');
    ControlsFrame(db, db');
    var notes: seq<Note> :| db'.evidence == db.evidence + notes && forall i :: 0 <= i < |notes| ==> PlainNote(notes[i]);
    assert SameFacts(db, db');
    EvidenceFrame(db, db', notes);
  }

  // ---------------------------------------------------------------- one attempt row at a time

  lemma {:induction false} LastOpenIs(ms: seq<Marker>)
    requires forall n :: 0 <= n < |ms| - 1 ==> !ms[n].Open?
    ensures LastOpen(ms) == if ms != [] && ms[|ms| - 1].Open? then Some(|ms| - 1) else None
    decreases |ms|
  {
    if ms != [] {
      var t := ms[..|ms| - 1];
      LastOpenIs(t);
    }
  }

  /** An open marker means the attempt was never acknowledged nor settled. */
  lemma OpenIsPending(db: Ledger, did: nat)
    requires AttemptsOk(db) && did < |db.deliveries|
    requires db.deliveries[did].certainty.NotStarted? && LastOpen(db.deliveries[did].markers).Some?
    ensures var a := db.deliveries[did];
            !a.acked && a.outcome.None? && a.response.None? && LastOpen(a.markers) == Some(|a.markers| - 1) && !NoOpen(a)
  {
    assert AttemptOk(db, did);
    LastOpenIs(db.deliveries[did].markers);
  }

  /** One row is replaced, with plain evidence, and the sessions are whatever the transaction made of them. */
  predicate Replaced(db: Ledger, db': Ledger, did: nat, a: Attempt, notes: seq<Note>) {
    did < |db.deliveries|
    && db' == db.(deliveries := db.deliveries[did := a], sessions := db'.sessions, evidence := db.evidence + notes)
    && (notes == [] || (|notes| == 1 && PlainNote(notes[0])))
  }

  lemma ReplacedOk(db: Ledger, db': Ledger, did: nat, a: Attempt, notes: seq<Note>)
    requires LedgerOk(db) && Replaced(db, db', did, a, notes)
    requires AttemptGrows(db.deliveries[did], a) && SameEnd(db.deliveries[did], a)
    requires Grows(db, db') ==> AttemptOk(db', did)
    ensures LedgerOk(db') && Grows(db, db')
  {
    hide LedgerOk, AttemptOk, AttemptGrows, Grows;
    assert db'.deliveries[did] == a;
    assert db.deliveries[..did] == db'.deliveries[..did];
    assert db.deliveries[did + 1..] == db'.deliveries[did + 1..];
    assert db.evidence + [] == db.evidence;
    OneRowGrows(db, db', did);
    OneRowOk(db, db', did);
  }

  /** The parts of `AttemptOk` that a change to certainty, markers, settlement or acknowledgement cannot touch. */
  lemma PlaceStays(db: Ledger, db': Ledger, did: nat)
    requires Grows(db, db') && did < |db.deliveries| && AttemptOk(db, did)
    ensures Deliverable(db', db'.deliveries[did].position) && db'.deliveries[did].position <= db'.offset + 1
    ensures db'.deliveries[did].created <= |db'.evidence|
    ensures db.deliveries[did].response.Some? ==> Answers(db', db.deliveries[did].response.value, did)
    ensures RefusalNoted(db, did) ==> RefusalNoted(db', did)
    ensures |db'.deliveries| == |db.deliveries| && !db.deliveries[did].acked && did + 1 < |db'.deliveries|
            ==> did in db'.retries && db'.retries[did].consumed.Some?
  {
    var a := db.deliveries[did];
    assert AttemptGrows(a, db'.deliveries[did]);
    assert At(db', a.position) == At(db, a.position);
    if a.response.Some? { AnswersStays(db, db', a.response.value, did); }
    if RefusalNoted(db, did) { RefusalStays(db, db', did); }
  }

  lemma Row(db: Ledger, did: nat)
    requires LedgerOk(db) && did < |db.deliveries|
    ensures AttemptOk(db, did) && AttemptsOk(db)
  {
  }

  lemma MarkWrittenOk(db: Ledger, did: nat)
    requires LedgerOk(db) && MarkInvocation(db, did).Ok? && !db.deliveries[did].acked
    ensures LedgerOk(MarkInvocation(db, did).value) && Grows(db, MarkInvocation(db, did).value)
  {
    hide LedgerOk, Grows, CancelApplies, Answers, Deliverable, RefusalNoted;
    var db' := MarkInvocation(db, did).value;
    var a := db.deliveries[did];
    Row(db, did);
    LastOpenIs(a.markers);
    if Grows(db, db') { PlaceStays(db, db', did); }
    ReplacedOk(db, db', did, db'.deliveries[did], [Note(AboutToInvoke(|a.markers|), Some(did))]);
  }

  lemma ResolveOk(db: Ledger, did: nat, reason: Marker)
    requires LedgerOk(db) && ResolveInvocation(db, did, reason).Ok? && (reason.PrespawnFailure? || reason.ControlHalt?)
    ensures LedgerOk(ResolveInvocation(db, did, reason).value) && Grows(db, ResolveInvocation(db, did, reason).value)
  {
    hide LedgerOk, Grows, CancelApplies, Answers, Deliverable, RefusalNoted;
    var db' := ResolveInvocation(db, did, reason).value;
    var a := db.deliveries[did];
    Row(db, did);
    OpenIsPending(db, did);
    if Grows(db, db') { PlaceStays(db, db', did); }
    ReplacedOk(db, db', did, db'.deliveries[did], [Note(MarkerResolved(|a.markers| - 1, reason), Some(did))]);
  }

  lemma TransitionOk(db: Ledger, did: nat, to: Certainty, event: Event)
    requires LedgerOk(db) && Transition(db, did, to, event).Ok? && !to.Terminal? && PlainNote(Note(event, None))
    requires db.deliveries[did].certainty.MayHaveStarted? ==> !to.Started?
    requires !db.deliveries[did].acked && db.deliveries[did].outcome.None? && !db.deliveries[did].certainty.Terminal?
    requires db.deliveries[did].certainty.NotStarted? ==> !NoOpen(db.deliveries[did])
    ensures LedgerOk(Transition(db, did, to, event).value) && Grows(db, Transition(db, did, to, event).value)
  {
    hide LedgerOk, Grows, CancelApplies, Answers, Deliverable, RefusalNoted;
    var db' := Transition(db, did, to, event).value;
    Row(db, did);
    if Grows(db, db') { PlaceStays(db, db', did); }
    ReplacedOk(db, db', did, db'.deliveries[did], [Note(event, Some(did))]);
  }

  lemma PromoteOneOk(db: Ledger, did: nat)
    requires LedgerOk(db) && did < |db.deliveries|
    ensures LedgerOk(PromoteOne(db, did)) && Grows(db, PromoteOne(db, did))
  {
    hide LedgerOk, Grows, CancelApplies, Answers, Deliverable, RefusalNoted;
    var a := db.deliveries[did];
    var db' := PromoteOne(db, did);
    if Dangling(a) {
      Row(db, did);
      OpenIsPending(db, did);
      if Grows(db, db') { PlaceStays(db, db', did); }
      ReplacedOk(db, db', did, db'.deliveries[did], [Note(RecoveredNote, Some(did))]);
    } else {
      SelfGrows(db);
    }
  }

  lemma SelfGrows(db: Ledger)
    ensures Grows(db, db)
  {
  }

  lemma BindExecutionOk(db: Ledger, did: nat, execution: string)
    requires LedgerOk(db) && did < |db.deliveries|
    ensures LedgerOk(BindExecution(db, did, execution).value) && Grows(db, BindExecution(db, did, execution).value)
  {
    hide LedgerOk, Grows, CancelApplies, Answers, Deliverable, RefusalNoted;
    var db' := BindExecution(db, did, execution).value;
    Row(db, did);
    if Grows(db, db') { PlaceStays(db, db', did); }
    if Grows(db, db') && CancelApplies(db, did) { CancelStays(db, db', did); }
    if Grows(db, db') { NamedAnswers(db, db', did); }
    assert db.evidence + [] == db.evidence;
    ReplacedOk(db, db', did, db'.deliveries[did], []);
  }

  /** Storing the execution id leaves the bound response the delivery's answer. */
  lemma NamedAnswers(db: Ledger, db': Ledger, did: nat)
    requires Grows(db, db') && did < |db.deliveries| && db'.deliveries[did] == db.deliveries[did].(execution := db'.deliveries[did].execution)
    ensures forall k: nat :: Answers(db, k, did) ==> Answers(db', k, did)
  {
    forall k: nat | Answers(db, k, did) ensures Answers(db', k, did) {
      assert At(db', k) == At(db, k);
    }
  }

  lemma SettleRefusalOk(db: Ledger, did: nat, code: string)
    requires LedgerOk(db) && did < |db.deliveries| && db.deliveries[did].certainty.Started?
    ensures LedgerOk(SettleRefusal(db, did, code).value) && Grows(db, SettleRefusal(db, did, code).value)
  {
    hide LedgerOk, Grows, CancelApplies, Answers, Deliverable, RefusalNoted;
    var db' := SettleRefusal(db, did, code).value;
    Row(db, did);
    if db.deliveries[did].outcome.Some? {
      SelfGrows(db);
    } else {
      if Grows(db, db') { PlaceStays(db, db', did); }
      assert db.evidence + [] == db.evidence;
      ReplacedOk(db, db', did, db'.deliveries[did], []);
    }
  }

  lemma BindResponseOk(db: Ledger, did: nat, k: nat)
    requires LedgerOk(db) && Answers(db, k, did) && db.deliveries[did].certainty.Terminal?
    ensures LedgerOk(BindResponse(db, did, k).value) && Grows(db, BindResponse(db, did, k).value)
    ensures BindResponse(db, did, k).value.deliveries[did].response.Some?
  {
    assert did < |db.deliveries|;
    hide LedgerOk, Grows, CancelApplies, Deliverable, AttemptOk, Answers;
    var db' := BindResponse(db, did, k).value;
    if db.deliveries[did].response.Some? {
      SelfGrows(db);
    } else {
      if Grows(db, db') {
        AnswersStays(db, db', k, did);
        BoundRow(db, db', did, k);
      }
      CountedRow(db, db', did, Note(ResponseAppended, Some(did)));
    }
  }

  lemma BoundRow(db: Ledger, db': Ledger, did: nat, k: nat)
    requires LedgerOk(db) && Grows(db, db') && did < |db.deliveries| == |db'.deliveries| && db.deliveries[did].certainty.Terminal?
    requires db'.deliveries[did] == db.deliveries[did].(response := Some(k)) && Answers(db', k, did)
    ensures AttemptOk(db', did)
  {
    hide LedgerOk, CancelApplies, Answers, Deliverable, RefusalNoted;
    Row(db, did);
    PlaceStays(db, db', did);
    hide Grows;
  }

  /** A delivery that may be acknowledged: its response is bound, or a refusal is on record and its result is settled. */
  predicate Finished(db: Ledger, did: nat) {
    did < |db.deliveries|
    && ((db.deliveries[did].certainty.Terminal? && db.deliveries[did].response.Some?) || RefusedRow(db, did))
  }

  predicate RefusedRow(db: Ledger, did: nat) {
    did < |db.deliveries| && RefusalNoted(db, did)
    && (db.deliveries[did].certainty.Terminal? || (db.deliveries[did].certainty.Started? && db.deliveries[did].outcome.Some?))
  }

  lemma AckedOk(db: Ledger, did: nat)
    requires LedgerOk(db) && Finished(db, did) && db.deliveries[did].position <= db.offset
    ensures LedgerOk(Ack(db, did).value) && Grows(db, Ack(db, did).value)
  {
    hide LedgerOk, Grows, CancelApplies, Answers, Deliverable, RefusalNoted;
    var db' := Ack(db, did).value;
    Row(db, did);
    if db.deliveries[did].acked {
      SelfGrows(db);
    } else {
      if Grows(db, db') { PlaceStays(db, db', did); }
      ReplacedOk(db, db', did, db'.deliveries[did], [Note(OffsetAcked, Some(did))]);
    }
  }

  lemma AckCancelledOk(db: Ledger, did: nat)
    requires LedgerOk(db) && did < |db.deliveries|
    requires db.deliveries[did].certainty.NotStarted? ==> NoOpen(db.deliveries[did]) && CancelApplies(db, did)
    ensures LedgerOk(AckCancelled(db, did).value) && Grows(db, AckCancelled(db, did).value)
  {
    hide LedgerOk, Grows, CancelApplies, Answers, Deliverable, RefusalNoted;
    var db' := AckCancelled(db, did).value;
    Row(db, did);
    if !db.deliveries[did].certainty.NotStarted? {
      SelfGrows(db);
    } else {
      if Grows(db, db') {
        PlaceStays(db, db', did);
        CancelStays(db, db', did);
      }
      assert db.evidence + [] == db.evidence;
      ReplacedOk(db, db', did, db'.deliveries[did], []);
    }
  }

  lemma BindSessionOk(db: Ledger, did: nat, g: nat, sessions: seq<Session>)
    requires LedgerOk(db) && BindSession(db, did, g).Ok?
    ensures var db' := BindSession(db, did, g).value.(sessions := sessions); LedgerOk(db') && Grows(db, db')
  {
    hide LedgerOk, Grows, CancelApplies, Answers, Deliverable, RefusalNoted;
    var db' := BindSession(db, did, g).value.(sessions := sessions);
    Row(db, did);
    if Grows(db, db') { PlaceStays(db, db', did); }
    if Grows(db, db') && CancelApplies(db, did) { CancelStays(db, db', did); }
    assert db.evidence + [] == db.evidence;
    ReplacedOk(db, db', did, db'.deliveries[did], []);
  }

  lemma {:induction false} PromoteFirstOk(db: Ledger, n: nat)
    requires LedgerOk(db) && n <= |db.deliveries|
    ensures LedgerOk(PromoteFirst(db, n)) && Grows(db, PromoteFirst(db, n))
    decreases n
  {
    hide LedgerOk, Grows, PromoteOne;
    if n == 0 {
      SelfGrows(db);
    } else {
      PromoteFirstOk(db, n - 1);
      PromoteOneOk(PromoteFirst(db, n - 1), n - 1);
      GrowsTrans(db, PromoteFirst(db, n - 1), PromoteFirst(db, n));
    }
  }

  /** Recovery leaves no attempt NOT_STARTED with an open marker. */
  lemma {:induction false} PromoteFirstDone(db: Ledger, n: nat, i: nat)
    requires i < n <= |db.deliveries|
    ensures !Dangling(PromoteFirst(db, n).deliveries[i])
    decreases n
  {
    var prev := PromoteFirst(db, n - 1);
    if i < n - 1 {
      PromoteFirstDone(db, n - 1, i);
    }
  }

  lemma PromoteIs(db: Ledger)
    ensures PromoteUnresolved(db) == PromoteFirst(db, |db.deliveries|)
  {
  }

  lemma PromoteOk(db: Ledger)
    requires LedgerOk(db)
    ensures var db' := PromoteUnresolved(db);
            LedgerOk(db') && Grows(db, db') && forall i :: 0 <= i < |db'.deliveries| ==> !Dangling(db'.deliveries[i])
  {
    hide LedgerOk, Grows, Dangling, PromoteFirst;
    PromoteFirstOk(db, |db.deliveries|);
    var db' := PromoteUnresolved(db);
    forall i | 0 <= i < |db'.deliveries| ensures !Dangling(db'.deliveries[i]) {
      PromoteFirstDone(db, |db.deliveries|, i);
    }
  }

  // ---------------------------------------------------------------- the attempts stand still

  /** Neither the log nor an attempt row changes; the evidence is only appended to, by notes the ledger laws do not count. */
  ghost predicate Still(db: Ledger, db': Ledger, notes: seq<Note>) {
    && db'.peer == db.peer && db'.deliveries == db.deliveries && db'.log == db.log && db'.evidence == db.evidence + notes
    && (db.closed ==> db'.closed)
    && (forall i :: 0 <= i < |notes| ==> PlainNote(notes[i]))
    && db.offset <= db'.offset && db.revision <= db'.revision
    && (forall c :: c in db.controls ==> c in db'.controls && ControlGrows(db.controls[c], db'.controls[c]))
    && (forall r :: r in db.retries ==> r in db'.retries && (db.retries[r].consumed.Some? ==> db'.retries[r] == db.retries[r]))
  }

  lemma StillGrows(db: Ledger, db': Ledger, notes: seq<Note>)
    requires Still(db, db', notes)
    ensures Grows(db, db')
  {
    hide ControlGrows;
  }

  /** The parts of the ledger laws that hold of any still step. */
  lemma StillKeeps(db: Ledger, db': Ledger, notes: seq<Note>)
    requires LedgerOk(db) && Still(db, db', notes)
    ensures Grows(db, db') && AttemptsOk(db') && Ordered(db') && CountsOk(db') && ResponsesOk(db')
    ensures db'.offset == db.offset ==> OffsetOk(db')
  {
    StillGrows(db, db', notes);
    StillAttempts(db, db');
    OrderedFrame(db, db');
    CountsFrame(db, db');
    if db'.offset == db.offset { OffsetFrame(db, db'); }
    ResponsesFrame(db, db');
  }

  lemma StillAttempts(db: Ledger, db': Ledger)
    requires AttemptsOk(db) && Grows(db, db') && db'.deliveries == db.deliveries
    ensures AttemptsOk(db')
  {
    forall i | 0 <= i < |db'.deliveries| ensures AttemptOk(db', i) {
      AttemptFrame(db, db', i);
    }
  }

  lemma StillOk(db: Ledger, db': Ledger, notes: seq<Note>)
    requires LedgerOk(db) && Still(db, db', notes)
    requires db'.offset == db.offset && db'.retries == db.retries && db'.controls == db.controls
    ensures LedgerOk(db') && Grows(db, db')
  {
    StillKeeps(db, db', notes);
    hide AttemptsOk, Ordered, CountsOk, ResponsesOk, OffsetOk;
    RetriesFrame(db, db');
    ControlsFrame(db, db');
    EvidenceFrame(db, db', notes);
  }

  lemma NoteOk(db: Ledger, note: Note, sessions: seq<Session>)
    requires LedgerOk(db) && PlainNote(note)
    ensures var db' := db.(evidence := db.evidence + [note], sessions := sessions); LedgerOk(db') && Grows(db, db')
  {
    hide LedgerOk, Grows;
    StillOk(db, db.(evidence := db.evidence + [note], sessions := sessions), [note]);
  }

  lemma SessionsOnlyOk(db: Ledger, sessions: seq<Session>)
    requires LedgerOk(db)
    ensures var db' := db.(sessions := sessions); LedgerOk(db') && Grows(db, db')
  {
    hide LedgerOk, Grows;
    assert db.evidence + [] == db.evidence;
    StillOk(db, db.(sessions := sessions), []);
  }

  lemma NoteCancelledOk(db: Ledger, did: nat, position: nat)
    requires LedgerOk(db)
    ensures var db' := NoteCancelled(db, did, position); LedgerOk(db') && Grows(db, db') && Cancelled(db', position)
  {
    hide LedgerOk, Grows;
    var db' := NoteCancelled(db, did, position);
    if db' == db {
      SelfGrows(db);
    } else {
      NoteOk(db, Note(CancelledBeforeInvoke(position), Some(did)), db.sessions);
      assert db'.evidence[|db.evidence|].event == CancelledBeforeInvoke(position);
    }
  }

  /** The Offset moves over accounted positions only. */
  lemma AdvanceOk(db: Ledger, position: nat, expected: nat)
    requires LedgerOk(db) && AdvanceOffset(db, position, expected).Ok?
    requires forall k: nat :: 1 <= k <= position ==> Accounted(db, k)
    ensures LedgerOk(AdvanceOffset(db, position, expected).value) && Grows(db, AdvanceOffset(db, position, expected).value)
  {
    var db' := AdvanceOffset(db, position, expected).value;
    assert db.evidence + [] == db.evidence;
    hide LedgerOk, Accounted;
    assert Still(db, db', []) by { hide *; ControlsSame(db); }
    AdvanceParts(db, db', position);
  }

  lemma ControlsSame(db: Ledger)
    ensures forall c :: c in db.controls ==> ControlGrows(db.controls[c], db.controls[c])
  {
  }

  lemma AdvanceParts(db: Ledger, db': Ledger, position: nat)
    requires LedgerOk(db) && Still(db, db', []) && position <= |db.log|
    requires db'.offset == position && db'.retries == db.retries && db'.controls == db.controls
    requires forall k: nat :: 1 <= k <= position ==> Accounted(db, k)
    ensures LedgerOk(db') && Grows(db, db')
  {
    StillKeeps(db, db', []);
    hide AttemptsOk, Ordered, CountsOk, ResponsesOk, Grows;
    forall k: nat | 1 <= k <= position ensures Accounted(db', k) {
      AccountedStays(db, db', k);
    }
    RetriesFrame(db, db');
    ControlsFrame(db, db');
    EvidenceFrame(db, db', []);
  }

  lemma RegisterRetryOk(db: Ledger, record: nat)
    requires LedgerOk(db) && RegisterRetry(db, record).Ok?
    ensures LedgerOk(RegisterRetry(db, record).value) && Grows(db, RegisterRetry(db, record).value)
  {
    var db' := RegisterRetry(db, record).value;
    var did := At(db, record).body.delivery;
    ControlsSame(db);
    hide ControlGrows;
    var notes := [Note(RetryRegistered, Some(did))];
    assert Still(db, db', notes) by { hide LedgerOk; }
    StillKeeps(db, db', notes);
    hide AttemptsOk, Ordered, CountsOk, ResponsesOk, Grows, OffsetOk;
    assert RetriesOk(db');
    ControlsFrame(db, db');
    EvidenceFrame(db, db', notes);
  }

  // ---------------------------------------------------------------- control intent

  /** The control rows change in row `c` only, which gains an outcome exactly with its one evidence row. */
  lemma ControlRowOk(db: Ledger, db': Ledger, c: nat, row: Control, notes: seq<Note>)
    requires LedgerOk(db) && ControlFor(db, c) && row.kind == At(db, c).kind && row.acceptedSeq <= |db.evidence|
    requires db' == db.(controls := db.controls[c := row], sessions := db'.sessions, evidence := db.evidence + notes)
    requires c in db.controls ==> ControlGrows(db.controls[c], row)
    requires c in db.controls && db.controls[c].outcome.Some? ==> notes == []
    requires var decided := row.outcome.Some? && !(c in db.controls && db.controls[c].outcome.Some?);
             if decided then notes == [Note(ControlApplied(c), None)] else forall i :: 0 <= i < |notes| ==> PlainNote(notes[i])
    ensures LedgerOk(db') && Grows(db, db')
  {
    hide AttemptsOk, Ordered, CountsOk, OffsetOk, ResponsesOk, RetriesOk, ControlsOk, EvidenceOk, ControlGrows, ControlFor;
    var plain := db'.(evidence := db.evidence);
    assert db.evidence + [] == db.evidence;
    ControlsSame(db);
    ControlGrowsOutcome(db, c, row);
    ControlRowKeeps(db, db', plain, notes);
    ControlRowEvidence(db, db', c, notes);
    RetriesFrame(db, db');
    ControlRows(db, db', c, row);
  }

  lemma ControlGrowsOutcome(db: Ledger, c: nat, row: Control)
    ensures c in db.controls && ControlGrows(db.controls[c], row) && db.controls[c].outcome.Some? ==> row.outcome.Some?
  {
  }

  lemma ControlRowKeeps(db: Ledger, db': Ledger, plain: Ledger, notes: seq<Note>)
    requires LedgerOk(db) && Still(db, plain, []) && plain.offset == db.offset
    requires db' == plain.(evidence := plain.evidence + notes)
    ensures Grows(db, db') && AttemptsOk(db') && Ordered(db') && CountsOk(db') && ResponsesOk(db') && OffsetOk(db')
  {
    StillGrows(db, plain, []);
    assert Grows(db, db') by { hide AttemptGrows, ControlGrows; }
    hide Grows;
    StillAttempts(db, db');
    OrderedFrame(db, db');
    CountsFrame(db, db');
    OffsetFrame(db, db');
    ResponsesFrame(db, db');
  }

  lemma ControlRows(db: Ledger, db': Ledger, c: nat, row: Control)
    requires ControlsOk(db) && ControlFor(db, c) && row.kind == At(db, c).kind && row.acceptedSeq <= |db.evidence|
    requires db'.log == db.log && db'.peer == db.peer && db'.controls == db.controls[c := row] && |db.evidence| <= |db'.evidence|
    ensures ControlsOk(db')
  {
    forall d | d in db'.controls
      ensures ControlFor(db', d) && db'.controls[d].kind == At(db', d).kind && db'.controls[d].acceptedSeq <= |db'.evidence|
    {
      assert ControlFor(db, d);
    }
  }

  lemma ControlRowEvidence(db: Ledger, db': Ledger, c: nat, notes: seq<Note>)
    requires EvidenceOk(db) && db'.evidence == db.evidence + notes && db'.deliveries == db.deliveries
    requires c in db'.controls && db'.controls == db.controls[c := db'.controls[c]]
    requires c in db.controls && db.controls[c].outcome.Some? ==> db'.controls[c].outcome.Some?
    requires c in db.controls && db.controls[c].outcome.Some? ==> notes == []
    requires var decided := db'.controls[c].outcome.Some? && !(c in db.controls && db.controls[c].outcome.Some?);
             if decided then notes == [Note(ControlApplied(c), None)] else forall i :: 0 <= i < |notes| ==> PlainNote(notes[i])
    ensures EvidenceOk(db')
  {
    if (c in db.controls && db.controls[c].outcome.Some?) || db'.controls[c].outcome.None? {
      assert SameFacts(db, db');
      EvidenceFrame(db, db', notes);
    } else {
      OneMore(db, db', Note(ControlApplied(c), None));
    }
  }

  /** One counted note is added, for the fact it stands for. */
  lemma OneMore(db: Ledger, db': Ledger, note: Note)
    requires EvidenceOk(db) && db'.evidence == db.evidence + [note]
    requires forall did: nat ::
      (did < |db'.deliveries| && db'.deliveries[did].certainty.Terminal?)
      <==> (did < |db.deliveries| && db.deliveries[did].certainty.Terminal?) || note == Note(TerminalNote, Some(did))
    requires forall did: nat ::
      (did < |db'.deliveries| && db'.deliveries[did].response.Some?)
      <==> (did < |db.deliveries| && db.deliveries[did].response.Some?) || note == Note(ResponseAppended, Some(did))
    requires forall c: nat ::
      (c in db'.controls && db'.controls[c].outcome.Some?)
      <==> (c in db.controls && db.controls[c].outcome.Some?) || note == Note(ControlApplied(c), None)
    requires forall did: nat :: did < |db.deliveries| && db.deliveries[did].certainty.Terminal? ==> note != Note(TerminalNote, Some(did))
    requires forall did: nat :: did < |db.deliveries| && db.deliveries[did].response.Some? ==> note != Note(ResponseAppended, Some(did))
    requires forall c: nat :: c in db.controls && db.controls[c].outcome.Some? ==> note != Note(ControlApplied(c), None)
    ensures EvidenceOk(db')
  {
    assert multiset(db.evidence + [note]) == multiset(db.evidence) + multiset{note};
    forall did: nat ensures multiset(db'.evidence)[Note(TerminalNote, Some(did))]
                            == if did < |db'.deliveries| && db'.deliveries[did].certainty.Terminal? then 1 else 0
    {
      assert multiset(db.evidence)[Note(TerminalNote, Some(did))]
             == if did < |db.deliveries| && db.deliveries[did].certainty.Terminal? then 1 else 0;
    }
    forall did: nat ensures multiset(db'.evidence)[Note(ResponseAppended, Some(did))]
                            == if did < |db'.deliveries| && db'.deliveries[did].response.Some? then 1 else 0
    {
      assert multiset(db.evidence)[Note(ResponseAppended, Some(did))]
             == if did < |db.deliveries| && db.deliveries[did].response.Some? then 1 else 0;
    }
    forall c: nat ensures multiset(db'.evidence)[Note(ControlApplied(c), None)]
                          == if c in db'.controls && db'.controls[c].outcome.Some? then 1 else 0
    {
      assert multiset(db.evidence)[Note(ControlApplied(c), None)]
             == if c in db.controls && db.controls[c].outcome.Some? then 1 else 0;
    }
  }

  lemma AcceptControlOk(db: Ledger, position: nat, lease: Lease, now: real, claim: Option<Claims.Row>, workspace: string)
    requires LedgerOk(db) && AcceptControl(db, position, lease, now, claim, workspace).Ok?
    ensures var db' := AcceptControl(db, position, lease, now, claim, workspace).value.0;
            LedgerOk(db') && Grows(db, db') && position in db'.controls
  {
    hide LedgerOk, Grows, Taint;
    var r := AcceptControl(db, position, lease, now, claim, workspace).value;
    var db' := r.0;
    assert db.evidence + [] == db.evidence;
    ControlAt(db, position);
    if r.1.Replayed? {
      SelfGrows(db);
    } else {
      var notes := if db'.evidence == db.evidence then [] else [db'.evidence[|db.evidence|]];
      ControlRowOk(db, db', position, db'.controls[position], notes);
    }
  }

  lemma ControlAt(db: Ledger, c: nat)
    requires LedgerOk(db)
    ensures c in db.controls ==> ControlFor(db, c) && db.controls[c].kind == At(db, c).kind && db.controls[c].acceptedSeq <= |db.evidence|
  {
  }

  lemma CompleteControlOk(db: Ledger, position: nat, id: nat, attempts: nat, now: real, tokenCurrent: bool, outcome: ControlOutcome)
    requires LedgerOk(db)
    ensures var db' := CompleteControl(db, position, id, attempts, now, tokenCurrent, outcome).0; LedgerOk(db') && Grows(db, db')
  {
    hide LedgerOk, Grows;
    var r := CompleteControl(db, position, id, attempts, now, tokenCurrent, outcome);
    SelfGrows(db);
    ControlAt(db, position);
    if r.1 {
      ControlRowOk(db, r.0, position, r.0.controls[position], [Note(ControlApplied(position), None)]);
    }
  }

  // ---------------------------------------------------------------- terminal truth and its response

  lemma FinalizeOk(db: Ledger, did: nat, value: string, vendor: Option<string>, p: Option<Provenance>, now: real)
    requires LedgerOk(db) && FinalizeTerminal(db, did, value, vendor, p, now).Ok?
    ensures var db' := FinalizeTerminal(db, did, value, vendor, p, now).value.0;
            LedgerOk(db') && Grows(db, db') && db'.deliveries[did].certainty.Terminal?
  {
    hide LedgerOk, Grows, CommitNative;
    var r := FinalizeTerminal(db, did, value, vendor, p, now).value;
    var db' := r.0;
    if r.1.First? {
      FinalizeRow(db, db', did);
    } else {
      NoteOk(db, db'.evidence[|db.evidence|], db.sessions);
    }
  }

  lemma FinalizeRow(db: Ledger, db': Ledger, did: nat)
    requires LedgerOk(db) && did < |db.deliveries| && did < |db'.deliveries|
    requires db.deliveries[did].outcome.None? && Allowed(db.deliveries[did].certainty, Terminal) && !db.deliveries[did].certainty.Terminal?
    requires var a := db'.deliveries[did];
             a == db.deliveries[did].(certainty := Terminal, outcome := a.outcome, terminalAt := a.terminalAt)
             && a.outcome.Some? && a.outcome.value.Answer?
    requires db' == Put(db, did, db'.deliveries[did], Note(TerminalNote, Some(did))).(sessions := db'.sessions)
    ensures LedgerOk(db') && Grows(db, db')
  {
    hide LedgerOk, Grows, CancelApplies, Deliverable, Answers, RefusalNoted;
    Row(db, did);
    if Grows(db, db') { PlaceStays(db, db', did); }
    CountedRow(db, db', did, Note(TerminalNote, Some(did)));
  }

  /** One row is finalized, or given its response, with the one evidence row for it. */
  lemma CountedRow(db: Ledger, db': Ledger, did: nat, note: Note)
    requires LedgerOk(db) && did < |db.deliveries| && did < |db'.deliveries|
    requires db' == Put(db, did, db'.deliveries[did], note).(sessions := db'.sessions) && AttemptGrows(db.deliveries[did], db'.deliveries[did])
    requires Grows(db, db') ==> AttemptOk(db', did)
    requires Counted(db.deliveries[did], db'.deliveries[did], did, note)
    ensures LedgerOk(db') && Grows(db, db')
  {
    hide Ordered, CountsOk, OffsetOk, ResponsesOk, RetriesOk, ControlsOk, EvidenceOk, ControlGrows, AttemptGrows, AttemptOk;
    ControlsSame(db);
    AttemptsSame(db);
    assert Grows(db, db') by { hide LedgerOk; }
    hide Grows;
    AttemptsFrame(db, db', did);
    OrderedFrame(db, db');
    CountsFrame(db, db');
    OffsetFrame(db, db');
    hide AttemptsOk;
    ResponsesFrame(db, db');
    RetriesFrame(db, db');
    ControlsFrame(db, db');
    OneMore(db, db', note);
  }

  predicate Counted(a: Attempt, b: Attempt, did: nat, note: Note) {
    || (note == Note(TerminalNote, Some(did)) && !a.certainty.Terminal? && b.certainty.Terminal? && b.response == a.response)
    || (note == Note(ResponseAppended, Some(did)) && b.certainty == a.certainty && a.response.None? && b.response.Some?)
  }

  lemma {:induction false} FindKeyIs(log: seq<Rec>, author: string, key: Key)
    ensures var k := FindKey(log, author, key);
            k <= |log| && (k > 0 ==> log[k - 1].author == author && log[k - 1].key == key)
            && (k == 0 ==> forall i :: 0 <= i < |log| ==> !(log[i].author == author && log[i].key == key))
    decreases |log|
  {
    if log != [] && !(log[|log| - 1].author == author && log[|log| - 1].key == key) {
      var t := log[..|log| - 1];
      FindKeyIs(t, author, key);
      forall i | 0 <= i < |log| && FindKey(t, author, key) == 0 ensures !(log[i].author == author && log[i].key == key) {
        assert i < |t| ==> t[i] == log[i];
      }
    }
  }

  lemma CloseOk(db: Ledger)
    requires LedgerOk(db)
    ensures var db' := db.(closed := true); LedgerOk(db') && Grows(db, db')
  {
    hide LedgerOk, Grows;
    assert db.evidence + [] == db.evidence;
    StillOk(db, db.(closed := true), []);
  }

  /** A Record whose key its author has not used yet. */
  lemma AppendedOk(db: Ledger, r: Rec)
    requires LedgerOk(db) && !db.closed && FindKey(db.log, r.author, r.key) == 0
    ensures var db' := db.(log := db.log + [r]); LedgerOk(db') && Grows(db, db')
  {
    var db' := db.(log := db.log + [r]);
    assert Grows(db, db') by { hide LedgerOk; ControlsSame(db); }
    hide Grows;
    StillAttempts(db, db');
    OrderedFrame(db, db');
    CountsFrame(db, db');
    OffsetFrame(db, db');
    hide AttemptsOk, Ordered, CountsOk, OffsetOk;
    FreshKey(db, r);
    RetriesFrame(db, db');
    ControlsFrame(db, db');
    assert db.evidence + [] == db.evidence;
    EvidenceFrame(db, db', []);
  }

  lemma FreshKey(db: Ledger, r: Rec)
    requires ResponsesOk(db) && FindKey(db.log, r.author, r.key) == 0
    ensures ResponsesOk(db.(log := db.log + [r]))
  {
    var db' := db.(log := db.log + [r]);
    FindKeyIs(db.log, r.author, r.key);
    forall k: nat, did: nat | OwnResponse(db', k, did)
      ensures if k == |db'.log| then r.author == db.peer && r.key == ResponseKey(did)
              else OwnResponse(db, k, did) && !(r.author == db.peer && r.key == ResponseKey(did))
    {
      assert k <= |db.log| ==> At(db', k) == At(db, k);
    }
  }

  /** Any client's append keeps the ledger laws. */
  lemma AppendOk(db: Ledger, r: Rec)
    requires LedgerOk(db)
    ensures LedgerOk(AppendRecord(db, r)) && Grows(db, AppendRecord(db, r))
  {
    hide LedgerOk, Grows;
    SelfGrows(db);
    if AppendRecord(db, r) != db { AppendedOk(db, r); }
  }

  /** The key of the delivery's response is taken by another Record of the peer than the response that carries `p`. */
  ghost predicate Occupied(db: Ledger, did: nat, p: Payload) {
    exists k: nat :: OwnResponse(db, k, did) && !Carries(db, k, p)
  }

  /** Materialising a terminal delivery: a conflict exactly if another Record of the peer has the key, closure exactly if nothing has it
      and the Stream is CLOSED; else the response is found, or appended once. */
  lemma AppendResponseOk(db: Ledger, did: nat, p: Payload, json: seq<CatchUp.byte>, tokens: nat)
    requires LedgerOk(db) && did < |db.deliveries| && SameAnswer(p, PayloadOf(db.deliveries[did]))
    ensures match AppendResponse(db, did, p, json, tokens)
            case Err(e) =>
              (e == IdempotencyConflict && Occupied(db, did, p))
              || (e == StreamClosed && db.closed && forall k: nat :: !OwnResponse(db, k, did))
            case Ok(v) =>
              LedgerOk(v.0) && Grows(db, v.0) && Answers(v.0, v.1, did) && Carries(v.0, v.1, p) && v.0 == db.(log := v.0.log)
              && !Occupied(db, did, p)
  {
    hide LedgerOk, Grows;
    var k := FindKey(db.log, db.peer, ResponseKey(did));
    FindKeyIs(db.log, db.peer, ResponseKey(did));
    if k > 0 {
      assert OwnResponse(db, k, did);
      SelfGrows(db);
      OnlyOne(db, k, did);
    } else if !db.closed {
      AppendedOk(db, ResponseRec(db.peer, did, p, json, tokens));
    }
  }

  lemma OnlyOne(db: Ledger, k: nat, did: nat)
    requires LedgerOk(db) && OwnResponse(db, k, did)
    ensures forall j: nat :: OwnResponse(db, j, did) ==> j == k
  {
    hide AttemptsOk, Ordered, CountsOk, OffsetOk, RetriesOk, ControlsOk, EvidenceOk;
  }

  // ---------------------------------------------------------------- rejection and creation

  lemma RejectOk(db: Ledger, did: nat, code: string)
    requires LedgerOk(db) && RejectSelector(db, did, code).Ok?
    ensures var db' := RejectSelector(db, did, code).value;
            LedgerOk(db') && Grows(db, db') && db'.deliveries[did].acked && db'.deliveries[did].certainty.NotStarted?
  {
    hide LedgerOk, AttemptOk, ControlGrows, LastOpen, AttemptGrows;
    var db' := RejectSelector(db, did, code).value;
    var a := db.deliveries[did];
    Row(db, did);
    MarkersOf(db, did);
    ControlsSame(db);
    AttemptsSame(db);
    var notes := (if a.outcome.None? then [Note(RequestRejected, Some(did))] else []) + [Note(OffsetAcked, Some(did))];
    assert db'.evidence == db.evidence + notes;
    RejectGrows(a, db'.deliveries[did]);
    assert Grows(db, db');
    RejectRow(db, db', did);
    hide Grows;
    RejectFrames(db, db', did, notes);
  }

  lemma MarkersOf(db: Ledger, did: nat)
    requires LedgerOk(db) && did < |db.deliveries| && LastOpen(db.deliveries[did].markers).None?
    ensures NoOpen(db.deliveries[did])
  {
    Row(db, did);
    LastOpenIs(db.deliveries[did].markers);
  }

  lemma AttemptsSame(db: Ledger)
    ensures forall i :: 0 <= i < |db.deliveries| ==> AttemptGrows(db.deliveries[i], db.deliveries[i])
  {
  }

  lemma RejectGrows(a: Attempt, b: Attempt)
    requires a.certainty.NotStarted? && b == a.(outcome := b.outcome, acked := true) && (a.outcome.Some? ==> b.outcome == a.outcome)
    ensures AttemptGrows(a, b)
  {
  }

  lemma RejectRow(db: Ledger, db': Ledger, did: nat)
    requires Grows(db, db') && did < |db.deliveries| && |db'.deliveries| == |db.deliveries| && AttemptOk(db, did)
    requires db.deliveries[did].certainty.NotStarted? && NoOpen(db.deliveries[did])
    requires db'.offset >= db.deliveries[did].position
    requires db'.deliveries[did] == db.deliveries[did].(outcome := db'.deliveries[did].outcome, acked := true)
    requires db'.deliveries[did].outcome.Some? && (db.deliveries[did].outcome.None? ==> db'.deliveries[did].outcome.value.Rejected?)
    requires db.deliveries[did].outcome.Some? ==> db'.deliveries[did].outcome == db.deliveries[did].outcome
    ensures AttemptOk(db', did)
  {
    PlaceStays(db, db', did);
    hide Grows, Deliverable, Answers, CancelApplies, RefusalNoted;
  }

  lemma RejectFrames(db: Ledger, db': Ledger, did: nat, notes: seq<Note>)
    requires LedgerOk(db) && Grows(db, db') && did < |db.deliveries| && |db'.deliveries| == |db.deliveries|
    requires AttemptOk(db', did) && db'.deliveries[did].outcome.Some? && SameEnd(db.deliveries[did], db'.deliveries[did])
    requires forall i :: 0 <= i < |db.deliveries| && i != did ==> db'.deliveries[i] == db.deliveries[i]
    requires db'.log == db.log && db'.peer == db.peer && db'.retries == db.retries && db'.controls == db.controls
    requires db'.offset == db.offset || db'.offset == db'.deliveries[did].position
    requires db'.evidence == db.evidence + notes && forall i :: 0 <= i < |notes| ==> PlainNote(notes[i])
    ensures LedgerOk(db')
  {
    hide Ordered, CountsOk, OffsetOk, ResponsesOk, RetriesOk, ControlsOk, EvidenceOk, Grows;
    assert SettledAt(db', did, db'.deliveries[did].position) && Deliverable(db', db'.deliveries[did].position);
    Placed(db, db', did);
    hide AttemptOk;
    AttemptsFrame(db, db', did);
    OrderedFrame(db, db');
    CountsFrame(db, db');
    MovedOffset(db, db', did);
    hide AttemptsOk;
    ResponsesFrame(db, db');
    RetriesFrame(db, db');
    ControlsFrame(db, db');
    assert SameFacts(db, db');
    EvidenceFrame(db, db', notes);
  }

  lemma Placed(db: Ledger, db': Ledger, did: nat)
    requires LedgerOk(db) && Grows(db, db') && did < |db.deliveries|
    ensures db'.deliveries[did].position <= db.offset + 1
  {
    assert AttemptOk(db, did) && AttemptGrows(db.deliveries[did], db'.deliveries[did]);
  }

  /** The Offset moves over one settled position. */
  lemma MovedOffset(db: Ledger, db': Ledger, did: nat)
    requires OffsetOk(db) && Grows(db, db') && did < |db'.deliveries|
    requires db'.offset == db.offset || db'.offset == db'.deliveries[did].position
    requires SettledAt(db', did, db'.deliveries[did].position) && Deliverable(db', db'.deliveries[did].position)
    requires db'.deliveries[did].position <= db.offset + 1
    ensures OffsetOk(db')
  {
    forall k: nat | 1 <= k <= db'.offset ensures Accounted(db', k) {
      if k <= db.offset {
        assert Accounted(db, k);
        AccountedStays(db, db', k);
      }
    }
  }

  lemma {:induction false} LastAttemptIs(ds: seq<Attempt>, position: nat)
    ensures match LastAttempt(ds, position)
            case None => forall i :: 0 <= i < |ds| ==> ds[i].position != position
            case Some(d) => d < |ds| && ds[d].position == position && forall i :: d < i < |ds| ==> ds[i].position != position
    decreases |ds|
  {
    if ds != [] && ds[|ds| - 1].position != position {
      LastAttemptIs(ds[..|ds| - 1], position);
    }
  }

  predicate Newest(db: Ledger, did: nat) {
    did + 1 == |db.deliveries|
  }

  /** The newest attempt has nothing dangling; by `LedgerOk` no other one has. */
  predicate Recovered(db: Ledger) {
    db.deliveries != [] && db.deliveries[|db.deliveries| - 1].certainty.NotStarted? ==> NoOpen(db.deliveries[|db.deliveries| - 1])
  }

  lemma InsertOk(db: Ledger, a: Attempt, retries: map<nat, Authorization>)
    requires LedgerOk(db) && RetriesFollow(db, retries)
    requires a == Attempt(a.position, a.number, a.claim, a.retry, |db.evidence| + 1, NotStarted, [], None, None, None, 0.0, None, false)
    requires Deliverable(db, a.position) && a.position <= db.offset + 1
    requires forall i :: 0 <= i < |db.deliveries| ==> InOrder(db.deliveries[i], a)
    requires db.deliveries != [] && !db.deliveries[|db.deliveries| - 1].acked
             ==> |db.deliveries| - 1 in retries && retries[|db.deliveries| - 1].consumed.Some?
    requires |AttemptsOf(db, a.position)| <= |RetriesOf(db.(retries := retries), a.position)|
    ensures var db' := db.(deliveries := db.deliveries + [a], retries := retries,
                           evidence := db.evidence + [Note(AttemptCreated, Some(|db.deliveries|))]);
            LedgerOk(db') && Grows(db, db')
  {
    hide Ordered, CountsOk, OffsetOk, ResponsesOk, RetriesOk, ControlsOk, EvidenceOk, ControlGrows, AttemptOk;
    var did := |db.deliveries|;
    var notes := [Note(AttemptCreated, Some(did))];
    var db' := db.(deliveries := db.deliveries + [a], retries := retries, evidence := db.evidence + notes);
    ControlsSame(db);
    assert Grows(db, db') by { hide LedgerOk, AttemptOk; }
    hide Grows;
    assert AttemptOk(db', did) by { NewRow(db, db'); }
    InsertAttempts(db, db');
    InsertOrdered(db, db');
    InsertCounts(db, db', a);
    OffsetFrame(db, db');
    ResponsesFrame(db, db');
    InsertRetries(db, db');
    ControlsFrame(db, db');
    assert SameFacts(db, db');
    EvidenceFrame(db, db', notes);
  }

  /** Authorizations are at most consumed. */
  ghost predicate RetriesFollow(db: Ledger, retries: map<nat, Authorization>) {
    retries.Keys == db.retries.Keys
    && forall r :: r in db.retries ==> retries[r].position == db.retries[r].position
                                       && (db.retries[r].consumed.Some? ==> retries[r] == db.retries[r])
  }

  lemma NewRow(db: Ledger, db': Ledger)
    requires |db'.deliveries| > 0 && db'.offset == db.offset && db'.log == db.log && db'.peer == db.peer
    requires |db.evidence| < |db'.evidence|
    requires var a := db'.deliveries[|db'.deliveries| - 1];
      a == Attempt(a.position, a.number, a.claim, a.retry, |db.evidence| + 1, NotStarted, [], None, None, None, 0.0, None, false)
      && Deliverable(db, a.position) && a.position <= db.offset + 1
    ensures AttemptOk(db', |db'.deliveries| - 1)
  {
  }

  lemma InsertAttempts(db: Ledger, db': Ledger)
    requires AttemptsOk(db) && Grows(db, db') && |db'.deliveries| == |db.deliveries| + 1
    requires forall i :: 0 <= i < |db.deliveries| ==> db'.deliveries[i] == db.deliveries[i]
    requires AttemptOk(db', |db.deliveries|)
    requires db.deliveries != [] && !db.deliveries[|db.deliveries| - 1].acked
             ==> |db.deliveries| - 1 in db'.retries && db'.retries[|db.deliveries| - 1].consumed.Some?
    ensures AttemptsOk(db')
  {
    hide AttemptOk;
    forall i | 0 <= i < |db'.deliveries| ensures AttemptOk(db', i) {
      if i < |db.deliveries| {
        assert AttemptOk(db, i);
        AttemptFrame(db, db', i);
      }
    }
  }

  lemma InsertOrdered(db: Ledger, db': Ledger)
    requires Ordered(db) && |db'.deliveries| == |db.deliveries| + 1
    requires forall i :: 0 <= i < |db.deliveries| ==> db'.deliveries[i] == db.deliveries[i]
    requires forall i :: 0 <= i < |db.deliveries| ==> InOrder(db.deliveries[i], db'.deliveries[|db.deliveries|])
    ensures Ordered(db')
  {
    hide InOrder;
  }

  lemma InsertCounts(db: Ledger, db': Ledger, a: Attempt)
    requires CountsOk(db) && RetriesFollow(db, db'.retries) && db'.deliveries == db.deliveries + [a]
    requires |AttemptsOf(db, a.position)| <= |RetriesOf(db.(retries := db'.retries), a.position)|
    ensures CountsOk(db')
  {
    forall k: nat ensures |AttemptsOf(db', k)| <= 1 + |RetriesOf(db', k)| {
      InsertSets(db, db', a, k);
      SubsetSize(RetriesOf(db, k), RetriesOf(db', k));
      SubsetSize(RetriesOf(db.(retries := db'.retries), k), RetriesOf(db', k));
      assert |AttemptsOf(db, k)| <= 1 + |RetriesOf(db, k)|;
    }
  }

  lemma InsertSets(db: Ledger, db': Ledger, a: Attempt, k: nat)
    requires RetriesFollow(db, db'.retries) && db'.deliveries == db.deliveries + [a]
    ensures AttemptsOf(db', k) == AttemptsOf(db, k) + (if a.position == k then {|db.deliveries|} else {})
    ensures RetriesOf(db, k) <= RetriesOf(db', k) && RetriesOf(db.(retries := db'.retries), k) <= RetriesOf(db', k)
  {
  }

  lemma InsertRetries(db: Ledger, db': Ledger)
    requires RetriesOk(db) && RetriesFollow(db, db'.retries) && db'.log == db.log
    requires |db.deliveries| <= |db'.deliveries|
    requires forall i :: 0 <= i < |db.deliveries| ==> db'.deliveries[i] == db.deliveries[i]
    ensures RetriesOk(db')
  {
  }

  /** Position `k` is the next to deliver: nothing before it is left, no attempt is for a later Record, and an attempt for it that has not
      run is cancelled. */
  ghost predicate NextUp(db: Ledger, k: nat) {
    && k <= db.offset + 1
    && (forall i :: 0 <= i < |db.deliveries| ==> db.deliveries[i].position <= k)
    && (Unstarted(db, k) ==> CancelApplies(db, |db.deliveries| - 1))
  }

  /** The newest attempt is for position `k` and has not run. */
  predicate Unstarted(db: Ledger, k: nat) {
    db.deliveries != [] && db.deliveries[|db.deliveries| - 1].position == k && db.deliveries[|db.deliveries| - 1].certainty.NotStarted?
  }

  /** Where a cycle stands when it has picked a Record: nothing in flight and it is the next one; or the newest attempt is for
      this Record and has not run; or the newest attempt was uncertain and is to be retried. */
  ghost predicate Picked(db: Ledger, position: nat, retryOf: Option<nat>) {
    var n := |db.deliveries|;
    match retryOf
    case Some(r) => r + 1 == n && db.deliveries[r].position == position
    case None =>
      Deliverable(db, position)
      && if n > 0 && !db.deliveries[n - 1].acked
         then db.deliveries[n - 1].certainty.NotStarted? && db.deliveries[n - 1].position == position
         else NextUp(db, position)
  }

  /** The attempt a cycle is about to run: the newest, not started, nothing dangling, and open unless a cancel applies. */
  ghost predicate Ready(db: Ledger, did: nat) {
    Newest(db, did) && db.deliveries[did].certainty.NotStarted? && NoOpen(db.deliveries[did])
    && (db.deliveries[did].acked ==> CancelApplies(db, did))
  }

  lemma BeginOk(db: Ledger, position: nat, retryOf: Option<nat>, claim: nat)
    requires LedgerOk(db) && Picked(db, position, retryOf) && Recovered(db) && BeginAttempt(db, position, retryOf, claim).Ok?
    ensures var (db', did) := BeginAttempt(db, position, retryOf, claim).value;
            LedgerOk(db') && Grows(db, db') && Ready(db', did) && db'.deliveries[did].position == position
  {
    hide LedgerOk, CancelApplies, Deliverable, Grows, Addressed;
    var (db', did) := BeginAttempt(db, position, retryOf, claim).value;
    LastAttemptIs(db.deliveries, position);
    if retryOf.Some? {
      RetryRow(db, position, retryOf.value, claim);
    } else {
      NewestAt(db, position);
      if did < |db.deliveries| {
        SelfGrows(db);
      } else {
        FirstRow(db, position, claim);
      }
    }
  }

  /** An attempt for the picked Record, if there is one, is the newest; if it is acknowledged a cancel applies to it. */
  lemma NewestAt(db: Ledger, position: nat)
    requires LedgerOk(db) && Picked(db, position, None)
    ensures forall i: nat :: i < |db.deliveries| && db.deliveries[i].position == position
              ==> db.deliveries[|db.deliveries| - 1].position == position
    ensures forall i :: 0 <= i < |db.deliveries| ==> db.deliveries[i].position <= position
    ensures db.deliveries != [] && db.deliveries[|db.deliveries| - 1].position == position
            && db.deliveries[|db.deliveries| - 1].certainty.NotStarted? && db.deliveries[|db.deliveries| - 1].acked
            ==> CancelApplies(db, |db.deliveries| - 1)
  {
    hide CountsOk, OffsetOk, ResponsesOk, RetriesOk, ControlsOk, EvidenceOk, CancelApplies;
    var n := |db.deliveries|;
    if n > 0 {
      assert AttemptOk(db, n - 1);
      forall i | 0 <= i < n - 1 ensures db.deliveries[i].position <= db.deliveries[n - 1].position {
        assert InOrder(db.deliveries[i], db.deliveries[n - 1]);
      }
    }
  }

  lemma FirstRow(db: Ledger, position: nat, claim: nat)
    requires LedgerOk(db) && Picked(db, position, None)
    requires forall i :: 0 <= i < |db.deliveries| ==> db.deliveries[i].position < position
    ensures var db' := Insert(db, position, 1, claim, None); LedgerOk(db') && Grows(db, db')
  {
    hide LedgerOk, Grows;
    assert AttemptsOf(db, position) == {};
    InsertOk(db, Insert(db, position, 1, claim, None).deliveries[|db.deliveries|], db.retries);
  }

  lemma RetryRow(db: Ledger, position: nat, r: nat, claim: nat)
    requires LedgerOk(db) && Picked(db, position, Some(r))
    requires r in db.retries && db.retries[r].consumed.None?
    ensures var number := db.deliveries[r].number + 1;
            var db' := Insert(db, position, number, claim, Some(db.retries[r].position))
                       .(retries := db.retries[r := db.retries[r].(consumed := Some(number))]);
            LedgerOk(db') && Grows(db, db')
  {
    hide Grows, OffsetOk, ResponsesOk, RetriesOk, ControlsOk, EvidenceOk;
    var number := db.deliveries[r].number + 1;
    var retries := db.retries[r := db.retries[r].(consumed := Some(number))];
    var a := Insert(db, position, number, claim, Some(db.retries[r].position)).deliveries[|db.deliveries|];
    Row(db, r);
    hide AttemptOk, AttemptsOk;
    forall i | 0 <= i < |db.deliveries| ensures InOrder(db.deliveries[i], a) {
      assert i < r ==> InOrder(db.deliveries[i], db.deliveries[r]);
    }
    RetryCounts(db, position, r, retries);
    hide LedgerOk, CountsOk;
    InsertOk(db, a, retries);
  }

  lemma RetryCounts(db: Ledger, position: nat, r: nat, retries: map<nat, Authorization>)
    requires CountsOk(db) && r in db.retries && db.retries[r].consumed.None?
    requires r < |db.deliveries| && db.deliveries[r].position == position
    requires r in retries && retries == db.retries[r := retries[r]] && retries[r].consumed.Some?
    ensures |AttemptsOf(db, position)| <= |RetriesOf(db.(retries := retries), position)|
  {
    assert RetriesOf(db.(retries := retries), position) == RetriesOf(db, position) + {r};
    assert r !in RetriesOf(db, position);
    assert |AttemptsOf(db, position)| <= 1 + |RetriesOf(db, position)|;
  }
}
