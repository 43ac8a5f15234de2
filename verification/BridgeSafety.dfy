/**
 What every reachable state of the Bridge satisfies.

 The ledger laws hold in every state. A cycle whose token still matches the claim row also knows what its program counter
 promises (`View`): nobody else can have changed an attempt or the Offset since. Nothing is promised to a cycle that lost its
 claim, except that a marker it has yet to act on stays open or promoted.
 */
module BridgeSafety {
  import opened Wrappers
  import opened BridgeLedger
  import opened BridgeContext
  import opened BridgeInvariant
  import opened BridgeMachine
  import Claims
  import CatchUp

  // ---------------------------------------------------------------- what a program counter promises

  /** Position `k` needs not be shown to the session again. */
  predicate Shown(db: Ledger, shown: set<nat>, k: nat) {
    1 <= k <= |db.log| && (k in shown || ForeignRedirect(db.peer, At(db, k)))
  }

  ghost predicate AllShown(db: Ledger, shown: set<nat>, after: nat, before: nat) {
    forall k: nat :: after < k < before ==> Shown(db, shown, k)
  }

  /** What the promise of a program counter refers to besides the ledger. */
  datatype Past = Past(turns: map<Mark, Turn>, unproven: set<nat>, budget: CatchUp.Budget)

  function PastOf(s: State): Past {
    Past(s.turns, s.unproven, s.budget)
  }

  /** The injected context closes the gap between what the session knows and the Record, unless it was truncated, or a callback has bound
      the session since. */
  ghost predicate FeedOk(db: Ledger, unproven: set<nat>, t: Turn) {
    t.session < |db.sessions| && t.position <= |db.log| &&
    (Usable(db.sessions[t.session]) && t.session !in unproven ==>
       match t.mode
       case Native(after) =>
         db.sessions[t.session].vendor.Some? && db.sessions[t.session].watermark == Some(after) && AllShown(db, t.feed, after, t.position)
       case Bootstrap => db.sessions[t.session].vendor.None? && (!t.truncated ==> AllShown(db, t.feed, 0, t.position))
       case _ => db.sessions[t.session].vendor.None?)
  }

  ghost predicate TurnRow(db: Ledger, unproven: set<nat>, t: Turn) {
    Newest(db, t.did) && db.deliveries[t.did].position == t.position && db.deliveries[t.did].session == Some(t.session)
    && FeedOk(db, unproven, t)
  }

  ghost predicate TurnReady(db: Ledger, unproven: set<nat>, t: Turn) {
    TurnRow(db, unproven, t) && Ready(db, t.did) && !db.deliveries[t.did].acked
  }

  ghost predicate Marked(db: Ledger, unproven: set<nat>, t: Turn, n: nat) {
    TurnRow(db, unproven, t) && !db.deliveries[t.did].acked && db.deliveries[t.did].certainty.NotStarted?
    && n + 1 == |db.deliveries[t.did].markers| && db.deliveries[t.did].markers[n].Open?
  }

  /** Started with no result yet, or finalized by a callback meanwhile. */
  predicate UnderWay(a: Attempt) {
    (a.certainty.Started? && a.outcome.None? && !a.acked) || a.certainty.Terminal?
  }

  ghost predicate Begun(db: Ledger, unproven: set<nat>, t: Turn) {
    TurnRow(db, unproven, t) && UnderWay(db.deliveries[t.did])
  }

  /** The turn was passed to the runtime under the attempt's last marker. */
  predicate WasCalled(db: Ledger, turns: map<Mark, Turn>, t: Turn) {
    t.did < |db.deliveries| && db.deliveries[t.did].markers != []
    && Mark(t.did, |db.deliveries[t.did].markers| - 1) in turns && turns[Mark(t.did, |db.deliveries[t.did].markers| - 1)] == t
  }

  /** The resolved session is the attempt's own, and a native one has a delta that fits. */
  ghost predicate Selected(db: Ledger, w: Past, did: nat, g: nat) {
    did < |db.deliveries| && g < |db.sessions| && db.deliveries[did].session == Some(g)
    && (Usable(db.sessions[g]) && db.sessions[g].vendor.Some? && g !in w.unproven ==>
          db.sessions[g].watermark.Some?
          && !NativeDelta(db.peer, db.log, db.sessions[g].watermark.value, db.deliveries[did].position, w.budget).truncated)
  }

  ghost predicate AtSite(db: Ledger, unproven: set<nat>, site: Site) {
    match site
    case AtStart => Recovered(db)
    case AtBegun(did) => Ready(db, did)
    case AtCreate(did) => Ready(db, did) && !db.deliveries[did].acked
    case AtPrepared(t) => TurnReady(db, unproven, t)
    case AtMarked(t, n) => Marked(db, unproven, t, n)
  }

  ghost predicate AllAccounted(db: Ledger, target: nat) {
    forall k: nat :: 1 <= k <= target ==> Accounted(db, k)
  }

  predicate Quieted(db: Ledger) {
    Recovered(db) && Inflight(db).None?
  }

  /** A cancelled attempt, if it still has not run, never will. */
  ghost predicate Doomed(db: Ledger, did: nat) {
    did < |db.deliveries|
    && (db.deliveries[did].certainty.NotStarted? ==> NoOpen(db.deliveries[did]) && CancelApplies(db, did))
  }

  ghost predicate NextOk(db: Ledger, target: nat, next: Then) {
    match next
    case ThenScan => Quieted(db) && forall i :: 0 <= i < |db.deliveries| ==> db.deliveries[i].position <= target
    case ThenAck(did) => Finished(db, did) && db.deliveries[did].position == target
    case ThenRest => true
  }

  /** What holds at the counters that settle a terminal result, whoever is there and whatever became of its token. */
  ghost predicate SettleOk(db: Ledger, pc: Pc) {
    match pc
    case Materializing(did) => did < |db.deliveries| && db.deliveries[did].certainty.Terminal?
    case Responding(did, p) =>
      did < |db.deliveries| && db.deliveries[did].certainty.Terminal? && SameAnswer(p, PayloadOf(db.deliveries[did]))
    case Binding(did, k) => Answers(db, k, did) && db.deliveries[did].certainty.Terminal?
    case Advancing(target, _, next) => next.ThenAck? && AllAccounted(db, target) && NextOk(db, target, next)
    case Acking(did) => Finished(db, did) && db.deliveries[did].position <= db.offset
    case _ => false
  }

  ghost predicate View(db: Ledger, w: Past, pc: Pc) {
    match pc
    case Idle => true
    case Gate(site) => AtSite(db, w.unproven, site)
    case Sweeping(_, site) => AtSite(db, w.unproven, site)
    case Swept(site) => AtSite(db, w.unproven, site)
    case Unpaused(site) => AtSite(db, w.unproven, site)
    case Uncertain(did) => Newest(db, did) && !db.deliveries[did].certainty.NotStarted?
    case Clear => Quieted(db)
    case Scan(cursor) => Quieted(db) && NextUp(db, cursor + 1)
    case Chosen(position, retry) => Recovered(db) && Picked(db, position, retry)
    case Admitted(did) => Ready(db, did) && !db.deliveries[did].acked
    case Creating(did) => Ready(db, did) && !db.deliveries[did].acked
    case Resolved(did, g) => Ready(db, did) && !db.deliveries[did].acked && Selected(db, w, did, g)
    case Passed(t) => TurnReady(db, w.unproven, t)
    case Halting(t, n, cancel) => Marked(db, w.unproven, t, n) && (cancel ==> CancelApplies(db, t.did))
    case Cleared(t, n) => Marked(db, w.unproven, t, n)
    case Armed(t, n) => Marked(db, w.unproven, t, n)
    case Live(t, n, started) => WasCalled(db, w.turns, t) && if started then Begun(db, w.unproven, t) else Marked(db, w.unproven, t, n)
    case Naming(t, _, _) => WasCalled(db, w.turns, t) && Begun(db, w.unproven, t)
    case Ditching(_, _) => true
    case Finalizing(t, _, _) => WasCalled(db, w.turns, t) && Begun(db, w.unproven, t)
    case Noting(t, _) => Begun(db, w.unproven, t)
    case Settling(did, _) => did < |db.deliveries| && RefusalNoted(db, did) && !Unsettled(db.deliveries[did].certainty)
    case Losing(did) => RefusedRow(db, did)
    case Advancing(target, _, next) => AllAccounted(db, target) && NextOk(db, target, next)
    case Cancelling(did) => Doomed(db, did)
    case CancelAcking(did) => did < |db.deliveries| && Doomed(db, did) && Cancelled(db, db.deliveries[did].position)
    case _ => SettleOk(db, pc)
  }

  /** Before a start event. */
  predicate Unsettled(c: Certainty) {
    c.NotStarted? || c.MayHaveStarted?
  }

  // ---------------------------------------------------------------- what others can do meanwhile

  predicate Fades(m: Session, m': Session) {
    m' == m || m' == m.(state := Lost, vendor := None)
  }

  predicate AllFade(ss: seq<Session>, ss': seq<Session>) {
    |ss'| == |ss| && forall g :: 0 <= g < |ss| ==> Fades(ss[g], ss'[g])
  }

  /** A row is left alone, or a callback settled it: it had started, and now it is terminal. */
  predicate RowSettles(a: Attempt, b: Attempt) {
    || b == a
    || (!a.certainty.NotStarted? && b.certainty.Terminal?
        && b == a.(certainty := Terminal, outcome := b.outcome, terminalAt := b.terminalAt, response := b.response, acked := b.acked))
  }

  /** What may happen beside a cycle while it holds the claim: new Records, intent, authorizations, evidence, lost sessions, and callbacks
      that settle attempts, bind sessions and move the Offset. */
  ghost predicate Quiet(db: Ledger, db': Ledger, unproven: set<nat>) {
    && Grows(db, db') && |db'.deliveries| == |db.deliveries|
    && (forall i :: 0 <= i < |db.deliveries| ==> RowSettles(db.deliveries[i], db'.deliveries[i]))
    && |db'.sessions| == |db.sessions|
    && (forall g :: 0 <= g < |db.sessions| ==> Fades(db.sessions[g], db'.sessions[g]) || g in unproven)
  }

  /** More was called, and more sessions are unproven. */
  predicate Later(w: Past, w': Past) {
    (forall m :: m in w.turns ==> m in w'.turns && w'.turns[m] == w.turns[m]) && w.unproven <= w'.unproven && w'.budget == w.budget
  }

  lemma RowsStay(db: Ledger, db': Ledger, unproven: set<nat>)
    requires Quiet(db, db', unproven)
    ensures Grows(db, db') && |db'.deliveries| == |db.deliveries| && |db'.sessions| == |db.sessions| && db.offset <= db'.offset
    ensures forall i :: 0 <= i < |db.deliveries| ==> RowStays(db.deliveries[i], db'.deliveries[i])
  {
  }

  /** What of a row no callback changes. */
  predicate RowStays(a: Attempt, b: Attempt) {
    && b.position == a.position && b.session == a.session && b.markers == a.markers && (a.acked ==> b.acked)
    && (a.certainty.NotStarted? || b.certainty.NotStarted? ==> b == a)
    && (UnderWay(a) ==> UnderWay(b)) && (!Unsettled(a.certainty) ==> !Unsettled(b.certainty))
  }

  lemma ReadyStays(db: Ledger, db': Ledger, unproven: set<nat>, did: nat)
    requires Quiet(db, db', unproven) && Ready(db, did)
    ensures Ready(db', did) && db'.deliveries[did] == db.deliveries[did]
  {
    RowsStay(db, db', unproven);
    assert RowStays(db.deliveries[did], db'.deliveries[did]);
    hide Quiet, Grows, CancelApplies;
    if db.deliveries[did].acked { CancelStays(db, db', did); }
  }

  lemma ShownStays(db: Ledger, db': Ledger, shown: set<nat>, after: nat, before: nat)
    requires Grows(db, db') && AllShown(db, shown, after, before)
    ensures AllShown(db', shown, after, before)
  {
    forall k: nat | after < k < before ensures Shown(db', shown, k) {
      assert Shown(db, shown, k);
      assert At(db', k) == At(db, k);
    }
  }

  lemma FeedStays(db: Ledger, db': Ledger, unproven: set<nat>, unproven': set<nat>, t: Turn)
    requires Quiet(db, db', unproven') && unproven <= unproven' && FeedOk(db, unproven, t)
    ensures FeedOk(db', unproven', t)
  {
    hide AllShown, ForeignRedirect, RowSettles;
    assert db.log <= db'.log && (Fades(db.sessions[t.session], db'.sessions[t.session]) || t.session in unproven');
    hide Grows;
    if t.mode.Native? && AllShown(db, t.feed, t.mode.after, t.position) { ShownStays(db, db', t.feed, t.mode.after, t.position); }
    if t.mode.Bootstrap? && AllShown(db, t.feed, 0, t.position) { ShownStays(db, db', t.feed, 0, t.position); }
  }

  lemma TurnStays(db: Ledger, db': Ledger, unproven: set<nat>, unproven': set<nat>, t: Turn)
    requires Quiet(db, db', unproven') && unproven <= unproven' && TurnRow(db, unproven, t)
    ensures TurnRow(db', unproven', t)
  {
    FeedStays(db, db', unproven, unproven', t);
    RowsStay(db, db', unproven');
    assert RowStays(db.deliveries[t.did], db'.deliveries[t.did]);
    hide Quiet, FeedOk;
  }

  lemma BelowStays(log: seq<Rec>, log': seq<Rec>, position: nat)
    requires log <= log' && 1 <= position <= |log|
    ensures Below(log', position) == Below(log, position)
  {
  }

  lemma SelectedStays(db: Ledger, db': Ledger, w: Past, w': Past, did: nat, g: nat)
    requires LedgerOk(db) && Quiet(db, db', w'.unproven) && Later(w, w') && Selected(db, w, did, g)
    ensures Selected(db', w', did, g)
  {
    assert Deliverable(db, db.deliveries[did].position) by { Row(db, did); }
    hide LedgerOk;
    RowsStay(db, db', w'.unproven);
    assert RowStays(db.deliveries[did], db'.deliveries[did]);
    assert db.log <= db'.log && db'.peer == db.peer;
    assert Fades(db.sessions[g], db'.sessions[g]) || g in w'.unproven;
    hide Quiet, Grows;
    BelowStays(db.log, db'.log, db.deliveries[did].position);
    hide Below, CatchUp.Projected, Items;
  }

  lemma SiteStays(db: Ledger, db': Ledger, unproven: set<nat>, unproven': set<nat>, site: Site)
    requires Quiet(db, db', unproven') && unproven <= unproven' && AtSite(db, unproven, site)
    ensures AtSite(db', unproven', site)
  {
    match site
    case AtStart => RecoveredStays(db, db', unproven');
    case AtBegun(did) => ReadyStays(db, db', unproven', did); hide Ready, Quiet;
    case AtCreate(did) => ReadyStays(db, db', unproven', did); hide Ready, Quiet;
    case AtPrepared(t) =>
      ReadyStays(db, db', unproven', t.did);
      TurnStays(db, db', unproven, unproven', t);
      hide Ready, TurnRow, Quiet;
    case AtMarked(t, n) => MarkedStays(db, db', unproven, unproven', t, n); hide Marked, Quiet;
  }

  lemma RecoveredStays(db: Ledger, db': Ledger, unproven: set<nat>)
    requires Quiet(db, db', unproven)
    ensures Recovered(db) ==> Recovered(db')
    ensures Quieted(db) ==> Quieted(db')
  {
    RowsStay(db, db', unproven);
    if db.deliveries != [] { assert RowStays(db.deliveries[|db.deliveries| - 1], db'.deliveries[|db.deliveries| - 1]); }
    hide Quiet;
  }

  lemma AllAccountedStays(db: Ledger, db': Ledger, target: nat)
    requires Grows(db, db') && AllAccounted(db, target)
    ensures AllAccounted(db', target)
  {
    hide Grows, Accounted;
    forall k: nat | 1 <= k <= target ensures Accounted(db', k) {
      AccountedStays(db, db', k);
    }
  }

  lemma DoomedStays(db: Ledger, db': Ledger, unproven: set<nat>, did: nat)
    requires Quiet(db, db', unproven) && Doomed(db, did)
    ensures Doomed(db', did) && db'.deliveries[did].position == db.deliveries[did].position
  {
    RowsStay(db, db', unproven);
    assert RowStays(db.deliveries[did], db'.deliveries[did]);
    hide Quiet, Grows, CancelApplies;
    if CancelApplies(db, did) { CancelStays(db, db', did); }
  }

  lemma NextUpStays(db: Ledger, db': Ledger, unproven: set<nat>, k: nat)
    requires Quiet(db, db', unproven) && NextUp(db, k)
    ensures NextUp(db', k)
  {
    RowsStay(db, db', unproven);
    hide Quiet, Grows, CancelApplies;
    forall i | 0 <= i < |db'.deliveries| ensures db'.deliveries[i].position <= k {
      assert RowStays(db.deliveries[i], db'.deliveries[i]);
    }
    if Unstarted(db', k) {
      assert RowStays(db.deliveries[|db.deliveries| - 1], db'.deliveries[|db.deliveries| - 1]);
      CancelStays(db, db', |db.deliveries| - 1);
    }
  }

  lemma PickedStays(db: Ledger, db': Ledger, unproven: set<nat>, position: nat, retry: Option<nat>)
    requires Quiet(db, db', unproven) && Picked(db, position, retry)
    ensures Picked(db', position, retry)
  {
    RowsStay(db, db', unproven);
    assert db.log <= db'.log && db'.peer == db.peer;
    if NextUp(db, position) { NextUpStays(db, db', unproven, position); }
    if db.deliveries != [] { assert RowStays(db.deliveries[|db.deliveries| - 1], db'.deliveries[|db.deliveries| - 1]); }
    hide Quiet, Grows, NextUp, IsControl;
  }

  lemma MarkedStays(db: Ledger, db': Ledger, unproven: set<nat>, unproven': set<nat>, t: Turn, n: nat)
    requires Quiet(db, db', unproven') && unproven <= unproven' && Marked(db, unproven, t, n)
    ensures Marked(db', unproven', t, n) && (CancelApplies(db, t.did) ==> CancelApplies(db', t.did))
  {
    TurnStays(db, db', unproven, unproven', t);
    RowsStay(db, db', unproven');
    assert RowStays(db.deliveries[t.did], db'.deliveries[t.did]);
    hide FeedOk, CancelApplies, Grows, Quiet;
    if CancelApplies(db, t.did) { CancelStays(db, db', t.did); }
  }

  lemma BegunStays(db: Ledger, db': Ledger, unproven: set<nat>, unproven': set<nat>, t: Turn)
    requires Quiet(db, db', unproven') && unproven <= unproven' && Begun(db, unproven, t)
    ensures Begun(db', unproven', t)
  {
    TurnStays(db, db', unproven, unproven', t);
    RowsStay(db, db', unproven');
    assert RowStays(db.deliveries[t.did], db'.deliveries[t.did]);
    hide FeedOk, Quiet, TurnRow;
    assert Newest(db', t.did);
  }

  lemma CalledStays(db: Ledger, db': Ledger, w: Past, w': Past, t: Turn)
    requires Quiet(db, db', w'.unproven) && Later(w, w') && WasCalled(db, w.turns, t)
    ensures WasCalled(db', w'.turns, t)
  {
    RowsStay(db, db', w'.unproven);
    assert RowStays(db.deliveries[t.did], db'.deliveries[t.did]);
    hide Quiet;
  }

  lemma RefusedStays(db: Ledger, db': Ledger, did: nat)
    requires Grows(db, db') && RefusedRow(db, did)
    ensures RefusedRow(db', did)
  {
    assert AttemptGrows(db.deliveries[did], db'.deliveries[did]);
    RefusalStays(db, db', did);
  }

  lemma FinishedStays(db: Ledger, db': Ledger, did: nat)
    requires Grows(db, db') && Finished(db, did)
    ensures Finished(db', did) && db'.deliveries[did].position == db.deliveries[did].position
  {
    assert AttemptGrows(db.deliveries[did], db'.deliveries[did]);
    if RefusedRow(db, did) { RefusedStays(db, db', did); }
    hide RefusedRow;
  }

  /** What a settling step relies on can never be taken away, by anybody. */
  lemma SettleOkStays(db: Ledger, db': Ledger, pc: Pc)
    requires Grows(db, db') && SettleOk(db, pc)
    ensures SettleOk(db', pc)
  {
    hide Answers, AllAccounted, Finished;
    match pc
    case Materializing(did) => assert AttemptGrows(db.deliveries[did], db'.deliveries[did]);
    case Responding(did, p) => assert AttemptGrows(db.deliveries[did], db'.deliveries[did]);
    case Binding(did, k) => AnswersRow(db, k, did); AnswersStays(db, db', k, did); assert AttemptGrows(db.deliveries[did], db'.deliveries[did]);
    case Advancing(target, _, next) => FinishedStays(db, db', next.did); AllAccountedStays(db, db', target);
    case Acking(did) => FinishedStays(db, db', did);
  }

  lemma AnswersRow(db: Ledger, k: nat, did: nat)
    requires Answers(db, k, did)
    ensures did < |db.deliveries|
  {
  }

  lemma NextStays(db: Ledger, db': Ledger, unproven: set<nat>, target: nat, next: Then)
    requires Quiet(db, db', unproven) && NextOk(db, target, next)
    ensures NextOk(db', target, next)
  {
    RowsStay(db, db', unproven);
    match next
    case ThenScan =>
      RecoveredStays(db, db', unproven);
      hide Quiet, Grows, Quieted;
      forall i | 0 <= i < |db'.deliveries| ensures db'.deliveries[i].position <= target {
        assert RowStays(db.deliveries[i], db'.deliveries[i]);
      }
    case ThenAck(did) => hide Quiet, Finished; FinishedStays(db, db', did);
    case ThenRest =>
  }

  /** A quiet step takes nothing away from any cycle. */
  lemma ViewStays(db: Ledger, db': Ledger, w: Past, w': Past, pc: Pc)
    requires LedgerOk(db) && Quiet(db, db', w'.unproven) && Later(w, w') && View(db, w, pc)
    ensures View(db', w', pc)
  {
    hide LedgerOk, Grows, AtSite, TurnRow, Ready, Selected, Picked, AllAccounted, Doomed, Answers, Marked, Begun, NextOk, CancelApplies,
         Cancelled, Quiet, SettleOk, NextUp, WasCalled, RefusedRow, RefusalNoted, Recovered, Quieted, RowStays;
    var u, u' := w.unproven, w'.unproven;
    RowsStay(db, db', u');
    match pc
    case Idle =>
    case Gate(site) => SiteStays(db, db', u, u', site);
    case Sweeping(_, site) => SiteStays(db, db', u, u', site);
    case Swept(site) => SiteStays(db, db', u, u', site);
    case Unpaused(site) => SiteStays(db, db', u, u', site);
    case Uncertain(did) => RowAt(db, db', u', did);
    case Clear => RecoveredStays(db, db', u');
    case Scan(cursor) => RecoveredStays(db, db', u'); NextUpStays(db, db', u', cursor + 1);
    case Chosen(position, retry) => RecoveredStays(db, db', u'); PickedStays(db, db', u', position, retry);
    case Admitted(did) => ReadyStays(db, db', u', did);
    case Creating(did) => ReadyStays(db, db', u', did);
    case Resolved(did, g) => ReadyStays(db, db', u', did); SelectedStays(db, db', w, w', did, g);
    case Passed(t) => ReadyStays(db, db', u', t.did); TurnStays(db, db', u, u', t);
    case Halting(t, n, cancel) => MarkedStays(db, db', u, u', t, n);
    case Cleared(t, n) => MarkedStays(db, db', u, u', t, n);
    case Armed(t, n) => MarkedStays(db, db', u, u', t, n);
    case Live(t, n, started) =>
      CalledStays(db, db', w, w', t);
      if started { BegunStays(db, db', u, u', t); } else { MarkedStays(db, db', u, u', t, n); }
    case Naming(t, _, _) => CalledStays(db, db', w, w', t); BegunStays(db, db', u, u', t);
    case Ditching(_, _) =>
    case Finalizing(t, _, _) => CalledStays(db, db', w, w', t); BegunStays(db, db', u, u', t);
    case Noting(t, _) => BegunStays(db, db', u, u', t);
    case Settling(did, _) => RowAt(db, db', u', did); RefusalGrows(db, db', did);
    case Losing(did) => RefusedStays(db, db', did);
    case Advancing(target, _, next) => AllAccountedStays(db, db', target); NextStays(db, db', u', target, next);
    case Cancelling(did) => DoomedStays(db, db', u', did);
    case CancelAcking(did) => DoomedStays(db, db', u', did); CancelledGrows(db, db', db.deliveries[did].position);
    case _ => SettleOkStays(db, db', pc);
  }

  lemma RowAt(db: Ledger, db': Ledger, unproven: set<nat>, did: nat)
    requires Quiet(db, db', unproven) && did < |db.deliveries|
    ensures did < |db'.deliveries| == |db.deliveries| && RowStays(db.deliveries[did], db'.deliveries[did])
    ensures !db.deliveries[did].certainty.NotStarted? ==> !db'.deliveries[did].certainty.NotStarted?
    ensures !Unsettled(db.deliveries[did].certainty) ==> !Unsettled(db'.deliveries[did].certainty)
  {
    RowsStay(db, db', unproven);
    hide Quiet;
  }

  lemma RefusalGrows(db: Ledger, db': Ledger, did: nat)
    requires Grows(db, db') && RefusalNoted(db, did)
    ensures RefusalNoted(db', did)
  {
    RefusalStays(db, db', did);
  }

  lemma CancelledGrows(db: Ledger, db': Ledger, k: nat)
    requires Grows(db, db') && Cancelled(db, k)
    ensures Cancelled(db', k)
  {
    CancelledStays(db, db', k);
  }

  // ---------------------------------------------------------------- a cycle's own steps keep its promise

  /** What a step of the current owner establishes. */
  ghost predicate Kept(db: Ledger, w: Past, m: Move) {
    match m
    case Stays => true
    case Raises(db') => LedgerOk(db') && Grows(db, db')
    case Goes(db', pc) => LedgerOk(db') && Grows(db, db') && View(db', w, pc)
  }

  lemma RecoveredIs(db: Ledger)
    requires LedgerOk(db) && forall i :: 0 <= i < |db.deliveries| ==> !Dangling(db.deliveries[i])
    ensures Recovered(db)
  {
    hide LedgerOk;
    if db.deliveries != [] {
      Row(db, |db.deliveries| - 1);
      LastOpenIs(db.deliveries[|db.deliveries| - 1].markers);
    }
  }

  lemma RecoverKept(db: Ledger, w: Past)
    requires LedgerOk(db)
    ensures Kept(db, w, FencedIf(db, true, PromoteUnresolved(db), Gate(AtStart)))
  {
    hide LedgerOk, Grows, Recovered, PromoteUnresolved;
    PromoteOk(db);
    RecoveredIs(PromoteUnresolved(db));
  }

  lemma InspectKept(db: Ledger, w: Past, input: Input)
    requires LedgerOk(db) && Recovered(db)
    ensures Kept(db, w, Inspect(db, true, input))
  {
    hide LedgerOk, Grows, Taint, FailedBefore, RejectSelector, IsControl, NextUp;
    SelfGrows(db);
    var infl := Inflight(db);
    if infl.Some? {
      var did := infl.value;
      Row(db, did);
      hide AttemptOk;
      if input.Rebind? && RejectSelector(db, did, "delivery_failed").Ok? {
        RejectOk(db, did, "delivery_failed");
        RejectedQuieted(db, did, "delivery_failed");
      }
      DeliverableAt(db, did);
      RefusalIs(db, did);
      SessionsOnlyOk(db, Taint(db.sessions, db.deliveries[did].session));
      hide RefusalOf, RefusalNoted;
    }
  }

  lemma RefusalIs(db: Ledger, did: nat)
    ensures RefusalOf(db.evidence, did).Some? <==> RefusalNoted(db, did)
  {
    RefusalFound(db.evidence, did);
  }

  lemma {:induction false} RefusalFound(evidence: seq<Note>, did: nat)
    ensures RefusalOf(evidence, did).Some?
            <==> exists i :: 0 <= i < |evidence| && evidence[i].event.RefusalDetected? && evidence[i].delivery == Some(did)
    decreases |evidence|
  {
    if evidence != [] {
      var t := evidence[..|evidence| - 1];
      RefusalFound(t, did);
      if i :| 0 <= i < |evidence| && evidence[i].event.RefusalDetected? && evidence[i].delivery == Some(did) {
        assert i < |t| ==> t[i] == evidence[i];
      }
      if i :| 0 <= i < |t| && t[i].event.RefusalDetected? && t[i].delivery == Some(did) {
        assert evidence[i] == t[i];
      }
    }
  }

  lemma DeliverableAt(db: Ledger, did: nat)
    requires LedgerOk(db) && did < |db.deliveries|
    ensures Deliverable(db, db.deliveries[did].position) && db.deliveries[did].position <= db.offset + 1
  {
    Row(db, did);
  }

  /** Rejecting the newest attempt leaves nothing in flight. */
  lemma RejectedQuieted(db: Ledger, did: nat, code: string)
    requires LedgerOk(db) && Newest(db, did) && RejectSelector(db, did, code).Ok?
    ensures Quieted(RejectSelector(db, did, code).value)
  {
    hide LedgerOk, LastOpen;
    MarkersOf(db, did);
  }

  lemma StartKept(db: Ledger, w: Past, pc: Pc, input: Input, claim: nat)
    requires LedgerOk(db) && View(db, w, pc)
    ensures Kept(db, w, StartStep(db, pc, input, true, claim))
  {
    hide LedgerOk, Grows, Ready, Picked, PromoteUnresolved, RetryBlocked, Paused, BeginAttempt, Inspect, Inflight, ScanNext, NextUp;
    if Quieted(db) { FrontIs(db); }
    hide Quieted;
    SelfGrows(db);
    match pc
    case Idle => RecoverKept(db, w);
    case Swept(AtStart) => InspectKept(db, w, input);
    case Uncertain(did) => DecideKept(db, w, did);
    case Scan(cursor) => ScanKept(db, w, cursor);
    case Chosen(position, retry) =>
      if BeginAttempt(db, position, retry, claim).Ok? { BeginOk(db, position, retry, claim); }
    case _ =>
  }

  lemma DecideKept(db: Ledger, w: Past, did: nat)
    requires LedgerOk(db) && View(db, w, Uncertain(did))
    ensures Kept(db, w, Decide(db, did))
  {
    hide LedgerOk, Grows, Paused, RetryBlocked;
    SelfGrows(db);
  }

  lemma ScanKept(db: Ledger, w: Past, cursor: nat)
    requires LedgerOk(db) && View(db, w, Scan(cursor))
    ensures Kept(db, w, ScanNext(db, cursor))
  {
    hide LedgerOk, Grows, Accounted, AllAccounted, IsControl, CancelApplies, Recovered;
    SelfGrows(db);
    AccountedBelow(db, cursor);
    if cursor < |db.log| {
      NextAccounted(db, cursor);
    }
  }

  lemma AccountedBelow(db: Ledger, cursor: nat)
    requires LedgerOk(db) && cursor <= db.offset
    ensures AllAccounted(db, cursor)
  {
    OffsetAccounted(db);
    hide LedgerOk, Accounted;
  }

  /** With nothing in flight, the first Record past the Offset is next. */
  lemma FrontIs(db: Ledger)
    requires LedgerOk(db) && Quieted(db)
    ensures NextUp(db, db.offset + 1)
  {
    hide LedgerOk, CancelApplies;
    forall i | 0 <= i < |db.deliveries| ensures db.deliveries[i].position <= db.offset + 1 {
      DeliverableAt(db, i);
    }
    if Unstarted(db, db.offset + 1) {
      Row(db, |db.deliveries| - 1);
    }
  }

  lemma NextAccounted(db: Ledger, cursor: nat)
    requires cursor < |db.log| && AllAccounted(db, cursor)
    ensures var r := At(db, cursor + 1);
            r.author == db.peer || r.kind.Reconcile? || (IsControl(r.kind) && (Addressed(db, r) ==> cursor + 1 in db.controls))
            ==> AllAccounted(db, cursor + 1)
  {
  }

  lemma OffsetAccounted(db: Ledger)
    requires LedgerOk(db)
    ensures AllAccounted(db, db.offset) && db.offset <= |db.log|
  {
  }

  // ---------------------------------------------------------------- gates

  lemma GateKept(db: Ledger, w: Past, pc: Pc, input: Input)
    requires LedgerOk(db) && View(db, w, pc) && !(pc.Swept? && pc.site.AtStart?)
    ensures Kept(db, w, GateStep(db, pc, input, true))
  {
    hide LedgerOk, Grows, CancelApplies, TurnRow, Paused, RejectSelector, MustTake;
    SelfGrows(db);
    if pc.Gate? && input.Refuse? && pc.site.AtBegun? {
      if RejectSelector(db, pc.site.did, input.code).Ok? { RejectOk(db, pc.site.did, input.code); }
    }
    if pc.Unpaused? && (pc.site.AtPrepared? || pc.site.AtMarked?) { TurnRowIs(db, w.unproven, pc.site.turn); }
  }

  lemma TurnRowIs(db: Ledger, unproven: set<nat>, t: Turn)
    ensures TurnRow(db, unproven, t) ==> Newest(db, t.did)
  {
  }

  // ---------------------------------------------------------------- sessions

  /** What a session knows is what it has been shown: everything up to its watermark, unless the bootstrap was truncated or a
      turn bound it unproven. */
  ghost predicate SessionOk(db: Ledger, taken: seq<Turn>, unproven: set<nat>, g: nat)
    requires g < |db.sessions|
  {
    var m := db.sessions[g];
    && (m.vendor.Some? ==> !m.state.Lost? && !m.state.Fresh?)
    && (Usable(m) && m.vendor.None? ==> m.watermark.None?)
    && (m.watermark.Some? ==> m.watermark.value <= |db.log|)
    && (Proven(m) && g !in unproven ==> AllShown(db, FedTo(taken, g), 0, m.watermark.value + 1))
  }

  /** A native session whose bootstrap was complete. */
  predicate Proven(m: Session) {
    m.vendor.Some? && m.watermark.Some? && m.truncated == Some(false)
  }

  ghost predicate SessionsOk(db: Ledger, taken: seq<Turn>, unproven: set<nat>) {
    forall g :: 0 <= g < |db.sessions| ==> SessionOk(db, taken, unproven, g)
  }

  lemma {:induction false} ItemsIncrease(peer: string, log: seq<Rec>, hidden: set<nat>)
    ensures CatchUp.Increasing(Items(peer, log, hidden))
    ensures forall x :: x in Items(peer, log, hidden) ==> 1 <= x.position <= |log|
    decreases |log|
  {
    if log != [] {
      var t := log[..|log| - 1];
      ItemsIncrease(peer, t, hidden);
      var a, x := Items(peer, t, hidden), ItemAt(peer, log, |log| - 1);
      CatchUp.IncreasingAppend(a, x);
      assert a + [] == a;
      hide CatchUp.Increasing, ItemAt;
    }
  }

  lemma {:induction false} ItemsAre(peer: string, log: seq<Rec>, hidden: set<nat>, k: nat)
    requires 1 <= k <= |log| && k !in hidden
    ensures ItemAt(peer, log, k - 1) in Items(peer, log, hidden)
    decreases |log|
  {
    if k < |log| {
      var t := log[..|log| - 1];
      ItemsAre(peer, t, hidden, k);
      assert ItemAt(peer, log, k - 1) == ItemAt(peer, t, k - 1);
    }
  }

  /** An untruncated projection feeds every position in its window that is not hidden. */
  lemma FeedComplete(peer: string, log: seq<Rec>, hidden: set<nat>, b: CatchUp.Budget, after: nat, bound: nat, pins: bool)
    ensures var p := CatchUp.Projected(Items(peer, log, hidden), b, after, Some(bound), pins);
            !p.truncated ==> forall k: nat :: 1 <= k <= |log| && k !in hidden && after < k < bound ==> k in Positions(p.records)
  {
    hide CatchUp.Projected;
    var items := Items(peer, log, hidden);
    var p := CatchUp.Projected(items, b, after, Some(bound), pins);
    ItemsIncrease(peer, log, hidden);
    CatchUp.UntruncatedIsAll(items, b, after, Some(bound), pins);
    CatchUp.CandidatesIncreasing(items, after, Some(bound), pins);
    hide Items;
    if !p.truncated {
      forall k: nat | 1 <= k <= |log| && k !in hidden && after < k < bound ensures k in Positions(p.records) {
        ItemsAre(peer, log, hidden, k);
        InPositions(p.records, ItemAt(peer, log, k - 1));
      }
    }
  }

  lemma InPositions(s: seq<CatchUp.Item>, x: CatchUp.Item)
    requires x in s
    ensures x.position in Positions(s)
  {
    var i :| 0 <= i < |s| && s[i] == x;
  }

  lemma NativeFeed(db: Ledger, after: nat, position: nat, b: CatchUp.Budget)
    requires 1 <= position <= |db.log|
    ensures var p := NativeDelta(db.peer, db.log, after, position, b);
            !p.truncated ==> AllShown(db, Positions(p.records), after, position)
  {
    var log := Below(db.log, position);
    var p := NativeDelta(db.peer, db.log, after, position, b);
    FeedComplete(db.peer, log, Foreign(db.peer, log), Uncounted(b), after, position, false);
    hide CatchUp.Projected, Items, ForeignRedirect;
    forall k: nat | after < k < position && !p.truncated ensures Shown(db, Positions(p.records), k) {
      assert log[k - 1] == At(db, k);
      ForeignIs(db.peer, log, k);
      assert k in Foreign(db.peer, log) || k in Positions(p.records);
    }
  }

  lemma ForeignIs(peer: string, log: seq<Rec>, k: nat)
    requires 1 <= k <= |log|
    ensures k in Foreign(peer, log) <==> ForeignRedirect(peer, log[k - 1])
  {
  }

  lemma BootstrapFeed(db: Ledger, position: nat, b: CatchUp.Budget)
    requires 1 <= position <= |db.log|
    ensures var p := BootstrapOf(db.peer, db.log, position, b);
            !p.truncated ==> AllShown(db, Positions(p.records), 0, position)
  {
    FeedComplete(db.peer, Below(db.log, position), {}, b, 0, position, true);
    hide CatchUp.Projected, Items, ForeignRedirect;
  }

  lemma SessionRow(db: Ledger, taken: seq<Turn>, unproven: set<nat>, g: nat)
    requires SessionsOk(db, taken, unproven) && g < |db.sessions|
    ensures SessionOk(db, taken, unproven, g)
    ensures db.sessions[g].vendor.Some? && Usable(db.sessions[g]) ==> db.sessions[g].state.Active?
  {
    assert SessionOk(db, taken, unproven, g);
    hide AllShown;
  }

  lemma TurnForOk(db: Ledger, taken: seq<Turn>, w: Past, did: nat, g: nat)
    requires LedgerOk(db) && SessionsOk(db, taken, w.unproven) && Selected(db, w, did, g) && TurnFor(db, did, g, w.budget).Some?
    ensures var t := TurnFor(db, did, g, w.budget).value;
            FeedOk(db, w.unproven, t) && t.did == did && t.position == db.deliveries[did].position && t.session == g
  {
    hide LedgerOk, SessionsOk, SessionOk, AllShown, BootstrapOf, NativeDelta, LocalDelta, UnseenRedirects, Ran, Positions, IsControl;
    DeliverableAt(db, did);
    SessionRow(db, taken, w.unproven, g);
    var position := db.deliveries[did].position;
    BootstrapFeed(db, position, w.budget);
    if db.sessions[g].watermark.Some? { NativeFeed(db, db.sessions[g].watermark.value, position, w.budget); }
  }

  lemma SessionKept(db: Ledger, taken: seq<Turn>, w: Past, pc: Pc, input: Input)
    requires LedgerOk(db) && SessionsOk(db, taken, w.unproven) && View(db, w, pc)
    ensures Kept(db, w, SessionStep(db, pc, input, true, w.budget))
  {
    hide LedgerOk, SessionsOk, View;
    match pc
    case Admitted(did) => hide SessionStep, Kept; AdmittedKept(db, w, did, input);
    case Creating(did) => hide SessionStep, Kept; CreatingKept(db, w, did, input);
    case Resolved(did, g) => hide SessionStep, Kept; ResolvedKept(db, taken, w, did, g, input);
    case _ =>
  }

  lemma AdmittedKept(db: Ledger, w: Past, did: nat, input: Input)
    requires LedgerOk(db) && View(db, w, Admitted(did))
    ensures Kept(db, w, SessionStep(db, Admitted(did), input, true, w.budget))
  {
    hide LedgerOk;
    match input
    case Resume(g) => hide SessionStep, Kept; ResumeKept(db, w, did, g);
    case Refuse(code) => hide SessionStep, Kept; RefusedKept(db, w, did, code);
    case Prune(g) => hide SessionStep, Kept; SessionWriteKept(db, w, did, g, true);
    case ResumeFails(g, lost) => hide SessionStep, Kept; SessionWriteKept(db, w, did, g, lost);
    case _ => hide Grows, NoOpen, CancelApplies; SelfGrows(db);
  }

  lemma RefusedKept(db: Ledger, w: Past, did: nat, code: string)
    requires LedgerOk(db)
    ensures Kept(db, w, SessionStep(db, Admitted(did), Refuse(code), true, w.budget))
  {
    hide LedgerOk, Grows, RejectSelector;
    SelfGrows(db);
    if RejectSelector(db, did, code).Ok? { RejectOk(db, did, code); }
  }

  lemma SessionWriteKept(db: Ledger, w: Past, did: nat, g: nat, lost: bool)
    requires LedgerOk(db) && View(db, w, Admitted(did))
    ensures Kept(db, w, SessionStep(db, Admitted(did), Prune(g), true, w.budget))
    ensures Kept(db, w, SessionStep(db, Admitted(did), ResumeFails(g, lost), true, w.budget))
  {
    hide LedgerOk, Grows, NoOpen, CancelApplies;
    SelfGrows(db);
    SessionsOnlyOk(db, Tombstone(db, g).sessions);
    SessionsOnlyOk(db, LoseSession(db, g).sessions);
  }

  lemma CreatingKept(db: Ledger, w: Past, did: nat, input: Input)
    requires LedgerOk(db) && View(db, w, Creating(did))
    ensures Kept(db, w, SessionStep(db, Creating(did), input, true, w.budget))
  {
    if input.Create? {
      hide SessionStep, Kept;
      CreateKept(db, w, did, input.cli);
    } else {
      hide LedgerOk, Grows, Ready;
      SelfGrows(db);
    }
  }

  lemma ResolvedKept(db: Ledger, taken: seq<Turn>, w: Past, did: nat, g: nat, input: Input)
    requires LedgerOk(db) && SessionsOk(db, taken, w.unproven) && View(db, w, Resolved(did, g))
    ensures Kept(db, w, SessionStep(db, Resolved(did, g), input, true, w.budget))
  {
    hide LedgerOk, Grows, SessionsOk, TurnFor, NoOpen, NativeDelta, FeedOk;
    SelfGrows(db);
    if TurnFor(db, did, g, w.budget).Some? { TurnForOk(db, taken, w, did, g); }
  }

  lemma ResumeKept(db: Ledger, w: Past, did: nat, g: nat)
    requires LedgerOk(db) && Ready(db, did) && !db.deliveries[did].acked
    ensures Kept(db, w, SessionStep(db, Admitted(did), Input.Resume(g), true, w.budget))
  {
    hide LedgerOk, Grows, CancelApplies, NativeDelta, LocalDelta, LastOpen;
    SelfGrows(db);
    if Resumable(db, g, db.deliveries[did].position, w.budget) && ResumeSession(db, did, g).Ok? {
      BindSessionOk(db, did, g, ResumeSession(db, did, g).value.sessions);
    }
  }

  lemma CreateKept(db: Ledger, w: Past, did: nat, cli: bool)
    requires LedgerOk(db) && Ready(db, did) && !db.deliveries[did].acked
    ensures Kept(db, w, SessionStep(db, Creating(did), Create(cli), true, w.budget))
  {
    hide LedgerOk, Grows, CancelApplies, NativeDelta, LastOpen;
    SelfGrows(db);
    if CreateSession(db, did, cli).Ok? {
      BindSessionOk(db, did, |db.sessions|, CreateSession(db, did, cli).value.sessions);
    }
  }

  // ---------------------------------------------------------------- marker and invocation

  lemma FeedSame(db: Ledger, db': Ledger, unproven: set<nat>, t: Turn)
    requires FeedOk(db, unproven, t) && db'.log == db.log && db'.peer == db.peer && db'.sessions == db.sessions
    ensures FeedOk(db', unproven, t)
  {
    ShownSame(db, db');
  }

  lemma ShownSame(db: Ledger, db': Ledger)
    requires db'.log == db.log && db'.peer == db.peer
    ensures forall shown, k :: Shown(db', shown, k) == Shown(db, shown, k)
  {
  }

  lemma PassedKept(db: Ledger, w: Past, t: Turn, input: Input)
    requires LedgerOk(db) && View(db, w, Passed(t))
    ensures Kept(db, w, InvokeStep(db, Passed(t), input, true))
  {
    hide LedgerOk, Grows, FeedOk, CancelApplies, LastOpen;
    SelfGrows(db);
    if MarkInvocation(db, t.did).Ok? {
      MarkWrittenOk(db, t.did);
      FeedSame(db, MarkInvocation(db, t.did).value, w.unproven, t);
    }
  }

  lemma MarkedOpen(db: Ledger, unproven: set<nat>, t: Turn, n: nat)
    requires LedgerOk(db) && Marked(db, unproven, t, n)
    ensures LastOpen(db.deliveries[t.did].markers) == Some(n) && db.deliveries[t.did].outcome.None?
  {
    Row(db, t.did);
    hide LedgerOk, FeedOk, Deliverable, Answers, CancelApplies;
    LastOpenIs(db.deliveries[t.did].markers);
  }

  lemma HaltingKept(db: Ledger, w: Past, t: Turn, n: nat, cancel: bool, input: Input)
    requires LedgerOk(db) && View(db, w, Halting(t, n, cancel))
    ensures Kept(db, w, InvokeStep(db, Halting(t, n, cancel), input, true))
  {
    hide LedgerOk, Grows, FeedOk, CancelApplies, LastOpen;
    SelfGrows(db);
    MarkedOpen(db, w.unproven, t, n);
    if ResolveInvocation(db, t.did, ControlHalt).Ok? {
      ResolveOk(db, t.did, ControlHalt);
      if cancel { CancelStays(db, ResolveInvocation(db, t.did, ControlHalt).value, t.did); }
    }
  }

  lemma StartedKept(db: Ledger, w: Past, t: Turn, n: nat, started: bool, e: string)
    requires LedgerOk(db) && View(db, w, Live(t, n, started))
    ensures Kept(db, w, InvokeStep(db, Live(t, n, started), StartedEvent(e), true))
  {
    hide LedgerOk, Grows, FeedOk, LastOpen;
    SelfGrows(db);
    if !started { MarkedOpen(db, w.unproven, t, n); }
    if Transition(db, t.did, Started, StartedNote).Ok? {
      TransitionOk(db, t.did, Started, StartedNote);
      FeedSame(db, Transition(db, t.did, Started, StartedNote).value, w.unproven, t);
    }
  }

  lemma UncertainKept(db: Ledger, w: Past, t: Turn, n: nat)
    requires LedgerOk(db) && Marked(db, w.unproven, t, n)
    ensures Kept(db, w, Fenced(db, true, Transition(db, t.did, MayHaveStarted, StartUncertain), Idle))
  {
    hide LedgerOk, Grows, FeedOk, Taint, LastOpen;
    SelfGrows(db);
    MarkedOpen(db, w.unproven, t, n);
    if Transition(db, t.did, MayHaveStarted, StartUncertain).Ok? { TransitionOk(db, t.did, MayHaveStarted, StartUncertain); }
  }

  lemma LiveKept(db: Ledger, w: Past, t: Turn, n: nat, started: bool, input: Input)
    requires LedgerOk(db) && View(db, w, Live(t, n, started))
    ensures Kept(db, w, InvokeStep(db, Live(t, n, started), input, true))
  {
    hide LedgerOk, Grows, WasCalled, Marked, Begun, Transition, ResolveInvocation;
    SelfGrows(db);
    match input
    case StartedEvent(e) => StartedKept(db, w, t, n, started, e);
    case TerminalEvent(value, vendor) => if !started { UncertainKept(db, w, t, n); }
    case Prespawn(lost) =>
      if !started && ResolveInvocation(db, t.did, PrespawnFailure).Ok? { ResolveOk(db, t.did, PrespawnFailure); }
    case Vanish => if !started { UncertainKept(db, w, t, n); }
    case _ =>
  }

  lemma NamingKept(db: Ledger, w: Past, t: Turn, n: nat, e: string, input: Input)
    requires LedgerOk(db) && View(db, w, Naming(t, n, e))
    ensures Kept(db, w, InvokeStep(db, Naming(t, n, e), input, true))
  {
    hide LedgerOk, Grows, FeedOk;
    SelfGrows(db);
    BindExecutionOk(db, t.did, e);
    FeedSame(db, BindExecution(db, t.did, e).value, w.unproven, t);
  }

  lemma InvokeKept(db: Ledger, w: Past, pc: Pc, input: Input)
    requires LedgerOk(db) && View(db, w, pc)
    ensures Kept(db, w, InvokeStep(db, pc, input, true))
  {
    hide LedgerOk, View;
    match pc
    case Passed(t) => hide InvokeStep, Kept; PassedKept(db, w, t, input);
    case Halting(t, n, cancel) => hide InvokeStep, Kept; HaltingKept(db, w, t, n, cancel, input);
    case Live(t, n, started) => hide InvokeStep, Kept; LiveKept(db, w, t, n, started, input);
    case Naming(t, n, e) => hide InvokeStep, Kept; NamingKept(db, w, t, n, e, input);
    case Ditching(g, tainted) => hide InvokeStep, Kept; DitchingKept(db, w, g, tainted, input);
    case Cleared(t, n) => hide InvokeStep, Kept; ClearedKept(db, w, t, n, input);
    case _ =>
  }

  lemma ClearedKept(db: Ledger, w: Past, t: Turn, n: nat, input: Input)
    requires LedgerOk(db) && View(db, w, Cleared(t, n))
    ensures Kept(db, w, InvokeStep(db, Cleared(t, n), input, true))
  {
    SelfGrows(db);
    hide LedgerOk, Grows, Marked;
  }

  lemma DitchingKept(db: Ledger, w: Past, g: nat, tainted: bool, input: Input)
    requires LedgerOk(db)
    ensures Kept(db, w, InvokeStep(db, Ditching(g, tainted), input, true))
  {
    hide LedgerOk, Grows, Taint, LoseSession;
    SelfGrows(db);
    SessionsOnlyOk(db, if tainted then Taint(db.sessions, Some(g)) else LoseSession(db, g).sessions);
    LoseIsSessions(db, g);
  }

  lemma LoseIsSessions(db: Ledger, g: nat)
    ensures LoseSession(db, g) == db.(sessions := LoseSession(db, g).sessions)
  {
  }

  // ---------------------------------------------------------------- settlement and the Offset

  lemma SettleKept(db: Ledger, w: Past, pc: Pc, input: Input, now: real)
    requires LedgerOk(db) && View(db, w, pc)
    ensures Kept(db, w, SettleStep(db, pc, input, true, now))
  {
    hide LedgerOk, View;
    match pc
    case Finalizing(t, value, vendor) => hide SettleStep, Kept; FinalizingKept(db, w, t, value, vendor, input, now);
    case Noting(t, code) => hide SettleStep, Kept; NotingKept(db, w, t, code, input, now);
    case Settling(did, code) => hide SettleStep, Kept; SettlingKept(db, w, did, code, input, now);
    case Losing(did) => hide SettleStep, Kept; LosingKept(db, w, did, input, now);
    case Materializing(did) => hide SettleStep, Kept; MaterializingKept(db, w, did, input, now);
    case Responding(did, p) => hide SettleStep, Kept; RespondingKept(db, w, did, p, input, now);
    case Binding(did, k) => hide SettleStep, Kept; BindingKept(db, w, did, k, input, now);
    case Cancelling(did) => hide SettleStep, Kept; CancellingKept(db, w, did, input, now);
    case CancelAcking(did) => hide SettleStep, Kept; CancelAckingKept(db, w, did, input, now);
    case Acking(did) => hide SettleStep, Kept; AckingKept(db, w, did, input, now);
    case _ =>
  }

  lemma FinalizingKept(db: Ledger, w: Past, t: Turn, value: string, vendor: Option<string>,
                       input: Input, now: real)
    requires LedgerOk(db) && View(db, w, Finalizing(t, value, vendor))
    ensures Kept(db, w, SettleStep(db, Finalizing(t, value, vendor), input, true, now))
  {
    hide LedgerOk, Finalized, View;
    FinalizedKept(db, w, t.did, value, vendor, Some(ProvenanceOf(t)), now);
  }

  lemma SettlingKept(db: Ledger, w: Past, did: nat, code: string, input: Input, now: real)
    requires LedgerOk(db) && View(db, w, Pc.Settling(did, code))
    ensures Kept(db, w, SettleStep(db, Pc.Settling(did, code), input, true, now))
  {
    hide LedgerOk, Grows, RefusalNoted;
    SelfGrows(db);
    RefusalSettled(db, did, code);
    hide SettleRefusal;
  }

  lemma RefusalSettled(db: Ledger, did: nat, code: string)
    requires LedgerOk(db) && did < |db.deliveries| && RefusalNoted(db, did) && !Unsettled(db.deliveries[did].certainty)
    ensures SettleRefusal(db, did, code).Ok?
    ensures var db' := SettleRefusal(db, did, code).value; LedgerOk(db') && Grows(db, db') && RefusedRow(db', did)
  {
    hide LedgerOk, Grows, RefusalNoted;
    SelfGrows(db);
    if db.deliveries[did].certainty.Started? {
      SettleRefusalOk(db, did, code);
    } else {
      TerminalSettled(db, did);
    }
    RefusalGrows(db, SettleRefusal(db, did, code).value, did);
  }

  lemma TerminalSettled(db: Ledger, did: nat)
    requires LedgerOk(db) && did < |db.deliveries| && db.deliveries[did].certainty.Terminal?
    ensures db.deliveries[did].outcome.Some?
  {
    Row(db, did);
  }

  lemma MaterializingKept(db: Ledger, w: Past, did: nat, input: Input, now: real)
    requires LedgerOk(db) && View(db, w, Materializing(did))
    ensures Kept(db, w, SettleStep(db, Materializing(did), input, true, now))
  {
    hide LedgerOk, Grows;
    SelfGrows(db);
  }

  lemma RespondingKept(db: Ledger, w: Past, did: nat, p: Payload, input: Input, now: real)
    requires LedgerOk(db) && View(db, w, Responding(did, p))
    ensures Kept(db, w, SettleStep(db, Responding(did, p), input, true, now))
  {
    hide LedgerOk, Grows, AppendResponse, Answers, Occupied, Carries;
    SelfGrows(db);
    if input.Json? { AppendResponseOk(db, did, p, input.json, input.tokens); }
  }

  lemma AckingKept(db: Ledger, w: Past, did: nat, input: Input, now: real)
    requires LedgerOk(db) && View(db, w, Acking(did))
    ensures Kept(db, w, SettleStep(db, Acking(did), input, true, now))
  {
    AckedOk(db, did);
    hide LedgerOk, Grows, RefusedRow;
  }

  lemma FinalizedKept(db: Ledger, w: Past, did: nat, value: string, vendor: Option<string>,
                      p: Option<Provenance>, now: real)
    requires LedgerOk(db)
    ensures Kept(db, w, Finalized(db, true, did, value, vendor, p, now))
  {
    SelfGrows(db);
    hide LedgerOk, Grows, CommitNative;
    if FinalizeTerminal(db, did, value, vendor, p, now).Ok? {
      FinalizeOk(db, did, value, vendor, p, now);
    }
  }

  lemma NotingKept(db: Ledger, w: Past, t: Turn, code: string, input: Input, now: real)
    requires LedgerOk(db) && View(db, w, Noting(t, code))
    ensures Kept(db, w, SettleStep(db, Noting(t, code), input, true, now))
  {
    NotedRefusal(db, t.did, code);
    hide LedgerOk, Grows, FeedOk, RefusalNoted;
    SelfGrows(db);
    NoteOk(db, Note(RefusalDetected(code), Some(t.did)), db.sessions);
  }

  lemma NotedRefusal(db: Ledger, did: nat, code: string)
    ensures RefusalNoted(NoteRefusal(db, did, code), did)
  {
    var db' := NoteRefusal(db, did, code);
    assert db'.evidence[|db.evidence|] == Note(RefusalDetected(code), Some(did));
  }

  /** The position of a delivery that is about to be settled is accounted for, with everything before it. */
  lemma SettledTarget(db: Ledger, did: nat)
    requires LedgerOk(db) && did < |db.deliveries|
    requires SettledAt(db, did, db.deliveries[did].position)
    ensures AllAccounted(db, db.deliveries[did].position)
  {
    OffsetAccounted(db);
    DeliverableAt(db, did);
    hide LedgerOk, SettledAt;
    forall k: nat | 1 <= k <= db.deliveries[did].position ensures Accounted(db, k) {
    }
  }

  lemma LosingKept(db: Ledger, w: Past, did: nat, input: Input, now: real)
    requires LedgerOk(db) && View(db, w, Losing(did))
    ensures Kept(db, w, SettleStep(db, Losing(did), input, true, now))
  {
    hide LedgerOk, Grows, AllAccounted, LoseSession;
    var a := db.deliveries[did];
    var g := if a.session.Some? then a.session.value else 0;
    SelfGrows(db);
    LoseIsSessions(db, g);
    SessionsOnlyOk(db, LoseSession(db, g).sessions);
    SettledTarget(db, did);
    SettledTarget(LoseSession(db, g), did);
  }

  lemma BindingKept(db: Ledger, w: Past, did: nat, k: nat, input: Input, now: real)
    requires LedgerOk(db) && View(db, w, Binding(did, k))
    ensures Kept(db, w, SettleStep(db, Binding(did, k), input, true, now))
  {
    hide LedgerOk, Grows, AllAccounted, OwnResponse;
    BindResponseOk(db, did, k);
    SettledTarget(BindResponse(db, did, k).value, did);
  }

  lemma CancellingKept(db: Ledger, w: Past, did: nat, input: Input, now: real)
    requires LedgerOk(db) && View(db, w, Cancelling(did))
    ensures Kept(db, w, SettleStep(db, Cancelling(did), input, true, now))
  {
    hide LedgerOk, Grows, CancelApplies, NoOpen;
    var db' := NoteCancelled(db, did, db.deliveries[did].position);
    NoteCancelledOk(db, did, db.deliveries[did].position);
    if CancelApplies(db, did) { CancelStays(db, db', did); }
  }

  lemma CancelAckingKept(db: Ledger, w: Past, did: nat, input: Input, now: real)
    requires LedgerOk(db) && View(db, w, CancelAcking(did))
    ensures Kept(db, w, SettleStep(db, CancelAcking(did), input, true, now))
  {
    hide LedgerOk, Grows, CancelApplies, NoOpen, AllAccounted, Cancelled;
    AckCancelledOk(db, did);
    var db' := AckCancelled(db, did).value;
    CancelledSame(db, db', db.deliveries[did].position);
    SettledTarget(db', did);
  }

  lemma CancelledSame(db: Ledger, db': Ledger, k: nat)
    requires db'.evidence == db.evidence
    ensures Cancelled(db', k) == Cancelled(db, k)
  {
  }

  lemma OffsetKept(db: Ledger, w: Past, pc: Pc, input: Input)
    requires LedgerOk(db) && View(db, w, pc)
    ensures Kept(db, w, OffsetStep(db, pc, input, true))
  {
    hide LedgerOk, Grows, Accounted;
    SelfGrows(db);
    if pc.Advancing? && pc.seen.Some? && AdvanceOffset(db, pc.target, pc.seen.value).Ok? {
      AdvanceOk(db, pc.target, pc.seen.value);
    }
  }

  lemma MoveKept(db: Ledger, taken: seq<Turn>, w: Past, pc: Pc, input: Input, claim: nat, now: real)
    requires LedgerOk(db) && SessionsOk(db, taken, w.unproven) && View(db, w, pc)
    ensures Kept(db, w, MoveOf(db, pc, input, true, claim, now, w.budget))
  {
    hide LedgerOk, SessionsOk, View, Grows, StartStep, GateStep, SessionStep, InvokeStep, SettleStep, OffsetStep;
    SelfGrows(db);
    StartKept(db, w, pc, input, claim);
    if !(pc.Swept? && pc.site.AtStart?) { GateKept(db, w, pc, input); }
    SessionKept(db, taken, w, pc, input);
    InvokeKept(db, w, pc, input);
    SettleKept(db, w, pc, input, now);
    OffsetKept(db, w, pc, input);
  }

  /** Without a current token nothing is written (a late terminal result leaves evidence), and what is read leads where it would
      lead the current owner, or out of the cycle. */
  predicate Powerless(db: Ledger, m: Move, current: Move) {
    (m.Goes? ==> m.db == db && (m == current || m.pc.Idle?))
    && (m.Raises? ==> m.db == db
                      || (|m.db.evidence| == |db.evidence| + 1 && m.db.evidence[|db.evidence|].event.StaleTerminal?
                          && m.db == db.(evidence := db.evidence + [m.db.evidence[|db.evidence|]])))
  }

  lemma StaleStart(db: Ledger, pc: Pc, input: Input, claim: nat)
    ensures Powerless(db, StartStep(db, pc, input, false, claim), StartStep(db, pc, input, true, claim))
  {
    hide PromoteUnresolved, Paused, RetryBlocked, BeginAttempt, RejectSelector, Taint, RefusalOf, FailedBefore, IsControl;
  }

  lemma StaleGate(db: Ledger, pc: Pc, input: Input)
    ensures Powerless(db, GateStep(db, pc, input, false), GateStep(db, pc, input, true))
  {
    hide Paused, RejectSelector, MustTake, CancelApplies;
  }

  lemma StaleSession(db: Ledger, pc: Pc, input: Input, b: CatchUp.Budget)
    ensures Powerless(db, SessionStep(db, pc, input, false, b), SessionStep(db, pc, input, true, b))
  {
    hide Resumable, TurnFor, CreateSession, ResumeSession, RejectSelector, LoseSession, Tombstone;
  }

  lemma StaleInvoke(db: Ledger, pc: Pc, input: Input)
    ensures Powerless(db, InvokeStep(db, pc, input, false), InvokeStep(db, pc, input, true))
  {
    hide MarkInvocation, ResolveInvocation, Transition, LoseSession, Taint;
  }

  lemma StaleSettle(db: Ledger, pc: Pc, input: Input, now: real)
    ensures Powerless(db, SettleStep(db, pc, input, false, now), SettleStep(db, pc, input, true, now))
  {
    hide FinalizeTerminal, AppendResponse, BindResponse, NoteCancelled, LoseSession;
  }

  lemma StaleMove(db: Ledger, pc: Pc, input: Input, claim: nat, now: real, b: CatchUp.Budget)
    ensures Powerless(db, MoveOf(db, pc, input, false, claim, now, b), MoveOf(db, pc, input, true, claim, now, b))
  {
    hide StartStep, GateStep, SessionStep, InvokeStep, SettleStep;
    StaleStart(db, pc, input, claim);
    StaleGate(db, pc, input);
    StaleSession(db, pc, input, b);
    StaleInvoke(db, pc, input);
    StaleSettle(db, pc, input, now);
    hide AdvanceOffset;
  }
}
