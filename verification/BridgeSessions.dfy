/**
 Native continuity: what a session's watermark claims, the session has been shown.
 */
module BridgeSessions {
  import opened Wrappers
  import opened BridgeLedger
  import opened BridgeContext
  import opened BridgeInvariant
  import opened BridgeMachine
  import opened BridgeSafety
  import CatchUp

  // ---------------------------------------------------------------- steps that claim nothing new

  /** Nothing, lost, resumed or tombstoned: no claim about context is added. */
  predicate Tamer(m: Session, m': Session) {
    m' == m || m' == m.(state := Lost, vendor := None) || (Usable(m) && m' == m.(state := Active)) || m' == m.(state := Tombstoned)
  }

  predicate Newborn(m: Session) {
    m.vendor.None? && m.watermark.None? && !m.state.Lost?
  }

  predicate Tamed(ss: seq<Session>, ss': seq<Session>) {
    |ss| <= |ss'| && (forall g :: 0 <= g < |ss| ==> Tamer(ss[g], ss'[g])) && (forall g :: |ss| <= g < |ss'| ==> Newborn(ss'[g]))
  }

  predicate MoveTamed(db: Ledger, m: Move) {
    !m.Stays? ==> Tamed(db.sessions, m.db.sessions)
  }

  lemma SessionStays(db: Ledger, db': Ledger, taken: seq<Turn>, taken': seq<Turn>, unproven: set<nat>, unproven': set<nat>, g: nat)
    requires Grows(db, db') && g < |db.sessions| && g < |db'.sessions| && SessionOk(db, taken, unproven, g)
    requires Tamer(db.sessions[g], db'.sessions[g]) && FedTo(taken, g) <= FedTo(taken', g) && unproven <= unproven'
    ensures SessionOk(db', taken', unproven', g)
  {
    assert db.log <= db'.log;
    hide Grows, FedTo;
    var m := db.sessions[g];
    if Proven(m) && g !in unproven {
      ShownMore(db, db', FedTo(taken, g), FedTo(taken', g), m.watermark.value + 1) by {
        assert Grows(db, db');
      }
    }
    hide AllShown;
  }

  lemma ShownMore(db: Ledger, db': Ledger, shown: set<nat>, shown': set<nat>, before: nat)
    requires Grows(db, db') && shown <= shown' && AllShown(db, shown, 0, before)
    ensures AllShown(db', shown', 0, before)
  {
    ShownStays(db, db', shown, 0, before);
    hide Grows, ForeignRedirect;
    forall k: nat | 0 < k < before ensures Shown(db', shown', k) {
      assert Shown(db', shown, k);
    }
  }

  /** What was consumed stays consumed. */
  lemma FedMore(taken: seq<Turn>, more: seq<Turn>)
    ensures forall g :: FedTo(taken, g) <= FedTo(taken + more, g)
  {
    forall g ensures FedTo(taken, g) <= FedTo(taken + more, g) {
      forall k | k in FedTo(taken, g) ensures k in FedTo(taken + more, g) {
        var i :| 0 <= i < |taken| && taken[i].session == g && k in taken[i].feed + {taken[i].position};
        assert (taken + more)[i] == taken[i];
      }
    }
  }

  predicate HasBeenFed(taken: seq<Turn>, t: Turn) {
    t.feed <= FedTo(taken, t.session) && t.position in FedTo(taken, t.session)
  }

  lemma FedLast(taken: seq<Turn>, t: Turn)
    ensures HasBeenFed(taken + [t], t)
  {
    var all := taken + [t];
    forall k | k in t.feed + {t.position} ensures k in FedTo(all, t.session) {
      var i := |taken|;
      assert 0 <= i < |all| && all[i].session == t.session && k in all[i].feed + {all[i].position};
    }
  }

  lemma SessionsStay(db: Ledger, db': Ledger, taken: seq<Turn>, unproven: set<nat>, unproven': set<nat>)
    requires Grows(db, db') && SessionsOk(db, taken, unproven) && Tamed(db.sessions, db'.sessions) && unproven <= unproven'
    ensures SessionsOk(db', taken, unproven')
  {
    forall g: nat | g < |db'.sessions| ensures SessionOk(db', taken, unproven', g) {
      if g < |db.sessions| {
        assert SessionOk(db, taken, unproven, g);
        hide SessionOk, Grows;
        SessionStays(db, db', taken, taken, unproven, unproven', g);
      } else {
        assert Newborn(db'.sessions[g]);
      }
    }
  }

  lemma TaintTamed(ss: seq<Session>, g: Option<nat>)
    ensures AllFade(ss, Taint(ss, g)) && Tamed(ss, Taint(ss, g))
  {
  }

  lemma FadeTrans(a: seq<Session>, b: seq<Session>, c: seq<Session>)
    requires AllFade(a, b) && AllFade(b, c)
    ensures AllFade(a, c)
  {
    forall g | 0 <= g < |a| ensures Fades(a[g], c[g]) {
      assert Fades(a[g], b[g]) && Fades(b[g], c[g]);
    }
  }

  lemma {:induction false} PromoteFades(db: Ledger, n: nat)
    requires n <= |db.deliveries|
    ensures AllFade(db.sessions, PromoteFirst(db, n).sessions)
    decreases n
  {
    hide AllFade, Taint;
    if n > 0 {
      var prev := PromoteFirst(db, n - 1);
      PromoteFades(db, n - 1);
      TaintTamed(prev.sessions, prev.deliveries[n - 1].session);
      SameFades(prev.sessions);
      FadeTrans(db.sessions, prev.sessions, PromoteFirst(db, n).sessions);
    } else {
      SameFades(db.sessions);
    }
  }

  lemma SameFades(ss: seq<Session>)
    ensures AllFade(ss, ss) && Tamed(ss, ss)
  {
  }

  lemma FadeIsTame(ss: seq<Session>, ss': seq<Session>)
    requires AllFade(ss, ss')
    ensures Tamed(ss, ss')
  {
    forall g | 0 <= g < |ss| ensures Tamer(ss[g], ss'[g]) {
      assert Fades(ss[g], ss'[g]);
    }
  }

  lemma SessionWritesTamed(db: Ledger, did: nat, g: nat, cli: bool)
    ensures Tamed(db.sessions, LoseSession(db, g).sessions) && Tamed(db.sessions, Tombstone(db, g).sessions)
    ensures g < |db.sessions| && Usable(db.sessions[g]) && ResumeSession(db, did, g).Ok?
            ==> Tamed(db.sessions, ResumeSession(db, did, g).value.sessions)
    ensures CreateSession(db, did, cli).Ok? ==> Tamed(db.sessions, CreateSession(db, did, cli).value.sessions)
  {
    hide BindSession;
    BindKeepsSessions(db, did, g);
    BindKeepsSessions(db, did, |db.sessions|);
  }

  lemma BindKeepsSessions(db: Ledger, did: nat, g: nat)
    ensures BindSession(db, did, g).Ok? ==> BindSession(db, did, g).value.sessions == db.sessions
  {
  }

  lemma InspectTamed(db: Ledger, ok: bool, input: Input)
    ensures MoveTamed(db, Inspect(db, ok, input))
  {
    hide Paused, RetryBlocked, RejectSelector, Taint, RefusalOf, FailedBefore, Tamed;
    SameFades(db.sessions);
    RejectKeepsSessions(db);
    if Inflight(db).Some? { TaintTamed(db.sessions, db.deliveries[Inflight(db).value].session); }
  }

  lemma StartTamed(db: Ledger, pc: Pc, input: Input, ok: bool, claim: nat)
    ensures MoveTamed(db, StartStep(db, pc, input, ok, claim))
  {
    hide PromoteUnresolved, Paused, BeginAttempt, RetryBlocked, IsControl, Tamed, Inspect;
    SameFades(db.sessions);
    match pc
    case Idle =>
      PromoteFades(db, |db.deliveries|);
      PromoteIs(db);
      FadeIsTame(db.sessions, PromoteUnresolved(db).sessions);
    case Swept(AtStart) => InspectTamed(db, ok, input);
    case Chosen(_, _) => BeginKeepsSessions(db, pc, claim);
    case _ =>
  }

  lemma BeginKeepsSessions(db: Ledger, pc: Pc, claim: nat)
    ensures pc.Chosen? && BeginAttempt(db, pc.position, pc.retry, claim).Ok?
            ==> BeginAttempt(db, pc.position, pc.retry, claim).value.0.sessions == db.sessions
  {
  }

  lemma RejectKeepsSessions(db: Ledger)
    ensures forall did: nat, code :: RejectSelector(db, did, code).Ok? ==> RejectSelector(db, did, code).value.sessions == db.sessions
  {
  }

  lemma GateTamed(db: Ledger, pc: Pc, input: Input, ok: bool)
    ensures MoveTamed(db, GateStep(db, pc, input, ok))
  {
    hide Paused, RejectSelector, MustTake, CancelApplies, Tamed;
    SameFades(db.sessions);
    RejectKeepsSessions(db);
  }

  lemma SessionTamed(db: Ledger, pc: Pc, input: Input, ok: bool, b: CatchUp.Budget)
    ensures MoveTamed(db, SessionStep(db, pc, input, ok, b))
  {
    hide TurnFor, CreateSession, ResumeSession, RejectSelector, LoseSession, Tombstone, Tamed, NativeDelta, LocalDelta;
    SameFades(db.sessions);
    RejectKeepsSessions(db);
    if pc.Admitted? || pc.Creating? {
      SessionWritesTamed(db, pc.did, if input.Prune? || input.Resume? || input.ResumeFails? then input.session else 0,
                         if input.Create? then input.cli else false);
    }
  }

  lemma InvokeTamed(db: Ledger, pc: Pc, input: Input, ok: bool)
    ensures MoveTamed(db, InvokeStep(db, pc, input, ok))
  {
    hide LoseSession, Taint, Tamed, LastOpen;
    SameFades(db.sessions);
    if pc.Ditching? {
      TaintTamed(db.sessions, Some(pc.session));
      SessionWritesTamed(db, 0, pc.session, false);
    }
    if pc.Live? && pc.turn.did < |db.deliveries| { TaintTamed(db.sessions, db.deliveries[pc.turn.did].session); }
  }

  lemma SettleTamed(db: Ledger, pc: Pc, input: Input, ok: bool, now: real)
    requires !pc.Finalizing?
    ensures MoveTamed(db, SettleStep(db, pc, input, ok, now))
  {
    hide LoseSession, Tamed, AppendResponse;
    AppendKeepsSessions(db, pc, input);
    SameFades(db.sessions);
    if pc.Losing? && pc.did < |db.deliveries| && db.deliveries[pc.did].session.Some? {
      SessionWritesTamed(db, 0, db.deliveries[pc.did].session.value, false);
    }
  }

  lemma AppendKeepsSessions(db: Ledger, pc: Pc, input: Input)
    ensures pc.Responding? && input.Json? && AppendResponse(db, pc.did, pc.payload, input.json, input.tokens).Ok? ==>
              var db' := AppendResponse(db, pc.did, pc.payload, input.json, input.tokens).value.0; db' == db.(log := db'.log)
  {
  }

  lemma MovesTamed(db: Ledger, pc: Pc, input: Input, ok: bool, claim: nat, now: real, b: CatchUp.Budget)
    requires !pc.Finalizing?
    ensures MoveTamed(db, MoveOf(db, pc, input, ok, claim, now, b))
  {
    hide StartStep, GateStep, SessionStep, InvokeStep, SettleStep, Tamed;
    SameFades(db.sessions);
    StartTamed(db, pc, input, ok, claim);
    GateTamed(db, pc, input, ok);
    SessionTamed(db, pc, input, ok, b);
    InvokeTamed(db, pc, input, ok);
    SettleTamed(db, pc, input, ok, now);
  }

  // ---------------------------------------------------------------- the terminal turn

  lemma CommitKeepsOthers(ss: seq<Session>, g: Option<nat>, position: nat, vendor: Option<string>, p: Option<Provenance>, h: nat)
    requires h < |ss| && g != Some(h)
    ensures |CommitNative(ss, g, position, vendor, p)| == |ss| && CommitNative(ss, g, position, vendor, p)[h] == ss[h]
  {
  }

  /** A terminal turn may move the watermark: a native turn fed the gap, a complete bootstrap fed everything, and any other
      binding turn is recorded as unproven. */
  lemma CommitOk(db: Ledger, db': Ledger, taken: seq<Turn>, taken': seq<Turn>, unproven: set<nat>, did: nat, vendor: Option<string>,
                 turn: Option<Turn>, g: nat)
    requires SessionsOk(db, taken, unproven) && did < |db.deliveries| && db'.log == db.log && db'.peer == db.peer
    requires !db.deliveries[did].certainty.Terminal? && 1 <= db.deliveries[did].position <= |db.log|
    requires db'.sessions == CommitNative(db.sessions, db.deliveries[did].session, db.deliveries[did].position, vendor,
                                          if turn.Some? then Some(ProvenanceOf(turn.value)) else None)
    requires turn.Some? ==> FeedOk(db, unproven, turn.value) && HasBeenFed(taken', turn.value)
                            && db.deliveries[did].session == Some(turn.value.session) && db.deliveries[did].position == turn.value.position
    requires g < |db.sessions| && db.deliveries[did].session == Some(g) && FedTo(taken, g) <= FedTo(taken', g)
    ensures |db'.sessions| == |db.sessions| && SessionOk(db', taken', unproven + Unproven(db, did, vendor, turn), g)
  {
    hide HasBeenFed, FedTo, ForeignRedirect;
    SessionRow(db, taken, unproven, g);
    ShownSame(db, db');
    hide SessionsOk;
    var m := db.sessions[g];
    if Usable(m) && g !in unproven {
      if Proven(m) {
        ShownMore(db, db, FedTo(taken, g), FedTo(taken', g), m.watermark.value + 1) by { SelfGrows(db); }
        if turn.Some? && turn.value.mode.Native? { Joined(db, taken', turn.value, m.watermark.value); }
      }
      if turn.Some? && turn.value.mode.Bootstrap? && !turn.value.truncated { Bootstrapped(db, taken', turn.value); }
    }
    if g !in unproven && Proven(m) && !Usable(m) { ShownMore(db, db, FedTo(taken, g), FedTo(taken', g), m.watermark.value + 1) by { SelfGrows(db); } }
    hide Shown;
    assert AllShownIn(db, db');
  }

  ghost predicate AllShownIn(db: Ledger, db': Ledger) {
    forall shown, after, before :: AllShown(db, shown, after, before) ==> AllShown(db', shown, after, before)
  }

  lemma Joined(db: Ledger, taken: seq<Turn>, t: Turn, after: nat)
    requires HasBeenFed(taken, t) && 0 < t.position <= |db.log|
    requires AllShown(db, FedTo(taken, t.session), 0, after + 1) && AllShown(db, t.feed, after, t.position)
    ensures AllShown(db, FedTo(taken, t.session), 0, (if after > t.position then after else t.position) + 1)
  {
    hide FedTo;
    var bound := (if after > t.position then after else t.position) + 1;
    forall k: nat | 0 < k < bound ensures Shown(db, FedTo(taken, t.session), k) {
      assert k <= after ==> Shown(db, FedTo(taken, t.session), k);
      assert after < k < t.position ==> Shown(db, t.feed, k);
    }
  }

  lemma Bootstrapped(db: Ledger, taken: seq<Turn>, t: Turn)
    requires HasBeenFed(taken, t) && 0 < t.position <= |db.log| && AllShown(db, t.feed, 0, t.position)
    ensures AllShown(db, FedTo(taken, t.session), 0, t.position + 1)
  {
    hide FedTo;
    forall k: nat | 0 < k < t.position + 1 ensures Shown(db, FedTo(taken, t.session), k) {
      assert k < t.position ==> Shown(db, t.feed, k);
    }
  }
}
