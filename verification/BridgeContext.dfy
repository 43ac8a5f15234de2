/**
 What a turn shows its session: the bounded bootstrap of a fresh session, the all-or-nothing delta of a native one, and the
 redirects (or the intervening history) a local one has not seen.
 */
module BridgeContext {
  import opened Wrappers
  import opened BridgeLedger
  import CatchUp

  /** What is injected: a bootstrap, a native delta, a local session's delta without its own answers, or the redirects above the last run
      that no steer has delivered. */
  datatype Mode = Bootstrap | Native(after: nat) | Delta(after: nat, own: set<nat>) | Redirects(last: nat, steered: set<nat>)

  predicate Local(m: Mode) {
    m.Delta? || m.Redirects?
  }

  /** One delivery turn: the attempt, its Record, the session it runs in, and the positions injected before the Record. */
  datatype Turn = Turn(did: nat, position: nat, session: nat, feed: set<nat>, mode: Mode, truncated: bool)

  /** One invocation marker: the n-th of an attempt. */
  datatype Mark = Mark(did: nat, n: nat)

  /** A redirect meant for other peers only: the one kind of Record native continuity leaves out. */
  predicate ForeignRedirect(peer: string, r: Rec) {
    r.kind.Redirect? && !Targeted(peer, r)
  }

  /** The pins of a bootstrap: each redirect that names the peer. */
  predicate Pinned(peer: string, r: Rec) {
    r.kind.Redirect? && r.author != peer && Targeted(peer, r)
  }

  function ItemAt(peer: string, log: seq<Rec>, i: nat): CatchUp.Item
    requires i < |log|
  {
    CatchUp.Item(i + 1, log[i].json, log[i].tokens, Pinned(peer, log[i]))
  }

  /** The Records as the projection reads them, leaving out the positions in `hidden`. */
  function Items(peer: string, log: seq<Rec>, hidden: set<nat>): seq<CatchUp.Item> {
    if log == [] then []
    else
      Items(peer, log[..|log| - 1], hidden)
      + (if |log| in hidden then [] else [ItemAt(peer, log, |log| - 1)])
  }

  function Foreign(peer: string, log: seq<Rec>): set<nat> {
    set i | 0 <= i < |log| && ForeignRedirect(peer, log[i]) :: i + 1
  }

  function Positions(s: seq<CatchUp.Item>): set<nat> {
    set i | 0 <= i < |s| :: s[i].position
  }

  /** The budget of a watermark delta has no Record limit. */
  function Uncounted(b: CatchUp.Budget): CatchUp.Budget {
    b.(maxRecords := None)
  }

  /** The log strictly below a position: never changed by later appends. */
  function Below(log: seq<Rec>, position: nat): seq<Rec> {
    if 1 <= position <= |log| then log[..position - 1] else log
  }

  function NativeDelta(peer: string, log: seq<Rec>, after: nat, position: nat, b: CatchUp.Budget): CatchUp.Projection {
    var before := Below(log, position);
    CatchUp.Projected(Items(peer, before, Foreign(peer, before)), Uncounted(b), after, Some(position), false)
  }

  function BootstrapOf(peer: string, log: seq<Rec>, position: nat, b: CatchUp.Budget): CatchUp.Projection {
    CatchUp.Projected(Items(peer, Below(log, position), {}), b, 0, Some(position), true)
  }

  // ---------------------------------------------------------------- local sessions

  /** The newest Record a terminal turn of the session was about. */
  function LocalSeen(ds: seq<Attempt>, g: nat): Option<nat> {
    if ds == [] then None
    else
      var before := LocalSeen(ds[..|ds| - 1], g);
      var d := ds[|ds| - 1];
      if d.session == Some(g) && d.certainty.Terminal? && (before.None? || before.value < d.position)
      then Some(d.position) else before
  }

  predicate OthersRan(ds: seq<Attempt>, g: nat, after: nat, position: nat) {
    exists i :: 0 <= i < |ds| && ds[i].session.Some? && ds[i].session != Some(g) && after < ds[i].position < position
                && !ds[i].certainty.NotStarted?
  }

  /** What the session wrote itself need not be shown to it. */
  function OwnAnswers(ds: seq<Attempt>, g: nat): set<nat> {
    set i | 0 <= i < |ds| && ds[i].session == Some(g) && ds[i].certainty.Terminal? && ds[i].response.Some? :: ds[i].response.value
  }

  function DeltaOf(peer: string, log: seq<Rec>, after: nat, own: set<nat>, position: nat, b: CatchUp.Budget): CatchUp.Projection {
    var before := Below(log, position);
    CatchUp.Projected(Items(peer, before, Foreign(peer, before) + own), Uncounted(b), after, Some(position), false)
  }

  function LocalDelta(db: Ledger, g: nat, position: nat, b: CatchUp.Budget): Option<CatchUp.Projection> {
    var after := LocalSeen(db.deliveries, g);
    if after.None? || !OthersRan(db.deliveries, g, after.value, position) then None
    else Some(DeltaOf(db.peer, db.log, after.value, OwnAnswers(db.deliveries, g), position, b))
  }

  function LastRun(ds: seq<Attempt>): nat {
    if ds == [] then 0
    else
      var before := LastRun(ds[..|ds| - 1]);
      var d := ds[|ds| - 1];
      if !d.certainty.NotStarted? && before < d.position then d.position else before
  }

  predicate Steered(db: Ledger, k: nat) {
    k in db.controls && db.controls[k].outcome == Some(ControlOutcome.Done)
  }

  function AllSteered(db: Ledger): set<nat> {
    set k | k in db.controls && Steered(db, k)
  }

  /** Everything but the redirects for the peer above `last` that no steer has delivered. */
  function Seen(peer: string, log: seq<Rec>, last: nat, steered: set<nat>): set<nat> {
    set i | 0 <= i < |log| && (i + 1 <= last || !Pinned(peer, log[i]) || i + 1 in steered) :: i + 1
  }

  function RedirectsOf(peer: string, log: seq<Rec>, last: nat, steered: set<nat>, position: nat, b: CatchUp.Budget): CatchUp.Projection {
    var before := Below(log, position);
    CatchUp.Projected(Items(peer, before, Seen(peer, before, last, steered)), b, 0, Some(position), false)
  }

  function UnseenRedirects(db: Ledger, position: nat, b: CatchUp.Budget): CatchUp.Projection {
    RedirectsOf(db.peer, db.log, LastRun(db.deliveries), AllSteered(db), position, b)
  }

  /** What a turn of that mode is given for the Record at `position`, as read from the log below it. */
  function Projecting(peer: string, log: seq<Rec>, m: Mode, position: nat, b: CatchUp.Budget): CatchUp.Projection {
    match m
    case Bootstrap => BootstrapOf(peer, log, position, b)
    case Native(after) => NativeDelta(peer, log, after, position, b)
    case Delta(after, own) => DeltaOf(peer, log, after, own, position, b)
    case Redirects(last, steered) => RedirectsOf(peer, log, last, steered, position, b)
  }

  predicate Ran(ds: seq<Attempt>, g: nat) {
    exists i :: 0 <= i < |ds| && ds[i].session == Some(g) && !ds[i].certainty.NotStarted?
  }

  /** Which context a turn is given: by watermark, by the deliveries of a local session, or the bootstrap of a session without a past. */
  function TurnFor(db: Ledger, did: nat, g: nat, b: CatchUp.Budget): Option<Turn>
    requires did < |db.deliveries| && g < |db.sessions|
  {
    var m := db.sessions[g];
    var position := db.deliveries[did].position;
    if !(m.vendor.Some? && m.state.Active?) && !Ran(db.deliveries, g) then
      var p := BootstrapOf(db.peer, db.log, position, b);
      Some(Turn(did, position, g, Positions(p.records), Bootstrap, p.truncated))
    else if m.vendor.Some? then
      if m.watermark.None? then None
      else
        var p := NativeDelta(db.peer, db.log, m.watermark.value, position, b);
        Some(Turn(did, position, g, Positions(p.records), Native(m.watermark.value), p.truncated))
    else
      var delta := LocalDelta(db, g, position, b);
      if delta.Some? then
        Some(Turn(did, position, g, Positions(delta.value.records),
                  Delta(LocalSeen(db.deliveries, g).value, OwnAnswers(db.deliveries, g)), delta.value.truncated))
      else
        var p := UnseenRedirects(db, position, b);
        Some(Turn(did, position, g, Positions(p.records), Redirects(LastRun(db.deliveries), AllSteered(db)), p.truncated))
  }

  predicate Usable(m: Session) {
    m.state.Active? || m.state.Fresh?
  }

  /** A session that may be resumed for the Record: retained and compatible, native ones with proven continuity and a delta
      that fits the budget. Age, fingerprint, binding and workspace compatibility only make fewer sessions resumable. */
  predicate Resumable(db: Ledger, g: nat, position: nat, b: CatchUp.Budget) {
    && g < |db.sessions|
    && Usable(db.sessions[g])
    && (db.sessions[g].cli ==> db.sessions[g].vendor.Some?)
    && if db.sessions[g].vendor.Some?
       then db.sessions[g].watermark.Some? && db.sessions[g].truncated != Some(true)
            && !NativeDelta(db.peer, db.log, db.sessions[g].watermark.value, position, b).truncated
       else LocalDelta(db, g, position, b).Some? ==> !LocalDelta(db, g, position, b).value.truncated
  }
}
