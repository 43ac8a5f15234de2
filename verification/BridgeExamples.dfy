/**
 Runs from a new scope that fall short of a promise: a session bound by a local turn whose watermark was never earned, a response key
 that somebody else used, an execution id stored late, and a refusal that acknowledges a result without its response.
 */
module BridgeExamples {
  import opened Wrappers
  import opened BridgeLedger
  import opened BridgeContext
  import opened BridgeMachine
  import opened BridgeSafety
  import opened BridgeResponses
  import opened BridgeContinuity
  import opened BridgeControl
  import BridgeDelivery
  import Claims
  import CatchUp

  // ---------------------------------------------------------------- one owner, step by step

  const SCOPE := Claims.Scope("s", "p")

  const TOKEN := Claims.Token("w", 1, "o", SCOPE)

  /** The peer "p" on the Stream "s", before anything happened. */
  const NEW: State :=
    State(Empty("p"), Claims.State(map[], map[], {"p"}, {"s"}, 0.0, "w", {"w"}), SCOPE, map[], map[], map[], [], map[], [], {},
          CatchUp.Budget(None, None, None), 60.0)

  const PROMPT := Rec("u", Prompt, {}, ClientKey("1"), Opaque(""), [], 0)

  const NEXT_PROMPT := Rec("u", Prompt, {}, ClientKey("2"), Opaque(""), [], 0)

  /** The owner "o" is running a cycle under a current token. */
  predicate Owning(s: State) {
    "o" in s.procs && TokenPasses(s, s.procs["o"].token)
  }

  /** The owner's next inputs. */
  function Inputs(inputs: seq<Input>): seq<Action> {
    seq(|inputs|, i requires 0 <= i < |inputs| => Step("o", inputs[i]))
  }

  function Gos(n: nat): seq<Input> {
    seq(n, _ => Go)
  }

  lemma GosSum(a: nat, b: nat)
    ensures Gos(a + b) == Gos(a) + Gos(b)
  {
  }

  lemma GosOne()
    ensures Gos(1) == [Go]
  {
  }

  ghost function Drive(s: State, inputs: seq<Input>): State {
    Run(s, Inputs(inputs))
  }

  lemma DriveConcat(s: State, a: seq<Input>, b: seq<Input>)
    ensures Drive(s, a + b) == Drive(Drive(s, a), b)
  {
    assert Inputs(a + b) == Inputs(a) + Inputs(b);
    RunConcat(s, Inputs(a), Inputs(b));
    hide Run;
  }

  lemma DriveOne(s: State, x: Input)
    ensures Drive(s, [x]) == Next(s, Step("o", x))
  {
    hide Next;
    var acts := [Step("o", x)];
    assert Inputs([x]) == acts && acts[1..] == [];
    assert Run(s, acts) == Run(Next(s, acts[0]), acts[1..]);
  }

  /** The same system, the owner elsewhere in its cycle. */
  function AtPc(s: State, db: Ledger, pc: Pc): State
    requires "o" in s.procs
  {
    SetPc(s.(db := db), "o", pc)
  }

  lemma AtPcAgain(s: State, db: Ledger, pc: Pc, db': Ledger, pc': Pc)
    requires Owning(s)
    ensures Owning(AtPc(s, db, pc)) && AtPc(AtPc(s, db, pc), db', pc') == AtPc(s, db', pc')
  {
  }

  /** A step of the cycle, unless it is the call itself, a heartbeat, intake, or the commit of a result. */
  lemma Moves(s: State, x: Input, db': Ledger, pc': Pc)
    requires Owning(s) && !s.procs["o"].pc.Armed? && !s.procs["o"].pc.Finalizing? && !x.Beat? && !x.Take? && !x.Stranded?
    requires MoveOf(s.db, s.procs["o"].pc, x, true, s.procs["o"].token.generation, s.kernel.now, s.budget) == Goes(db', pc')
    ensures Drive(s, [x]) == AtPc(s, db', pc')
  {
    DriveOne(s, x);
    hide MoveOf, TokenPasses, Drive;
  }

  /** ...and one more step. */
  lemma ThenMoves(s: State, inputs: seq<Input>, db: Ledger, pc: Pc, x: Input, db': Ledger, pc': Pc)
    requires Owning(s) && Drive(s, inputs) == AtPc(s, db, pc)
    requires !pc.Armed? && !pc.Finalizing? && !x.Beat? && !x.Take? && !x.Stranded?
    requires MoveOf(db, pc, x, true, s.procs["o"].token.generation, s.kernel.now, s.budget) == Goes(db', pc')
    ensures Drive(s, inputs + [x]) == AtPc(s, db', pc')
  {
    AtPcAgain(s, db, pc, db', pc');
    hide MoveOf, Drive, Gos, TokenPasses;
    Moves(AtPc(s, db, pc), x, db', pc');
    DriveConcat(s, inputs, [x]);
  }

  lemma ThenGoes(s: State, n: nat, db: Ledger, pc: Pc, db': Ledger, pc': Pc)
    requires Owning(s) && Drive(s, Gos(n)) == AtPc(s, db, pc) && !pc.Armed? && !pc.Finalizing?
    requires MoveOf(db, pc, Go, true, s.procs["o"].token.generation, s.kernel.now, s.budget) == Goes(db', pc')
    ensures Drive(s, Gos(n + 1)) == AtPc(s, db', pc')
  {
    hide MoveOf, Drive, Gos, TokenPasses, AtPc;
    GosSum(n, 1);
    GosOne();
    ThenMoves(s, Gos(n), db, pc, Go, db', pc');
  }

  lemma Then(s: State, a: seq<Input>, db: Ledger, pc: Pc, b: seq<Input>, db': Ledger, pc': Pc)
    requires Owning(s) && Drive(s, a) == AtPc(s, db, pc) && Drive(AtPc(s, db, pc), b) == AtPc(AtPc(s, db, pc), db', pc')
    ensures Drive(s, a + b) == AtPc(s, db', pc')
  {
    hide Drive, Gos, TokenPasses;
    AtPcAgain(s, db, pc, db', pc');
    DriveConcat(s, a, b);
  }

  // ---------------------------------------------------------------- gates

  /** No control intent, in the log or accepted. */
  predicate Calm(db: Ledger) {
    db.controls == map[] && db.offset <= |db.log| && forall i :: 0 <= i < |db.log| ==> !IsControl(db.log[i].kind)
  }

  /** Where a gate leads that nothing holds back. */
  function Beyond(site: Site): Pc
    requires !site.AtStart?
  {
    match site
    case AtBegun(did) => Admitted(did)
    case AtCreate(did) => Creating(did)
    case AtPrepared(t) => Passed(t)
    case AtMarked(t, n) => Cleared(t, n)
  }

  lemma GateOpens(db: Ledger, site: Site, claim: nat, now: real, b: CatchUp.Budget)
    requires Calm(db)
    ensures MoveOf(db, Gate(site), Go, true, claim, now, b) == Goes(db, Sweeping(db.offset, site))
    ensures MoveOf(db, Sweeping(|db.log|, site), Go, true, claim, now, b) == Goes(db, Swept(site))
    ensures !site.AtStart? ==> MoveOf(db, Swept(site), Go, true, claim, now, b) == Goes(db, Unpaused(site))
    ensures !site.AtStart? ==> MoveOf(db, Unpaused(site), Go, true, claim, now, b) == Goes(db, Beyond(site))
  {
  }

  lemma Sweeps(db: Ledger, site: Site, cursor: nat, claim: nat, now: real, b: CatchUp.Budget)
    requires Calm(db) && cursor < |db.log|
    ensures MoveOf(db, Sweeping(cursor, site), Go, true, claim, now, b) == Goes(db, Sweeping(cursor + 1, site))
  {
  }

  lemma {:induction false} SweepSteps(s: State, site: Site, n: nat)
    requires Owning(s) && s.procs["o"].pc == Gate(site) && Calm(s.db) && n <= |s.db.log| - s.db.offset
    ensures Drive(s, Gos(n + 1)) == AtPc(s, s.db, Sweeping(s.db.offset + n, site))
    decreases n
  {
    var c, now, b := s.procs["o"].token.generation, s.kernel.now, s.budget;
    GateOpens(s.db, site, c, now, b);
    hide MoveOf, Drive, Gos, TokenPasses, Calm;
    if n == 0 {
      GosOne();
      Moves(s, Go, s.db, Sweeping(s.db.offset, site));
    } else {
      SweepSteps(s, site, n - 1);
      Sweeps(s.db, site, s.db.offset + n - 1, c, now, b);
      ThenGoes(s, n, s.db, Sweeping(s.db.offset + n - 1, site), s.db, Sweeping(s.db.offset + n, site));
    }
  }

  /** A gate looks at every Record above the Offset, and lets the cycle pass. */
  lemma GateSteps(s: State, site: Site, n: nat)
    requires Owning(s) && s.procs["o"].pc == Gate(site) && Calm(s.db) && n == |s.db.log| - s.db.offset
    ensures Drive(s, Gos(n + 2)) == AtPc(s, s.db, Swept(site))
    ensures !site.AtStart? ==> Drive(s, Gos(n + 4)) == AtPc(s, s.db, Beyond(site))
  {
    GateOpens(s.db, site, s.procs["o"].token.generation, s.kernel.now, s.budget);
    SweepSteps(s, site, n);
    hide MoveOf, Drive, Gos, TokenPasses, Calm, Beyond;
    ThenGoes(s, n + 1, s.db, Sweeping(|s.db.log|, site), s.db, Swept(site));
    if !site.AtStart? {
      ThenGoes(s, n + 2, s.db, Swept(site), s.db, Unpaused(site));
      ThenGoes(s, n + 3, s.db, Unpaused(site), s.db, Beyond(site));
    }
  }

  // ---------------------------------------------------------------- from a bound session to the call

  /** The runtime has just been called. */
  function AtCall(s: State, db: Ledger, t: Turn): State
    requires "o" in s.procs
  {
    AtPc(s, db, Live(t, 0, false)).(calls := s.calls + [Mark(t.did, 0)], turns := s.turns[Mark(t.did, 0) := t])
  }

  /** The attempt with its first marker. */
  function WithMarker(db: Ledger, did: nat): Ledger
    requires did < |db.deliveries|
  {
    Put(db, did, db.deliveries[did].(markers := [Open]), Note(AboutToInvoke(0), Some(did)))
  }

  lemma PrepareStep(db: Ledger, did: nat, g: nat, t: Turn, claim: nat, now: real, b: CatchUp.Budget)
    requires did < |db.deliveries| && g < |db.sessions| && TurnFor(db, did, g, b) == Some(t)
    ensures MoveOf(db, Resolved(did, g), Go, true, claim, now, b) == Goes(db, Gate(AtPrepared(t)))
  {
    hide TurnFor;
  }

  lemma MarkStep(db: Ledger, t: Turn, claim: nat, now: real, b: CatchUp.Budget)
    requires t.did < |db.deliveries| && db.deliveries[t.did].certainty.NotStarted? && db.deliveries[t.did].markers == []
    ensures MoveOf(db, Passed(t), Go, true, claim, now, b) == Goes(WithMarker(db, t.did), Gate(AtMarked(t, 0)))
    ensures MoveOf(db, Cleared(t, 0), Go, true, claim, now, b) == Goes(db, Armed(t, 0))
  {
    var markers: seq<Marker> := [];
    assert markers + [Open] == [Open];
  }

  lemma CallStep(s: State, t: Turn, db: Ledger)
    requires Owning(s)
    ensures Drive(AtPc(s, db, Armed(t, 0)), [Go]) == AtCall(s, db, t)
  {
    var s1 := AtPc(s, db, Armed(t, 0));
    DriveOne(s1, Go);
    hide Drive;
    assert Next(s1, Step("o", Go)) == Call(s1, "o");
    assert Call(s1, "o").procs == AtCall(s, db, t).procs;
    assert Call(s1, "o").turns == AtCall(s, db, t).turns;
    assert Call(s1, "o").calls == AtCall(s, db, t).calls;
    assert Call(s1, "o") == AtCall(s, db, t);
    assert Drive(s1, [Go]) == Next(s1, Step("o", Go));
  }

  /** Prepare, mark, fence and call. */
  lemma CallSteps(s: State, did: nat, g: nat, t: Turn, n: nat)
    requires Owning(s) && s.procs["o"].pc == Resolved(did, g) && Calm(s.db) && n == |s.db.log| - s.db.offset
    requires did < |s.db.deliveries| && g < |s.db.sessions| && TurnFor(s.db, did, g, s.budget) == Some(t) && t.did == did
    requires s.db.deliveries[did].certainty.NotStarted? && s.db.deliveries[did].markers == []
    ensures Drive(s, Gos(2 * n + 12)) == AtCall(s, WithMarker(s.db, did), t)
  {
    CallReady(s, t);
    hide *;
    var c, now, b := s.procs["o"].token.generation, s.kernel.now, s.budget;
    var db, db1 := s.db, WithMarker(s.db, did);
    PrepareStep(db, did, g, t, c, now, b);
    MarkStep(db, t, c, now, b);
    MarkedCalm(db, t, c, now, b);
    GosOne();
    Moves(s, Go, db, Gate(AtPrepared(t)));
    PassGate(s, 1, db, AtPrepared(t), n);
    assert Drive(s, Gos(n + 5)) == AtPc(s, db, Passed(t));
    ThenGoes(s, n + 5, db, Passed(t), db1, Gate(AtMarked(t, 0)));
    ArmSteps(s, n + 6, db1, t, n);
    assert Drive(s, Gos(2 * n + 12)) == AtCall(s, db1, t);
  }

  lemma CallReady(s: State, t: Turn)
    requires Owning(s)
    ensures "o" in s.procs && Beyond(AtPrepared(t)) == Passed(t) && Beyond(AtMarked(t, 0)) == Cleared(t, 0)
  {
  }

  lemma ArmSteps(s: State, k: nat, db: Ledger, t: Turn, n: nat)
    requires Owning(s) && Drive(s, Gos(k)) == AtPc(s, db, Gate(AtMarked(t, 0))) && Calm(db) && n == |db.log| - db.offset
    requires MoveOf(db, Cleared(t, 0), Go, true, s.procs["o"].token.generation, s.kernel.now, s.budget) == Goes(db, Armed(t, 0))
    ensures Drive(s, Gos(k + n + 6)) == AtCall(s, db, t)
  {
    assert Beyond(AtMarked(t, 0)) == Cleared(t, 0) && "o" in s.procs;
    hide *;
    PassGate(s, k, db, AtMarked(t, 0), n);
    ThenGoes(s, k + n + 4, db, Cleared(t, 0), db, Armed(t, 0));
    CallStep(s, t, db);
    GosSum(k + n + 5, 1);
    GosOne();
    DriveConcat(s, Gos(k + n + 5), [Go]);
  }

  lemma MarkedCalm(db: Ledger, t: Turn, claim: nat, now: real, b: CatchUp.Budget)
    requires Calm(db) && t.did < |db.deliveries|
    ensures var db1 := WithMarker(db, t.did); Calm(db1) && db1.log == db.log && db1.offset == db.offset
    ensures MoveOf(WithMarker(db, t.did), Cleared(t, 0), Go, true, claim, now, b) == Goes(WithMarker(db, t.did), Armed(t, 0))
  {
  }

  lemma PassGate(s: State, k: nat, db: Ledger, site: Site, n: nat)
    requires Owning(s) && Drive(s, Gos(k)) == AtPc(s, db, Gate(site)) && Calm(db) && n == |db.log| - db.offset
    ensures Drive(s, Gos(k + n + 2)) == AtPc(s, db, Swept(site))
    ensures !site.AtStart? ==> Drive(s, Gos(k + n + 4)) == AtPc(s, db, Beyond(site))
  {
    hide Drive, Gos, TokenPasses, Calm;
    AtPcAgain(s, db, Gate(site), db, Gate(site));
    GateSteps(AtPc(s, db, Gate(site)), site, n);
    GosSum(k, n + 2);
    Then(s, Gos(k), db, Gate(site), Gos(n + 2), db, Swept(site));
    if !site.AtStart? {
      GosSum(k, n + 4);
      Then(s, Gos(k), db, Gate(site), Gos(n + 4), db, Beyond(site));
    }
  }

  // ---------------------------------------------------------------- the first prompt

  /** The first Record is the prompt; whatever follows is no control intent. */
  predicate Prompted(log: seq<Rec>) {
    log != [] && log[0] == PROMPT && forall i :: 0 <= i < |log| ==> !IsControl(log[i].kind)
  }

  const FIRST_TURN := Turn(0, 1, 0, {}, Bootstrap, false)

  const FIRST_ROW := Attempt(1, 1, 1, None, 1, NotStarted, [], None, None, None, 0.0, None, false)

  /** The ledger when the first attempt was begun, and when it has its session. */
  function Begun1(log: seq<Rec>): Ledger {
    Empty("p").(log := log, deliveries := [FIRST_ROW], evidence := [Note(AttemptCreated, Some(0))])
  }

  function Bound1(log: seq<Rec>): Ledger {
    Begun1(log).(deliveries := [FIRST_ROW.(session := Some(0))], sessions := [Session(false, Active, None, None, None)])
  }

  lemma StartSteps1(log: seq<Rec>, now: real, b: CatchUp.Budget)
    requires Prompted(log)
    ensures var db := Empty("p").(log := log);
            && Calm(db) && Calm(Begun1(log)) && Calm(Bound1(log))
            && MoveOf(db, Idle, Go, true, 1, now, b) == Goes(db, Gate(AtStart))
            && MoveOf(db, Swept(AtStart), Go, true, 1, now, b) == Goes(db, Clear)
            && MoveOf(db, Clear, Go, true, 1, now, b) == Goes(db, Scan(0))
            && MoveOf(db, Scan(0), Go, true, 1, now, b) == Goes(db, Chosen(1, None))
            && MoveOf(db, Chosen(1, None), Go, true, 1, now, b) == Goes(Begun1(log), Gate(AtBegun(0)))
  {
  }

  lemma BindSteps1(log: seq<Rec>, now: real, b: CatchUp.Budget)
    requires Prompted(log)
    ensures MoveOf(Begun1(log), Admitted(0), Allocate, true, 1, now, b) == Goes(Begun1(log), Gate(AtCreate(0)))
    ensures MoveOf(Begun1(log), Creating(0), Create(false), true, 1, now, b) == Goes(Bound1(log), Resolved(0, 0))
  {
  }

  lemma FirstTurn(log: seq<Rec>, b: CatchUp.Budget)
    requires Prompted(log)
    ensures TurnFor(Bound1(log), 0, 0, b) == Some(FIRST_TURN)
  {
    var db := Bound1(log);
    assert Below(log, 1) == [];
    assert Items("p", [], {}) == [];
    hide CatchUp.Projected;
    NothingProjected(b, 0, Some(1), true);
    assert Positions([]) == {};
  }

  /** Deliver the first prompt into a new session, up to the call: `n` is the length of the log. */
  function FirstCall(n: nat): seq<Input> {
    Gos(2 * n + 11) + [Allocate] + Gos(n + 4) + [Create(false)] + Gos(2 * n + 12)
  }

  lemma FirstBegun(s: State, n: nat)
    requires Owning(s) && s.procs["o"] == Proc(TOKEN, Idle) && Prompted(s.db.log) && s.db == Empty("p").(log := s.db.log) && n == |s.db.log|
    ensures Drive(s, Gos(2 * n + 11)) == AtPc(s, Begun1(s.db.log), Admitted(0))
  {
    var db, db1 := s.db, Begun1(s.db.log);
    StartSteps1(db.log, s.kernel.now, s.budget);
    hide MoveOf, Drive, Gos, TokenPasses, Calm, AtPc;
    GosOne();
    Moves(s, Go, db, Gate(AtStart));
    PassGate(s, 1, db, AtStart, n);
    ThenGoes(s, n + 3, db, Swept(AtStart), db, Clear);
    ThenGoes(s, n + 4, db, Clear, db, Scan(0));
    ThenGoes(s, n + 5, db, Scan(0), db, Chosen(1, None));
    ThenGoes(s, n + 6, db, Chosen(1, None), db1, Gate(AtBegun(0)));
    PassGate(s, n + 7, db1, AtBegun(0), n);
  }

  lemma FirstBound(s: State, n: nat)
    requires Owning(s) && s.procs["o"] == Proc(TOKEN, Idle) && Prompted(s.db.log) && s.db == Empty("p").(log := s.db.log) && n == |s.db.log|
    ensures Drive(s, Gos(2 * n + 11) + [Allocate] + Gos(n + 4) + [Create(false)]) == AtPc(s, Bound1(s.db.log), Resolved(0, 0))
  {
    var log := s.db.log;
    FirstBegun(s, n);
    StartSteps1(log, s.kernel.now, s.budget);
    BindSteps1(log, s.kernel.now, s.budget);
    Shapes1(log);
    hide *;
    var a, db1 := Gos(2 * n + 11), Begun1(log);
    ThenMoves(s, a, db1, Admitted(0), Allocate, db1, Gate(AtCreate(0)));
    AtPcIs(s, db1, Gate(AtCreate(0)));
    GateSteps(AtPc(s, db1, Gate(AtCreate(0))), AtCreate(0), n);
    AtPcAgain(s, db1, Gate(AtCreate(0)), db1, Creating(0));
    Then(s, a + [Allocate], db1, Gate(AtCreate(0)), Gos(n + 4), db1, Creating(0));
    ThenMoves(s, a + [Allocate] + Gos(n + 4), db1, Creating(0), Create(false), Bound1(log), Resolved(0, 0));
  }

  lemma FirstCalled(s: State, n: nat)
    requires Owning(s) && s.procs["o"] == Proc(TOKEN, Idle) && Prompted(s.db.log) && s.db == Empty("p").(log := s.db.log) && n == |s.db.log|
    ensures Drive(s, FirstCall(n)) == AtCall(s, WithMarker(Bound1(s.db.log), 0), FIRST_TURN)
  {
    var log := s.db.log;
    FirstBound(s, n);
    FirstTurn(log, s.budget);
    Shapes1(log);
    var a := Gos(2 * n + 11) + [Allocate] + Gos(n + 4) + [Create(false)];
    assert FirstCall(n) == a + Gos(2 * n + 12);
    hide *;
    var db := Bound1(log);
    AtPcIs(s, db, Resolved(0, 0));
    CallSteps(AtPc(s, db, Resolved(0, 0)), 0, 0, FIRST_TURN, n);
    DriveConcat(s, a, Gos(2 * n + 12));
    InvokedAgain(s, db, Resolved(0, 0), WithMarker(db, 0), FIRST_TURN);
  }

  lemma AtPcIs(s: State, db: Ledger, pc: Pc)
    requires Owning(s)
    ensures var s' := AtPc(s, db, pc);
            && Owning(s') && s'.procs["o"] == s.procs["o"].(pc := pc) && s'.db == db && s'.kernel == s.kernel && s'.budget == s.budget
  {
  }

  lemma Shapes1(log: seq<Rec>)
    requires Prompted(log)
    ensures Calm(Begun1(log)) && Calm(Bound1(log))
    ensures var db1, db2 := Begun1(log), Bound1(log);
            && db1.log == log && db2.log == log && db1.offset == db2.offset == 0 && |db2.deliveries| == 1 && |db2.sessions| == 1
            && db2.deliveries[0].certainty.NotStarted? && db2.deliveries[0].markers == [] && FIRST_TURN.did == 0
            && Beyond(AtCreate(0)) == Creating(0)
  {
  }

  lemma InvokedAgain(s: State, db: Ledger, pc: Pc, db': Ledger, t: Turn)
    requires Owning(s)
    ensures Owning(AtPc(s, db, pc)) && AtCall(AtPc(s, db, pc), db', t) == AtCall(s, db', t)
  {
  }

  // ---------------------------------------------------------------- the runtime answers

  /** The Records are in the log, and the owner holds the claim. */
  function Opened(log: seq<Rec>): State {
    NEW.(db := Empty("p").(log := log), kernel := NEW.kernel.(claims := map[SCOPE := Claims.Row("o", 1, 60.0, 60.0, "w")]),
         procs := map["o" := Proc(TOKEN, Idle)])
  }

  function Appends(log: seq<Rec>): seq<Action> {
    seq(|log|, i requires 0 <= i < |log| => Append(log[i]))
  }

  /** Clients append the Records, the owner acquires the claim and delivers the first one, up to the call. */
  function CallActs(log: seq<Rec>): seq<Action> {
    Appends(log) + [Begin("o", 60.0, "w")] + Inputs(FirstCall(|log|))
  }

  /** Records under keys of their own. */
  predicate Distinct(log: seq<Rec>) {
    forall i, j :: 0 <= i < j < |log| ==> log[i].author != log[j].author || log[i].key != log[j].key
  }

  lemma {:induction false} AbsentKey(log: seq<Rec>, author: string, key: Key)
    requires forall i :: 0 <= i < |log| ==> log[i].author != author || log[i].key != key
    ensures FindKey(log, author, key) == 0
    decreases |log|
  {
    if log != [] { AbsentKey(log[..|log| - 1], author, key); }
  }

  lemma AppendStep(log: seq<Rec>, r: Rec)
    requires FindKey(log, r.author, r.key) == 0
    ensures Next(NEW.(db := Empty("p").(log := log)), Append(r)) == NEW.(db := Empty("p").(log := log + [r]))
  {
    hide FindKey;
  }

  lemma {:induction false} AppendSteps(log: seq<Rec>)
    requires Distinct(log)
    ensures Run(NEW, Appends(log)) == NEW.(db := Empty("p").(log := log))
    decreases |log|
  {
    if log == [] {
      hide Next;
      assert NEW.db == Empty("p").(log := log);
    } else {
      hide Run, Next;
      var n := |log| - 1;
      var init, r := log[..n], log[n];
      AppendSteps(init);
      AbsentKey(init, r.author, r.key);
      assert log == init + [r] && Appends(log) == Appends(init) + [Append(r)];
      hide *;
      AppendStep(init, r);
      RunConcat(NEW, Appends(init), [Append(r)]);
      RunOne(NEW.(db := Empty("p").(log := init)), Append(r));
    }
  }

  lemma RunOne(s: State, a: Action)
    ensures Run(s, [a]) == Next(s, a)
  {
    hide Next;
    var acts := [a];
    assert acts[1..] == [] && Run(s, acts) == Run(Next(s, acts[0]), acts[1..]);
  }

  lemma BeginStep(log: seq<Rec>)
    ensures Next(NEW.(db := Empty("p").(log := log)), Begin("o", 60.0, "w")) == Opened(log)
  {
  }

  /** ...the runtime starts as execution "x" and answers "a", which is committed. */
  function AnswerActs(log: seq<Rec>): seq<Action> {
    CallActs(log) + Inputs([StartedEvent("x")] + [Go]) + Inputs([TerminalEvent("a", None)] + [Go])
  }

  /** The state at the call. */
  function Calling(log: seq<Rec>): State {
    AtCall(Opened(log), WithMarker(Bound1(log), 0), FIRST_TURN)
  }

  lemma CallRun(log: seq<Rec>)
    requires Prompted(log) && Distinct(log)
    ensures Initial(NEW) && Run(NEW, CallActs(log)) == Calling(log) && Owning(Calling(log))
  {
    AppendSteps(log);
    RunOne(NEW.(db := Empty("p").(log := log)), Begin("o", 60.0, "w"));
    BeginStep(log);
    RunConcat(NEW, Appends(log), [Begin("o", 60.0, "w")]);
    RunConcat(NEW, Appends(log) + [Begin("o", 60.0, "w")], Inputs(FirstCall(|log|)));
    hide Run, Appends, Next, FirstCall, MoveOf, Prompted;
    assert Drive(Opened(log), FirstCall(|log|)) == Run(Opened(log), Inputs(FirstCall(|log|)));
    FirstCalled(Opened(log), |log|);
  }

  const CALLED_ROW := FIRST_ROW.(session := Some(0), markers := [Open])

  function Notes(extra: seq<Event>): seq<Note> {
    seq(2 + |extra|, i requires 0 <= i < 2 + |extra| =>
      Note(if i == 0 then AttemptCreated else if i == 1 then AboutToInvoke(0) else extra[i - 2], Some(0)))
  }

  /** The ledger with its one attempt at `row`. */
  function Single(log: seq<Rec>, row: Attempt, extra: seq<Event>): Ledger {
    Bound1(log).(deliveries := [row], evidence := Notes(extra))
  }

  lemma MarkedIs(log: seq<Rec>)
    ensures WithMarker(Bound1(log), 0) == Single(log, CALLED_ROW, [])
  {
    assert Notes([]) == [Note(AttemptCreated, Some(0)), Note(AboutToInvoke(0), Some(0))];
  }

  lemma MoreNotes(extra: seq<Event>, e: Event)
    ensures Notes(extra) + [Note(e, Some(0))] == Notes(extra + [e])
  {
  }

  const STARTED_ROW := CALLED_ROW.(certainty := Started)
  const NAMED_ROW := STARTED_ROW.(execution := Some("x"))
  const ANSWERED_ROW := NAMED_ROW.(certainty := Terminal, outcome := Some(Answer("a")))

  /** The runtime starts as execution "x". */
  lemma StartedAt(log: seq<Rec>, now: real, b: CatchUp.Budget)
    ensures MoveOf(Single(log, CALLED_ROW, []), Live(FIRST_TURN, 0, false), StartedEvent("x"), true, 1, now, b)
            == Goes(Single(log, STARTED_ROW, [StartedNote]), Naming(FIRST_TURN, 0, "x"))
  {
    MoreNotes([], StartedNote);
    assert [] + [StartedNote] == [StartedNote];
    hide Notes;
  }

  lemma NameMove(log: seq<Rec>, row: Attempt, extra: seq<Event>, now: real, b: CatchUp.Budget)
    ensures MoveOf(Single(log, row, extra), Naming(FIRST_TURN, 0, "x"), Go, true, 1, now, b)
            == Goes(Single(log, row.(execution := Some("x")), extra), Live(FIRST_TURN, 0, true))
  {
    hide Notes;
  }

  lemma EndMove(db: Ledger, t: Turn, value: string, vendor: Option<string>, claim: nat, now: real, b: CatchUp.Budget)
    ensures MoveOf(db, Live(t, 0, true), TerminalEvent(value, vendor), true, claim, now, b) == Goes(db, Finalizing(t, value, vendor))
  {
  }

  /** The commit of a first result. */
  lemma CommitStep(s: State, t: Turn, value: string, vendor: Option<string>, db': Ledger)
    requires Owning(s) && s.procs["o"].pc == Finalizing(t, value, vendor)
    requires FinalizeTerminal(s.db, t.did, value, vendor, Some(ProvenanceOf(t)), s.kernel.now) == Ok((db', First))
    ensures Drive(s, [Go])
            == AtPc(s.(taken := s.taken + Ended(s.db, s.turns, t.did), unproven := s.unproven + Unproven(s.db, t.did, vendor, Some(t))),
                    db', Materializing(t.did))
  {
    DriveOne(s, Go);
    hide FinalizeTerminal, Drive, Ended, Unproven;
  }

  /** A result for an attempt that runs commits at once. */
  lemma FinalAt(log: seq<Rec>, row: Attempt, extra: seq<Event>, p: Option<Provenance>)
    requires row == STARTED_ROW || row == NAMED_ROW
    ensures FinalizeTerminal(Single(log, row, extra), 0, "a", None, p, 0.0)
            == Ok((Single(log, row.(certainty := Terminal, outcome := Some(Answer("a"))), extra + [TerminalNote]), First))
  {
    var row' := row.(certainty := Terminal, outcome := Some(Answer("a")));
    var db := Single(log, row, extra);
    MoreNotes(extra, TerminalNote);
    assert db.deliveries[0 := row'] == [row'] && row' == row'.(terminalAt := 0.0);
    assert CommitNative(db.sessions, Some(0), 1, None, p) == db.sessions;
    hide Notes, CommitNative;
  }

  /** The state after the first result. */
  function Answering(log: seq<Rec>): State {
    Calling(log).(taken := [FIRST_TURN])
  }

  lemma Committed(log: seq<Rec>)
    ensures Drive(AtPc(Calling(log), Single(log, NAMED_ROW, [StartedNote]), Finalizing(FIRST_TURN, "a", None)), [Go])
            == AtPc(Answering(log), Single(log, ANSWERED_ROW, [StartedNote, TerminalNote]), Materializing(0))
  {
    var db, db' := Single(log, NAMED_ROW, [StartedNote]), Single(log, ANSWERED_ROW, [StartedNote, TerminalNote]);
    FinalAt(log, NAMED_ROW, [StartedNote], Some(ProvenanceOf(FIRST_TURN)));
    assert [StartedNote] + [TerminalNote] == [StartedNote, TerminalNote] && FIRST_TURN.did == 0;
    TurnEnds(log, NAMED_ROW, [StartedNote], Some(FIRST_TURN));
    CallingIs(log, db, Finalizing(FIRST_TURN, "a", None), db', Materializing(0));
    hide *;
    CommitStep(AtPc(Calling(log), db, Finalizing(FIRST_TURN, "a", None)), FIRST_TURN, "a", None, db');
  }

  lemma CallingIs(log: seq<Rec>, db: Ledger, pc: Pc, db': Ledger, pc': Pc)
    ensures var s := AtPc(Calling(log), db, pc);
            && Owning(s) && s.procs["o"] == Proc(TOKEN, pc) && s.db == db && s.kernel.now == 0.0 && s.budget == NEW.budget && s.scope == SCOPE
            && s.callbacks == map[] && s.turns == Calling(log).turns && s.taken == Calling(log).taken && s.unproven == Calling(log).unproven
            && AtPc(s.(taken := [FIRST_TURN], unproven := {}), db', pc') == AtPc(Answering(log), db', pc')
  {
  }

  /** The result takes the turn, and binds no session. */
  lemma TurnEnds(log: seq<Rec>, row: Attempt, extra: seq<Event>, turn: Option<Turn>)
    requires row == STARTED_ROW || row == NAMED_ROW
    ensures var s := Calling(log); var db := Single(log, row, extra);
            && s.taken + Ended(db, s.turns, 0) == [FIRST_TURN] && s.unproven + Unproven(db, 0, None, turn) == {}
  {
    hide Notes;
  }

  lemma NamedRun(log: seq<Rec>)
    requires Prompted(log) && Distinct(log)
    ensures Run(NEW, CallActs(log) + Inputs([StartedEvent("x")] + [Go]))
            == AtPc(Calling(log), Single(log, NAMED_ROW, [StartedNote]), Live(FIRST_TURN, 0, true))
    ensures Initial(NEW)
  {
    CallRun(log);
    MarkedIs(log);
    var s, inputs := Calling(log), [StartedEvent("x")] + [Go];
    StartedAt(log, 0.0, s.budget);
    NameMove(log, STARTED_ROW, [StartedNote], 0.0, s.budget);
    RunConcat(NEW, CallActs(log), Inputs(inputs));
    assert Owning(s) && s.procs["o"] == Proc(TOKEN, Live(FIRST_TURN, 0, false)) && s.db == Single(log, CALLED_ROW, []) && s.kernel.now == 0.0;
    assert Drive(s, inputs) == Run(s, Inputs(inputs));
    hide *;
    Moves(s, StartedEvent("x"), Single(log, STARTED_ROW, [StartedNote]), Naming(FIRST_TURN, 0, "x"));
    ThenMoves(s, [StartedEvent("x")], Single(log, STARTED_ROW, [StartedNote]), Naming(FIRST_TURN, 0, "x"), Go,
              Single(log, NAMED_ROW, [StartedNote]), Live(FIRST_TURN, 0, true));
  }

  /** From wherever the owner stands after a run: more of its steps. */
  lemma ThenDrive(acts: seq<Action>, s: State, inputs: seq<Input>)
    requires Run(NEW, acts) == s
    ensures Run(NEW, acts + Inputs(inputs)) == Drive(s, inputs)
  {
    RunConcat(NEW, acts, Inputs(inputs));
    hide Run, Inputs;
  }

  lemma AnswerRun(log: seq<Rec>)
    requires Prompted(log) && Distinct(log)
    ensures Run(NEW, AnswerActs(log))
            == AtPc(Answering(log), Single(log, ANSWERED_ROW, [StartedNote, TerminalNote]), Materializing(0))
    ensures Initial(NEW)
  {
    var db := Single(log, NAMED_ROW, [StartedNote]);
    NamedRun(log);
    CallingIs(log, db, Live(FIRST_TURN, 0, true), db, Idle);
    EndMove(db, FIRST_TURN, "a", None, 1, 0.0, NEW.budget);
    Committed(log);
    var s := AtPc(Calling(log), db, Live(FIRST_TURN, 0, true));
    AtPcAgain(Calling(log), db, Live(FIRST_TURN, 0, true), db, Finalizing(FIRST_TURN, "a", None)) by { CallRun(log); }
    hide *;
    ThenDrive(CallActs(log) + Inputs([StartedEvent("x")] + [Go]), s, [TerminalEvent("a", None)] + [Go]);
    Moves(s, TerminalEvent("a", None), db, Finalizing(FIRST_TURN, "a", None));
    DriveConcat(s, [TerminalEvent("a", None)], [Go]);
  }

  // ---------------------------------------------------------------- somebody uses the response key

  const SQUATTER := Rec("p", Other, {}, ResponseKey(0), Opaque(""), [], 0)

  const SQUAT_ACTS: seq<Action> := AnswerActs([PROMPT, SQUATTER])

  /** Someone appends a Record in the peer's name under the key of the response to come: the delivery becomes terminal, and its response can
      never be appended. */
  lemma SquatRun(json: seq<CatchUp.byte>, tokens: nat)
    ensures Initial(NEW)
    ensures var db := Run(NEW, SQUAT_ACTS).db;
            && 0 < |db.deliveries| && db.deliveries[0].certainty.Terminal? && !db.closed
            && AppendResponse(db, 0, PayloadOf(db.deliveries[0]), json, tokens) == Err(IdempotencyConflict)
  {
    var log := [PROMPT, SQUATTER];
    AnswerRun(log);
    CallRun(log);
    hide Run, AnswerActs;
    assert FindKey(log, "p", ResponseKey(0)) == 2;
  }

  // ---------------------------------------------------------------- a callback during the turn

  const CALLBACK := Callback(0, TOKEN, 0, "a", None)

  /** While the cycle is at `pc`, a callback under the same token commits the result. */
  lemma CallbackStep(log: seq<Rec>, row: Attempt, extra: seq<Event>, pc: Pc)
    requires row == STARTED_ROW || row == NAMED_ROW
    ensures Next(AtPc(Calling(log), Single(log, row, extra), pc), CALLBACK)
            == AtPc(Answering(log), Single(log, row.(certainty := Terminal, outcome := Some(Answer("a"))), extra + [TerminalNote]), pc)
               .(callbacks := map[0 := Proc(TOKEN, Materializing(0))])
  {
    var s := AtPc(Calling(log), Single(log, row, extra), pc);
    var db' := Single(log, row.(certainty := Terminal, outcome := Some(Answer("a"))), extra + [TerminalNote]);
    FinalAt(log, row, extra, None);
    TurnEnds(log, row, extra, None);
    assert s.callbacks == map[] && s.scope == SCOPE && TokenPasses(s, TOKEN) && s.kernel.now == 0.0 && s.turns == Calling(log).turns;
    hide FinalizeTerminal, Ended, Unproven, Notes, Single, TokenPasses;
    assert Next(s, CALLBACK) == Called(s, 0, TOKEN, 0, "a", None);
  }

  const LATE_ROW := STARTED_ROW.(certainty := Terminal, outcome := Some(Answer("a")))

  const UNNAMED := ResponseRec("p", 0, Payload("a", 1, None, 0.0), [], 0)

  /** The cycle about to store the execution id, with the callback at `pc`. */
  function Late(log: seq<Rec>, pc: Pc): State {
    AtPc(Answering([PROMPT]), Single(log, LATE_ROW, [StartedNote, TerminalNote]), Naming(FIRST_TURN, 0, "x"))
    .(callbacks := map[0 := Proc(TOKEN, pc)])
  }

  /** A step of the callback. */
  lemma Follows(s: State, x: Input, pc: Pc, db': Ledger, pc': Pc)
    requires 0 in s.callbacks && s.callbacks[0] == Proc(TOKEN, pc) && TokenPasses(s, TOKEN) && !pc'.Idle?
    requires MoveOf(s.db, pc, x, true, 1, s.kernel.now, s.budget) == Goes(db', pc')
    ensures Next(s, Follow(0, x)) == s.(db := db', callbacks := s.callbacks[0 := Proc(TOKEN, pc')])
  {
    hide MoveOf, TokenPasses;
  }

  lemma LateMoves(b: CatchUp.Budget)
    ensures var p := Payload("a", 1, None, 0.0); var db := Single([PROMPT], LATE_ROW, [StartedNote, TerminalNote]);
            && MoveOf(db, Materializing(0), Go, true, 1, 0.0, b) == Goes(db, Responding(0, p))
            && MoveOf(db, Responding(0, p), Json([], 0), true, 1, 0.0, b)
               == Goes(Single([PROMPT, UNNAMED], LATE_ROW, [StartedNote, TerminalNote]), Binding(0, 2))
  {
    var db, e := Single([PROMPT], LATE_ROW, [StartedNote, TerminalNote]), BridgeDelivery.Setting(1, 0.0, b);
    RespondsAt(LATE_ROW, [StartedNote, TerminalNote]);
    assert 0 < |db.deliveries|;
    hide Single, MoveOf, AppendResponse;
    BridgeDelivery.ReadStep(db, 0, e);
    BridgeDelivery.RespondStep(db, 0, [], 0, e);
  }

  /** The response goes to position 2. */
  lemma RespondsAt(row: Attempt, extra: seq<Event>)
    requires row.position == 1 && row.outcome == Some(Answer("a")) && row.terminalAt == 0.0
    ensures var p := Payload("a", 1, row.execution, 0.0); var db := Single([PROMPT], row, extra);
            && |db.deliveries| == 1 && PayloadOf(db.deliveries[0]) == p
            && AppendResponse(db, 0, p, [], 0) == Ok((Single([PROMPT, ResponseRec("p", 0, p, [], 0)], row, extra), 2))
  {
    var r := ResponseRec("p", 0, Payload("a", 1, row.execution, 0.0), [], 0);
    assert [PROMPT] + [r] == [PROMPT, r];
    AbsentKey([PROMPT], "p", ResponseKey(0));
    hide Notes, FindKey;
  }

  lemma LateSteps()
    ensures Next(Late([PROMPT], Materializing(0)), Follow(0, Go)) == Late([PROMPT], Responding(0, Payload("a", 1, None, 0.0)))
    ensures Next(Late([PROMPT], Responding(0, Payload("a", 1, None, 0.0))), Follow(0, Json([], 0))) == Late([PROMPT, UNNAMED], Binding(0, 2))
  {
    var p := Payload("a", 1, None, 0.0);
    var s, s1, s2 := Late([PROMPT], Materializing(0)), Late([PROMPT], Responding(0, p)), Late([PROMPT, UNNAMED], Binding(0, 2));
    LateIs([PROMPT], Materializing(0), [PROMPT], Responding(0, p));
    LateIs([PROMPT], Responding(0, p), [PROMPT, UNNAMED], Binding(0, 2));
    LateMoves(s.budget);
    hide *;
    Follows(s, Go, Materializing(0), s.db, Responding(0, p));
    Follows(s1, Json([], 0), Responding(0, p), s2.db, Binding(0, 2));
  }

  lemma LateIs(log: seq<Rec>, pc: Pc, log': seq<Rec>, pc': Pc)
    ensures var s, s' := Late(log, pc), Late(log', pc');
            && s.db == Single(log, LATE_ROW, [StartedNote, TerminalNote]) && s.callbacks == map[0 := Proc(TOKEN, pc)]
            && TokenPasses(s, TOKEN) && s.kernel.now == 0.0 && s.budget == NEW.budget
            && s' == s.(db := s'.db, callbacks := s.callbacks[0 := Proc(TOKEN, pc')])
  {
    hide Notes;
  }

  lemma LateNamed()
    ensures Next(Late([PROMPT, UNNAMED], Binding(0, 2)), Step("o", Go)).db
            == Single([PROMPT, UNNAMED], LATE_ROW.(execution := Some("x")), [StartedNote, TerminalNote])
  {
    var s := Late([PROMPT, UNNAMED], Binding(0, 2));
    NameMove([PROMPT, UNNAMED], LATE_ROW, [StartedNote, TerminalNote], 0.0, s.budget);
    LateIs([PROMPT, UNNAMED], Binding(0, 2), [PROMPT, UNNAMED], Binding(0, 2));
    DriveOne(s, Go);
    assert Owning(s) && s.procs["o"] == Proc(TOKEN, Naming(FIRST_TURN, 0, "x"));
    hide MoveOf, Next, Drive, Late, Single;
    Moves(s, Go, Single([PROMPT, UNNAMED], LATE_ROW.(execution := Some("x")), [StartedNote, TerminalNote]), Live(FIRST_TURN, 0, true));
  }

  const LATE_ACTS: seq<Action> :=
    CallActs([PROMPT]) + Inputs([StartedEvent("x")]) + [CALLBACK, Follow(0, Go), Follow(0, Json([], 0))] + [Step("o", Go)]

  /** The runtime reports the start; before the cycle stores the execution id, a callback commits and appends the response; then the cycle
      stores the id. The response lacks it, and materialising the delivery again is a conflict. */
  lemma LateRun(json: seq<CatchUp.byte>, tokens: nat)
    ensures Initial(NEW)
    ensures var db := Run(NEW, LATE_ACTS).db;
            && db.log == [PROMPT, UNNAMED] && 0 < |db.deliveries| && db.deliveries[0].certainty.Terminal?
            && db.deliveries[0].execution == Some("x") && UNNAMED.body == Reply(Payload("a", 1, None, 0.0))
            && AppendResponse(db, 0, PayloadOf(db.deliveries[0]), json, tokens) == Err(IdempotencyConflict)
  {
    var log := [PROMPT];
    LateStarted();
    LateSteps();
    LateNamed();
    var s, first := Late(log, Materializing(0)), CallActs(log) + Inputs([StartedEvent("x")]);
    var rest := [CALLBACK, Follow(0, Go), Follow(0, Json([], 0))] + [Step("o", Go)];
    assert LATE_ACTS == first + [CALLBACK] + [Follow(0, Go)] + [Follow(0, Json([], 0))] + [Step("o", Go)];
    hide Run, Next, CallActs, Notes;
    ThenRun(first, CALLBACK);
    ThenRun(first + [CALLBACK], Follow(0, Go));
    ThenRun(first + [CALLBACK] + [Follow(0, Go)], Follow(0, Json([], 0)));
    ThenRun(first + [CALLBACK] + [Follow(0, Go)] + [Follow(0, Json([], 0))], Step("o", Go));
    assert FindKey([PROMPT, UNNAMED], "p", ResponseKey(0)) == 2;
  }

  lemma ThenRun(acts: seq<Action>, a: Action)
    ensures Run(NEW, acts + [a]) == Next(Run(NEW, acts), a)
  {
    RunConcat(NEW, acts, [a]);
    RunOne(Run(NEW, acts), a);
  }

  lemma LateStarted()
    ensures Initial(NEW) && Next(Run(NEW, CallActs([PROMPT]) + Inputs([StartedEvent("x")])), CALLBACK) == Late([PROMPT], Materializing(0))
  {
    var log := [PROMPT];
    CallRun(log);
    MarkedIs(log);
    StartedAt(log, 0.0, NEW.budget);
    CallbackStep(log, STARTED_ROW, [StartedNote], Naming(FIRST_TURN, 0, "x"));
    var s := Calling(log);
    assert [StartedNote] + [TerminalNote] == [StartedNote, TerminalNote];
    assert Owning(s) && s.procs["o"] == Proc(TOKEN, Live(FIRST_TURN, 0, false)) && s.db == Single(log, CALLED_ROW, []) && s.kernel.now == 0.0;
    RunConcat(NEW, CallActs(log), Inputs([StartedEvent("x")]));
    assert Drive(s, [StartedEvent("x")]) == Run(s, Inputs([StartedEvent("x")]));
    assert s.budget == NEW.budget;
    hide Run, Next, CallActs, Notes, MoveOf, Drive, TokenPasses;
    Moves(s, StartedEvent("x"), Single(log, STARTED_ROW, [StartedNote]), Naming(FIRST_TURN, 0, "x"));
  }

  // ---------------------------------------------------------------- a refusal settled after the result

  lemma AdvanceMoves(db: Ledger, target: nat, next: Then, claim: nat, now: real, b: CatchUp.Budget)
    requires db.offset < target <= |db.log|
    ensures MoveOf(db, Advancing(target, None, next), Go, true, claim, now, b) == Goes(db, Advancing(target, Some(db.revision), next))
    ensures MoveOf(db, Advancing(target, Some(db.revision), next), Go, true, claim, now, b)
            == Goes(db.(offset := target, revision := db.revision + 1), After(target, next))
  {
  }

  const REFUSAL_NOTES: seq<Event> := [StartedNote, RefusalDetected("c")]

  lemma RefusalMoves(log: seq<Rec>, b: CatchUp.Budget)
    ensures MoveOf(Single(log, NAMED_ROW, [StartedNote]), Live(FIRST_TURN, 0, true), RefusalEvent("c"), true, 1, 0.0, b)
            == Goes(Single(log, NAMED_ROW, [StartedNote]), Noting(FIRST_TURN, "c"))
    ensures MoveOf(Single(log, NAMED_ROW, [StartedNote]), Noting(FIRST_TURN, "c"), Go, true, 1, 0.0, b)
            == Goes(Single(log, NAMED_ROW, REFUSAL_NOTES), Settling(0, "c"))
  {
    MoreNotes([StartedNote], RefusalDetected("c"));
    assert [StartedNote] + [RefusalDetected("c")] == REFUSAL_NOTES;
    BridgeDelivery.NoteStep(Single(log, NAMED_ROW, [StartedNote]), FIRST_TURN, "c", BridgeDelivery.Setting(1, 0.0, b));
    hide Notes;
  }

  lemma RefusedRun()
    ensures Initial(NEW)
    ensures Run(NEW, CallActs([PROMPT]) + Inputs([StartedEvent("x")] + [Go]) + Inputs([RefusalEvent("c")] + [Go]))
            == AtPc(Calling([PROMPT]), Single([PROMPT], NAMED_ROW, REFUSAL_NOTES), Settling(0, "c"))
  {
    var log := [PROMPT];
    var db, db' := Single(log, NAMED_ROW, [StartedNote]), Single(log, NAMED_ROW, REFUSAL_NOTES);
    NamedRun(log);
    CallingIs(log, db, Live(FIRST_TURN, 0, true), db, Idle);
    RefusalMoves(log, NEW.budget);
    var s := AtPc(Calling(log), db, Live(FIRST_TURN, 0, true));
    AtPcAgain(Calling(log), db, Live(FIRST_TURN, 0, true), db', Settling(0, "c")) by { CallRun(log); }
    hide *;
    ThenDrive(CallActs(log) + Inputs([StartedEvent("x")] + [Go]), s, [RefusalEvent("c")] + [Go]);
    Moves(s, RefusalEvent("c"), db, Noting(FIRST_TURN, "c"));
    ThenMoves(s, [RefusalEvent("c")], db, Noting(FIRST_TURN, "c"), Go, db', Settling(0, "c"));
  }

  /** The settlement loses the session, moves the Offset and acknowledges. */
  lemma SettleMoves(db: Ledger, b: CatchUp.Budget)
    requires |db.deliveries| == 1 && |db.log| == 1 && db.offset == 0 && |db.sessions| == 1
    requires db.deliveries[0].outcome.Some? && db.deliveries[0].session == Some(0) && db.deliveries[0].position == 1
    ensures var db1 := LoseSession(db, 0); var db2 := db1.(offset := 1, revision := db1.revision + 1);
            && MoveOf(db, Settling(0, "c"), Go, true, 1, 0.0, b) == Goes(db, Losing(0))
            && MoveOf(db, Losing(0), Go, true, 1, 0.0, b) == Goes(db1, Advancing(1, None, ThenAck(0)))
            && MoveOf(db1, Advancing(1, None, ThenAck(0)), Go, true, 1, 0.0, b) == Goes(db1, Advancing(1, Some(db1.revision), ThenAck(0)))
            && MoveOf(db1, Advancing(1, Some(db1.revision), ThenAck(0)), Go, true, 1, 0.0, b) == Goes(db2, Acking(0))
            && MoveOf(db2, Acking(0), Go, true, 1, 0.0, b) == Goes(Ack(db2, 0).value, Idle)
            && Ack(db2, 0).Ok? && |Ack(db2, 0).value.deliveries| == 1
            && Ack(db2, 0).value.deliveries[0] == db.deliveries[0].(acked := true)
  {
    var e := BridgeDelivery.Setting(1, 0.0, b);
    var db1 := LoseSession(db, 0);
    var db2 := db1.(offset := 1, revision := db1.revision + 1);
    BridgeDelivery.SettleStepIs(db, 0, "c", e);
    BridgeDelivery.LoseStep(db, 0, e);
    AdvanceMoves(db1, 1, ThenAck(0), 1, 0.0, b);
    BridgeDelivery.AckStep(db2, 0, e);
    hide MoveOf;
  }

  /** The cycle settling a refusal, with the callback that has just committed. */
  function Refusing(): State {
    AtPc(Answering([PROMPT]), Single([PROMPT], ANSWERED_ROW, REFUSAL_NOTES + [TerminalNote]), Settling(0, "c"))
    .(callbacks := map[0 := Proc(TOKEN, Materializing(0))])
  }

  lemma RefusingIs()
    ensures var s := Refusing();
            && Owning(s) && "o" in s.procs && s.procs["o"] == Proc(TOKEN, Settling(0, "c")) && s.kernel.now == 0.0 && s.budget == NEW.budget
            && |s.db.deliveries| == 1 && s.db.deliveries[0] == ANSWERED_ROW && |s.db.log| == 1 && s.db.offset == 0 && |s.db.sessions| == 1
            && s.db.deliveries[0].outcome.Some? && s.db.deliveries[0].session == Some(0) && s.db.deliveries[0].position == 1
            && s.procs["o"].token.generation == 1
  {
    hide Notes;
  }

  lemma RefusalSettles() returns (db: Ledger)
    ensures Owning(Refusing()) && Drive(Refusing(), Gos(5)) == AtPc(Refusing(), db, Idle)
    ensures |db.deliveries| == 1 && db.deliveries[0] == ANSWERED_ROW.(acked := true)
  {
    hide *;
    var s := Refusing();
    var db1 := LoseSession(s.db, 0);
    var db2 := db1.(offset := 1, revision := db1.revision + 1);
    RefusingIs();
    SettleMoves(s.db, NEW.budget);
    db := Ack(db2, 0).value;
    GosOne();
    Moves(s, Go, s.db, Losing(0));
    ThenGoes(s, 1, s.db, Losing(0), db1, Advancing(1, None, ThenAck(0)));
    ThenGoes(s, 2, db1, Advancing(1, None, ThenAck(0)), db1, Advancing(1, Some(db1.revision), ThenAck(0)));
    ThenGoes(s, 3, db1, Advancing(1, Some(db1.revision), ThenAck(0)), db2, Acking(0));
    ThenGoes(s, 4, db2, Acking(0), db, Idle);
  }

  const REFUSED_ACTS: seq<Action> :=
    CallActs([PROMPT]) + Inputs([StartedEvent("x")] + [Go]) + Inputs([RefusalEvent("c")] + [Go])

  const DROP_ACTS: seq<Action> := REFUSED_ACTS + [CALLBACK] + Inputs(Gos(5)) + [Lapse(0)]

  lemma RefusingRun()
    ensures Initial(NEW) && Run(NEW, REFUSED_ACTS + [CALLBACK]) == Refusing()
  {
    RefusedRun();
    CallbackStep([PROMPT], NAMED_ROW, REFUSAL_NOTES, Settling(0, "c"));
    ThenRun(REFUSED_ACTS, CALLBACK);
    hide Run, Next, Calling, Single, CallActs, Inputs;
    assert ANSWERED_ROW == NAMED_ROW.(certainty := Terminal, outcome := Some(Answer("a")));
  }

  /** The runtime refuses the request; while the cycle settles the refusal, a callback commits a result, and dies before it appends the
      response: the delivery is terminal and acknowledged without a response, and nobody is left to append one. */
  lemma DropRun()
    ensures Initial(NEW)
    ensures LacksResponse(Run(NEW, DROP_ACTS).db, 0) && Run(NEW, DROP_ACTS).callbacks == map[]
  {
    RefusingRun();
    var db := RefusalSettles();
    var s := AtPc(Refusing(), db, Idle);
    ThenDrive(REFUSED_ACTS + [CALLBACK], Refusing(), Gos(5));
    ThenRun(REFUSED_ACTS + [CALLBACK] + Inputs(Gos(5)), Lapse(0));
    Lapsed(s);
    hide Run, Next, Inputs, Gos, Drive, TokenPasses;
    assert s.db == db && s.callbacks == Refusing().callbacks == map[0 := Proc(TOKEN, Materializing(0))];
  }

  lemma Lapsed(s: State)
    ensures Next(s, Lapse(0)) == s.(callbacks := s.callbacks - {0})
  {
  }

  // ---------------------------------------------------------------- a session bound by a local turn

  const RESPONSE := ResponseRec("p", 0, Payload("a", 1, Some("x"), 0.0), [], 0)

  const SETTLED_ROW := ANSWERED_ROW.(response := Some(2))

  const SETTLED_NOTES: seq<Event> := [StartedNote, TerminalNote, ResponseAppended]

  /** The first prompt answered and acknowledged; `log` starts with it and its response. */
  function Settled(log: seq<Rec>, offset: nat, revision: nat): Ledger {
    Single(log, SETTLED_ROW.(acked := true), SETTLED_NOTES + [OffsetAcked]).(offset := offset, revision := revision)
  }

  lemma SettledMoves(b: CatchUp.Budget)
    ensures var e := [StartedNote, TerminalNote]; var db := Single([PROMPT, RESPONSE], SETTLED_ROW, SETTLED_NOTES);
            && MoveOf(Single([PROMPT], ANSWERED_ROW, e), Materializing(0), Go, true, 1, 0.0, b)
               == Goes(Single([PROMPT], ANSWERED_ROW, e), Responding(0, Payload("a", 1, Some("x"), 0.0)))
            && MoveOf(Single([PROMPT], ANSWERED_ROW, e), Responding(0, Payload("a", 1, Some("x"), 0.0)), Json([], 0), true, 1, 0.0, b)
               == Goes(Single([PROMPT, RESPONSE], ANSWERED_ROW, e), Binding(0, 2))
            && MoveOf(Single([PROMPT, RESPONSE], ANSWERED_ROW, e), Binding(0, 2), Go, true, 1, 0.0, b)
               == Goes(db, Advancing(1, None, ThenAck(0)))
            && MoveOf(db, Advancing(1, None, ThenAck(0)), Go, true, 1, 0.0, b) == Goes(db, Advancing(1, Some(1), ThenAck(0)))
            && MoveOf(db, Advancing(1, Some(1), ThenAck(0)), Go, true, 1, 0.0, b) == Goes(db.(offset := 1, revision := 2), Acking(0))
            && MoveOf(db.(offset := 1, revision := 2), Acking(0), Go, true, 1, 0.0, b) == Goes(Settled([PROMPT, RESPONSE], 1, 2), Idle)
  {
    var e, notes := BridgeDelivery.Setting(1, 0.0, b), [StartedNote, TerminalNote];
    var db0, db1 := Single([PROMPT], ANSWERED_ROW, notes), Single([PROMPT, RESPONSE], ANSWERED_ROW, notes);
    var db := Single([PROMPT, RESPONSE], SETTLED_ROW, SETTLED_NOTES);
    RespondsAt(ANSWERED_ROW, notes);
    BoundAt();
    AckedAt();
    assert db.offset == 0 && db.revision == 1 && |db.log| == 2 && |db.deliveries| == 1 && |db1.deliveries| == 1 && db1.deliveries[0].position == 1;
    hide Single, MoveOf, AppendResponse, Settled, BindResponse, Ack;
    BridgeDelivery.ReadStep(db0, 0, e);
    BridgeDelivery.RespondStep(db0, 0, [], 0, e);
    BridgeDelivery.BindStep(db1, 0, 2, e);
    AdvanceMoves(db, 1, ThenAck(0), 1, 0.0, b);
    BridgeDelivery.AckStep(db.(offset := 1, revision := 2), 0, e);
  }

  lemma BoundAt()
    ensures BindResponse(Single([PROMPT, RESPONSE], ANSWERED_ROW, [StartedNote, TerminalNote]), 0, 2)
            == Ok(Single([PROMPT, RESPONSE], SETTLED_ROW, SETTLED_NOTES))
  {
    MoreNotes([StartedNote, TerminalNote], ResponseAppended);
    assert [StartedNote, TerminalNote] + [ResponseAppended] == SETTLED_NOTES;
    assert Single([PROMPT, RESPONSE], ANSWERED_ROW, [StartedNote, TerminalNote]).deliveries[0 := SETTLED_ROW] == [SETTLED_ROW];
    hide Notes;
  }

  lemma AckedAt()
    ensures Ack(Single([PROMPT, RESPONSE], SETTLED_ROW, SETTLED_NOTES).(offset := 1, revision := 2), 0) == Ok(Settled([PROMPT, RESPONSE], 1, 2))
  {
    MoreNotes(SETTLED_NOTES, OffsetAcked);
    var row := SETTLED_ROW.(acked := true);
    assert Single([PROMPT, RESPONSE], SETTLED_ROW, SETTLED_NOTES).deliveries[0 := row] == [row];
    hide Notes;
  }

  /** Materialise the response: read, append, bind, move the Offset, acknowledge. */
  const SETTLE: seq<Input> := [Go] + [Json([], 0)] + Gos(4)

  const THREE: seq<Rec> := [PROMPT, RESPONSE, NEXT_PROMPT]

  lemma SettledRun()
    ensures Initial(NEW)
    ensures Run(NEW, AnswerActs([PROMPT]) + Inputs(SETTLE)) == AtPc(Answering([PROMPT]), Settled([PROMPT, RESPONSE], 1, 2), Idle)
  {
    var log, e := [PROMPT], [StartedNote, TerminalNote];
    var db0, db1 := Single(log, ANSWERED_ROW, e), Single([PROMPT, RESPONSE], ANSWERED_ROW, e);
    var db2 := Single([PROMPT, RESPONSE], SETTLED_ROW, SETTLED_NOTES);
    var db3 := db2.(offset := 1, revision := 2);
    var p := Payload("a", 1, Some("x"), 0.0);
    AnswerRun(log);
    SettledMoves(NEW.budget);
    AnsweringIs(db0, Materializing(0));
    var s := AtPc(Answering(log), db0, Materializing(0));
    AtPcAgain(Answering(log), db0, Materializing(0), Settled([PROMPT, RESPONSE], 1, 2), Idle);
    assert SETTLE == [Go] + [Json([], 0)] + [Go] + [Go] + [Go] + [Go];
    hide *;
    ThenDrive(AnswerActs(log), s, SETTLE);
    Moves(s, Go, db0, Responding(0, p));
    ThenMoves(s, [Go], db0, Responding(0, p), Json([], 0), db1, Binding(0, 2));
    ThenMoves(s, [Go] + [Json([], 0)], db1, Binding(0, 2), Go, db2, Advancing(1, None, ThenAck(0)));
    ThenMoves(s, [Go] + [Json([], 0)] + [Go], db2, Advancing(1, None, ThenAck(0)), Go, db2, Advancing(1, Some(1), ThenAck(0)));
    ThenMoves(s, [Go] + [Json([], 0)] + [Go] + [Go], db2, Advancing(1, Some(1), ThenAck(0)), Go, db3, Acking(0));
    ThenMoves(s, [Go] + [Json([], 0)] + [Go] + [Go] + [Go], db3, Acking(0), Go, Settled([PROMPT, RESPONSE], 1, 2), Idle);
  }

  lemma AnsweringIs(db: Ledger, pc: Pc)
    ensures Owning(Answering([PROMPT]))
    ensures var s := AtPc(Answering([PROMPT]), db, pc);
            && Owning(s) && s.procs["o"] == Proc(TOKEN, pc) && s.db == db && s.kernel.now == 0.0 && s.budget == NEW.budget
            && s.taken == [FIRST_TURN] && s.unproven == {}
  {
  }

  // ---------------------------------------------------------------- ...the next prompt, in the same session

  const SECOND_ROW := Attempt(3, 1, 1, None, 7, NotStarted, [], None, None, None, 0.0, None, false)

  const SECOND_TURN := Turn(1, 3, 0, {}, Redirects(1, {}), false)

  /** The second attempt at `row`. */
  function Second(row: Attempt, extra: seq<Note>): Ledger {
    var db := Settled(THREE, 2, 3);
    db.(deliveries := db.deliveries + [row], evidence := db.evidence + [Note(AttemptCreated, Some(1))] + extra)
  }

  lemma NextMoves(b: CatchUp.Budget)
    ensures var db := Settled(THREE, 1, 2);
            && Calm(db) && |db.log| == 3 && db.offset == 1
            && MoveOf(db, Idle, Go, true, 1, 0.0, b) == Goes(db, Gate(AtStart))
            && MoveOf(db, Swept(AtStart), Go, true, 1, 0.0, b) == Goes(db, Clear)
            && MoveOf(db, Clear, Go, true, 1, 0.0, b) == Goes(db, Scan(1))
            && MoveOf(db, Scan(1), Go, true, 1, 0.0, b) == Goes(db, Advancing(2, None, ThenScan))
  {
    hide Notes;
    assert Settled(THREE, 1, 2).deliveries[..1] == Settled(THREE, 1, 2).deliveries;
    assert PromoteFirst(Settled(THREE, 1, 2), 0) == Settled(THREE, 1, 2);
  }

  lemma SkipMoves(b: CatchUp.Budget)
    ensures var db, db1 := Settled(THREE, 1, 2), Settled(THREE, 2, 3);
            && MoveOf(db, Advancing(2, None, ThenScan), Go, true, 1, 0.0, b) == Goes(db, Advancing(2, Some(2), ThenScan))
            && MoveOf(db, Advancing(2, Some(2), ThenScan), Go, true, 1, 0.0, b) == Goes(db1, Scan(2))
            && MoveOf(db1, Scan(2), Go, true, 1, 0.0, b) == Goes(db1, Chosen(3, None))
  {
    hide Notes;
    AdvanceMoves(Settled(THREE, 1, 2), 2, ThenScan, 1, 0.0, b);
  }

  lemma SecondBegun()
    ensures BeginAttempt(Settled(THREE, 2, 3), 3, None, 1) == Ok((Second(SECOND_ROW, []), 1))
    ensures var db := Second(SECOND_ROW, []); Calm(db) && db.offset == 2 && |db.log| == 3
  {
    assert |Notes(SETTLED_NOTES + [OffsetAcked])| == 6;
    hide Notes;
    var db := Settled(THREE, 2, 3);
    var notes: seq<Note> := [];
    assert db.evidence + [Note(AttemptCreated, Some(1))] == db.evidence + [Note(AttemptCreated, Some(1))] + notes;
    assert db.deliveries[..0] == [] && LastAttempt(db.deliveries, 3) == None;
  }

  lemma ChosenMove(b: CatchUp.Budget)
    ensures MoveOf(Settled(THREE, 2, 3), Chosen(3, None), Go, true, 1, 0.0, b) == Goes(Second(SECOND_ROW, []), Gate(AtBegun(1)))
  {
    SecondBegun();
    hide BeginAttempt, Settled, Second;
  }

  const NEXT_ACTS: seq<Action> := AnswerActs([PROMPT]) + Inputs(SETTLE) + [Append(NEXT_PROMPT)]

  lemma NextPrompted()
    ensures Initial(NEW) && Run(NEW, NEXT_ACTS) == AtPc(Answering([PROMPT]), Settled(THREE, 1, 2), Idle)
  {
    SettledRun();
    ThenRun(AnswerActs([PROMPT]) + Inputs(SETTLE), Append(NEXT_PROMPT));
    var s := AtPc(Answering([PROMPT]), Settled([PROMPT, RESPONSE], 1, 2), Idle);
    assert s.db.log == [PROMPT, RESPONSE] && s.db.log + [NEXT_PROMPT] == THREE;
    AbsentKey([PROMPT, RESPONSE], "u", ClientKey("2"));
    hide Run, AnswerActs, Inputs, Notes, FindKey;
    assert Next(s, Append(NEXT_PROMPT)) == s.(db := s.db.(log := THREE));
  }

  lemma NextBegun()
    ensures Drive(AtPc(Answering([PROMPT]), Settled(THREE, 1, 2), Idle), Gos(17))
            == AtPc(Answering([PROMPT]), Second(SECOND_ROW, []), Admitted(1))
  {
    var db, db1, db2 := Settled(THREE, 1, 2), Settled(THREE, 2, 3), Second(SECOND_ROW, []);
    AnsweringIs(db, Idle);
    var s := AtPc(Answering([PROMPT]), db, Idle);
    AtPcAgain(Answering([PROMPT]), db, Idle, db2, Admitted(1));
    NextMoves(NEW.budget);
    SkipMoves(NEW.budget);
    SecondBegun();
    ChosenMove(NEW.budget);
    assert Beyond(AtBegun(1)) == Admitted(1);
    hide *;
    GosOne();
    Moves(s, Go, db, Gate(AtStart));
    PassGate(s, 1, db, AtStart, 2);
    ThenGoes(s, 5, db, Swept(AtStart), db, Clear);
    ThenGoes(s, 6, db, Clear, db, Scan(1));
    ThenGoes(s, 7, db, Scan(1), db, Advancing(2, None, ThenScan));
    ThenGoes(s, 8, db, Advancing(2, None, ThenScan), db, Advancing(2, Some(2), ThenScan));
    ThenGoes(s, 9, db, Advancing(2, Some(2), ThenScan), db1, Scan(2));
    ThenGoes(s, 10, db1, Scan(2), db1, Chosen(3, None));
    ThenGoes(s, 11, db1, Chosen(3, None), db2, Gate(AtBegun(1)));
    PassGate(s, 12, db2, AtBegun(1), 1);
  }

  const RESUMED_ROW := SECOND_ROW.(session := Some(0))

  const MARK_NOTE := Note(AboutToInvoke(0), Some(1))

  const NAME_NOTES: seq<Note> := [MARK_NOTE, Note(StartedNote, Some(1))]

  lemma ResumeMove(b: CatchUp.Budget)
    ensures MoveOf(Second(SECOND_ROW, []), Admitted(1), Input.Resume(0), true, 1, 0.0, b) == Goes(Second(RESUMED_ROW, []), Resolved(1, 0))
  {
    var db, db' := Second(SECOND_ROW, []), Second(RESUMED_ROW, []);
    assert db.deliveries[1 := RESUMED_ROW] == db'.deliveries;
    assert db.sessions[0 := db.sessions[0].(state := Active)] == db.sessions;
    hide Notes, LocalSeen, OthersRan, NativeDelta;
    forall after: nat ensures !OthersRan(db.deliveries, 0, after, 3) {
      NoOthers(db.deliveries, 0, after, 3);
    }
    assert Resumable(db, 0, 3, b);
    hide Resumable;
  }

  lemma NoOthers(ds: seq<Attempt>, g: nat, after: nat, position: nat)
    requires forall i :: 0 <= i < |ds| ==> ds[i].session.None? || ds[i].session == Some(g)
    ensures !OthersRan(ds, g, after, position)
  {
  }

  /** The second turn is fed nothing, and is no evidence of what the session saw. */
  lemma SecondTurn(b: CatchUp.Budget)
    ensures var db := Second(RESUMED_ROW, []);
            && |db.deliveries| == 2 && |db.sessions| == 1 && |db.log| == 3 && db.offset == 2 && Calm(db)
            && db.deliveries[1] == RESUMED_ROW && TurnFor(db, 1, 0, b) == Some(SECOND_TURN)
  {
    hide TurnFor, Notes, NativeDelta, LocalDelta, CatchUp.Projected;
    var db := Second(RESUMED_ROW, []);
    assert db.deliveries[0].session == Some(0) && !db.deliveries[0].certainty.NotStarted?;
    assert Ran(db.deliveries, 0);
    assert db.deliveries[..1][..0] == [] && db.deliveries[..1][0] == db.deliveries[0];
    assert LastRun(db.deliveries[..1]) == 1 && LastRun(db.deliveries) == 1 && AllSteered(db) == {};
    LocalFeedsNothing(db, 1, 0, b);
  }

  const MARKED_ROW := RESUMED_ROW.(markers := [Open])
  const RUNNING_ROW := MARKED_ROW.(certainty := Started)
  const SECOND_NAMED := RUNNING_ROW.(execution := Some("y"))

  lemma SecondMarked()
    ensures WithMarker(Second(RESUMED_ROW, []), 1) == Second(MARKED_ROW, [MARK_NOTE])
  {
    var db0, db1 := Second(RESUMED_ROW, []), Second(MARKED_ROW, [MARK_NOTE]);
    assert db0.deliveries[1 := MARKED_ROW] == db1.deliveries && db0.evidence + [MARK_NOTE] == db1.evidence;
    hide Notes;
  }

  lemma SecondMoves(b: CatchUp.Budget)
    ensures MoveOf(Second(MARKED_ROW, [MARK_NOTE]), Live(SECOND_TURN, 0, false), StartedEvent("y"), true, 1, 0.0, b)
            == Goes(Second(RUNNING_ROW, NAME_NOTES), Naming(SECOND_TURN, 0, "y"))
    ensures MoveOf(Second(RUNNING_ROW, NAME_NOTES), Naming(SECOND_TURN, 0, "y"), Go, true, 1, 0.0, b)
            == Goes(Second(SECOND_NAMED, NAME_NOTES), Live(SECOND_TURN, 0, true))
  {
    hide Notes;
    var db1, db2 := Second(MARKED_ROW, [MARK_NOTE]), Second(RUNNING_ROW, NAME_NOTES);
    assert db1.deliveries[1 := RUNNING_ROW] == db2.deliveries && db1.evidence + [Note(StartedNote, Some(1))] == db2.evidence;
    assert db2.deliveries[1 := SECOND_NAMED] == Second(SECOND_NAMED, NAME_NOTES).deliveries;
  }

  /** The second result binds the session at position 3. */
  lemma SecondBinds() returns (db: Ledger)
    ensures FinalizeTerminal(Second(SECOND_NAMED, NAME_NOTES), 1, "b", Some("v"), Some(ProvenanceOf(SECOND_TURN)), 0.0) == Ok((db, First))
    ensures db.peer == "p" && db.log == THREE && db.sessions == [Session(false, Active, Some("v"), Some(3), Some(false))]
  {
    hide Notes;
    var db0 := Second(SECOND_NAMED, NAME_NOTES);
    assert db0.deliveries[1] == SECOND_NAMED && db0.sessions == [Session(false, Active, None, None, None)];
    db := FinalizeTerminal(db0, 1, "b", Some("v"), Some(ProvenanceOf(SECOND_TURN)), 0.0).value.0;
  }

  /** The system at the second call, but for the cycle. */
  function Recalled(): State {
    var s := Answering([PROMPT]);
    s.(calls := s.calls + [Mark(1, 0)], turns := s.turns[Mark(1, 0) := SECOND_TURN])
  }

  lemma NextCalled()
    ensures Drive(AtPc(Answering([PROMPT]), Settled(THREE, 1, 2), Idle), Gos(17) + [Input.Resume(0)] + Gos(14))
            == AtPc(Recalled(), Second(MARKED_ROW, [MARK_NOTE]), Live(SECOND_TURN, 0, false))
  {
    var a, db, db1, db2 := Answering([PROMPT]), Settled(THREE, 1, 2), Second(SECOND_ROW, []), Second(RESUMED_ROW, []);
    var s, s2 := AtPc(a, db, Idle), AtPc(a, db2, Resolved(1, 0));
    NextBegun();
    ResumeMove(NEW.budget);
    SecondTurn(NEW.budget);
    SecondMarked();
    AnsweringIs(db, Idle);
    AnsweringIs(db2, Resolved(1, 0));
    AtPcAgain(a, db, Idle, db1, Admitted(1));
    AtPcAgain(a, db, Idle, db2, Resolved(1, 0));
    RecalledIs();
    hide *;
    ThenMoves(s, Gos(17), db1, Admitted(1), Input.Resume(0), db2, Resolved(1, 0));
    CallSteps(s2, 1, 0, SECOND_TURN, 1);
    DriveConcat(s, Gos(17) + [Input.Resume(0)], Gos(14));
  }

  lemma RecalledIs()
    ensures SECOND_TURN.did == 1 && RESUMED_ROW.certainty.NotStarted? && RESUMED_ROW.markers == []
    ensures AtCall(AtPc(Answering([PROMPT]), Second(RESUMED_ROW, []), Resolved(1, 0)), Second(MARKED_ROW, [MARK_NOTE]), SECOND_TURN)
            == AtPc(Recalled(), Second(MARKED_ROW, [MARK_NOTE]), Live(SECOND_TURN, 0, false))
  {
    hide Notes;
  }

  lemma RecalledReady(db: Ledger, pc: Pc, db': Ledger, pc': Pc)
    ensures Owning(Recalled())
    ensures var s := AtPc(Recalled(), db, pc);
            && Owning(s) && s.procs["o"] == Proc(TOKEN, pc) && s.db == db && s.kernel.now == 0.0 && s.budget == NEW.budget
            && s.turns == Recalled().turns && s.taken == Recalled().taken && AtPc(s, db', pc') == AtPc(Recalled(), db', pc')
  {
  }

  lemma SecondTaken()
    ensures Recalled().taken + Ended(Second(SECOND_NAMED, NAME_NOTES), Recalled().turns, 1) == [FIRST_TURN, SECOND_TURN]
  {
    hide Notes;
    assert Second(SECOND_NAMED, NAME_NOTES).deliveries[1] == SECOND_NAMED && SECOND_NAMED.markers == [Open];
  }

  const SECOND_ANSWER: seq<Input> := [StartedEvent("y")] + [Go] + [TerminalEvent("b", Some("v"))]

  lemma NextAnswered()
    ensures Drive(AtPc(Recalled(), Second(MARKED_ROW, [MARK_NOTE]), Live(SECOND_TURN, 0, false)), SECOND_ANSWER)
            == AtPc(Recalled(), Second(SECOND_NAMED, NAME_NOTES), Finalizing(SECOND_TURN, "b", Some("v")))
  {
    var db0, db1, db2 := Second(MARKED_ROW, [MARK_NOTE]), Second(RUNNING_ROW, NAME_NOTES), Second(SECOND_NAMED, NAME_NOTES);
    var s := AtPc(Recalled(), db0, Live(SECOND_TURN, 0, false));
    RecalledReady(db0, Live(SECOND_TURN, 0, false), db2, Finalizing(SECOND_TURN, "b", Some("v")));
    SecondMoves(NEW.budget);
    EndMove(db2, SECOND_TURN, "b", Some("v"), 1, 0.0, NEW.budget);
    hide *;
    Moves(s, StartedEvent("y"), db1, Naming(SECOND_TURN, 0, "y"));
    ThenMoves(s, [StartedEvent("y")], db1, Naming(SECOND_TURN, 0, "y"), Go, db2, Live(SECOND_TURN, 0, true));
    ThenMoves(s, [StartedEvent("y")] + [Go], db2, Live(SECOND_TURN, 0, true), TerminalEvent("b", Some("v")),
              db2, Finalizing(SECOND_TURN, "b", Some("v")));
  }

  lemma NextCommitted() returns (db: Ledger)
    ensures var s := Drive(AtPc(Recalled(), Second(SECOND_NAMED, NAME_NOTES), Finalizing(SECOND_TURN, "b", Some("v"))), [Go]);
            s.db == db && s.taken == [FIRST_TURN, SECOND_TURN]
    ensures db.peer == "p" && db.log == THREE && db.sessions == [Session(false, Active, Some("v"), Some(3), Some(false))]
  {
    var db0 := Second(SECOND_NAMED, NAME_NOTES);
    db := SecondBinds();
    SecondTaken();
    RecalledReady(db0, Finalizing(SECOND_TURN, "b", Some("v")), db, Materializing(1));
    assert SECOND_TURN.did == 1;
    hide FinalizeTerminal, Second, Recalled, Drive, Unproven, Ended, TokenPasses;
    CommitStep(AtPc(Recalled(), db0, Finalizing(SECOND_TURN, "b", Some("v"))), SECOND_TURN, "b", Some("v"), db);
  }

  /** The first prompt is answered; a second one is appended and delivered into the same session, which resumes as a local one. */
  const SECOND_CALL: seq<Input> := Gos(17) + [Input.Resume(0)] + Gos(14)

  const GAP_ACTS: seq<Action> := NEXT_ACTS + Inputs(SECOND_CALL) + Inputs(SECOND_ANSWER) + Inputs([Go])

  /** The second turn first reports a vendor session: the session claims to have seen everything up to position 3, but was never shown
      position 2, its own response to the first prompt. */
  lemma GapRun()
    ensures Initial(NEW)
    ensures var s := Run(NEW, GAP_ACTS);
            && s.db.log == THREE && s.taken == [FIRST_TURN, SECOND_TURN] && |s.db.sessions| == 1
            && Proven(s.db.sessions[0]) && s.db.sessions[0].watermark == Some(3)
            && !Covered(s.db, s.budget, s.taken, 0, 2) && !NoGap(s, 0)
  {
    var s1, s2 := AtPc(Answering([PROMPT]), Settled(THREE, 1, 2), Idle), AtPc(Recalled(), Second(MARKED_ROW, [MARK_NOTE]), Live(SECOND_TURN, 0, false));
    var s3 := AtPc(Recalled(), Second(SECOND_NAMED, NAME_NOTES), Finalizing(SECOND_TURN, "b", Some("v")));
    NextPrompted();
    NextCalled();
    NextAnswered();
    var db := NextCommitted();
    ThenDrive(NEXT_ACTS, s1, SECOND_CALL);
    ThenDrive(NEXT_ACTS + Inputs(SECOND_CALL), s2, SECOND_ANSWER);
    ThenDrive(NEXT_ACTS + Inputs(SECOND_CALL) + Inputs(SECOND_ANSWER), s3, [Go]);
    hide Run, Drive, AnswerActs, Inputs, Gos, Second, Settled, NoGap, Covered;
    Uncovered(Run(NEW, GAP_ACTS));
  }

  lemma Uncovered(s: State)
    requires s.db.log == THREE && s.db.peer == "p" && s.taken == [FIRST_TURN, SECOND_TURN]
    requires |s.db.sessions| == 1 && s.db.sessions[0].watermark == Some(3)
    ensures !Covered(s.db, s.budget, s.taken, 0, 2) && !NoGap(s, 0)
  {
    assert At(s.db, 2) == RESPONSE;
    forall i | 0 <= i < 2 ensures !ShowsAt("p", THREE, s.budget, s.taken[i], 2) {
    }
    assert !Shown(s.db, FedTo(s.taken, 0), 2);
  }
}
