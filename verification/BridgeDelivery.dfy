/**
 The runtime event loop and what follows it, on the Bridge object.

 Whatever events the runtime yields or raises, the loop is a run of the cycle's own steps: it starts where the call was made, ends at
 rest, and keeps the ledger laws.
 */
module BridgeDelivery {
  import opened Wrappers
  import opened BridgeLedger
  import opened BridgeContext
  import opened BridgeInvariant
  import opened BridgeMachine
  import opened BridgeSafety
  import opened BridgeStore
  import CatchUp

  /** What `runtime.deliver` does next: yield an event, or raise. The sequence ends when the stream does. */
  datatype RuntimeEvent =
    | EvStarted(execution: string)
    | EvOutput
    | EvTerminal(value: string, vendor: Option<string>)
    | EvRefusal(code: string, valid: bool)
    | EvOther
    | RaisePrespawn(contextLost: bool)
    | RaiseTarget

  /** Everything the environment contributes besides the events. */
  datatype Setting = Setting(claim: nat, now: real, budget: CatchUp.Budget)

  /** The cycle's own steps with a current token and no other owner in between. */
  ghost function Solo(db: Ledger, pc: Pc, inputs: seq<Input>, e: Setting): (Ledger, Pc)
    decreases |inputs|
  {
    if inputs == [] then (db, pc)
    else
      var (d, p) := Solo(db, pc, inputs[..|inputs| - 1], e);
      match MoveOf(d, p, inputs[|inputs| - 1], true, e.claim, e.now, e.budget)
      case Stays => (d, p)
      case Raises(d') => (d', Idle)
      case Goes(d', p') => (d', p')
  }

  lemma SoloSnoc(db: Ledger, pc: Pc, inputs: seq<Input>, x: Input, e: Setting)
    ensures var (d, p) := Solo(db, pc, inputs, e);
            Solo(db, pc, inputs + [x], e) ==
            match MoveOf(d, p, x, true, e.claim, e.now, e.budget)
            case Stays => (d, p)
            case Raises(d') => (d', Idle)
            case Goes(d', p') => (d', p')
  {
    assert (inputs + [x])[..|inputs|] == inputs;
    hide MoveOf;
  }

  lemma {:induction false} SoloConcat(db: Ledger, pc: Pc, a: seq<Input>, b: seq<Input>, e: Setting)
    ensures Solo(db, pc, a + b, e) == Solo(Solo(db, pc, a, e).0, Solo(db, pc, a, e).1, b, e)
    decreases |b|
  {
    hide MoveOf;
    if b == [] {
      assert a + b == a;
    } else {
      var t := b[..|b| - 1];
      assert (a + b)[..|a + b| - 1] == a + t;
      SoloConcat(db, pc, a, t, e);
    }
  }

  /** A step taken alone. */
  lemma SoloOne(db: Ledger, pc: Pc, x: Input, e: Setting)
    ensures Solo(db, pc, [x], e) ==
            match MoveOf(db, pc, x, true, e.claim, e.now, e.budget)
            case Stays => (db, pc)
            case Raises(d') => (d', Idle)
            case Goes(d', p') => (d', p')
  {
    assert [x][..0] == [];
    hide MoveOf;
  }

  // ---------------------------------------------------------------- materialisation as steps

  function MaterializeScript(db: Ledger, did: nat, json: seq<CatchUp.byte>, tokens: nat): seq<Input>
    requires did < |db.deliveries|
  {
    if AppendResponse(db, did, PayloadOf(db.deliveries[did]), json, tokens).Err? then [Go, Json(json, tokens)]
    else [Go, Json(json, tokens)] + [Go] + (if db.offset >= db.deliveries[did].position then [Go] else [Go, Go]) + [Go]
  }

  lemma ReadStep(db: Ledger, did: nat, e: Setting)
    requires did < |db.deliveries|
    ensures MoveOf(db, Materializing(did), Go, true, e.claim, e.now, e.budget) == Goes(db, Responding(did, PayloadOf(db.deliveries[did])))
  {
  }

  lemma RefusedStep(db: Ledger, did: nat, json: seq<CatchUp.byte>, tokens: nat, e: Setting)
    requires did < |db.deliveries| && AppendResponse(db, did, PayloadOf(db.deliveries[did]), json, tokens).Err?
    ensures Solo(db, Materializing(did), [Go, Json(json, tokens)], e) == (Materialized(db, did, json, tokens), Idle)
  {
    ReadStep(db, did, e);
    SoloOne(db, Materializing(did), Go, e);
    assert [Go] + [Json(json, tokens)] == [Go, Json(json, tokens)];
    SoloSnoc(db, Materializing(did), [Go], Json(json, tokens), e);
    hide AppendResponse, Solo;
  }

  lemma RespondStep(db: Ledger, did: nat, json: seq<CatchUp.byte>, tokens: nat, e: Setting)
    requires did < |db.deliveries| && AppendResponse(db, did, PayloadOf(db.deliveries[did]), json, tokens).Ok?
    ensures var p := PayloadOf(db.deliveries[did]); var (db1, k) := AppendResponse(db, did, p, json, tokens).value;
            MoveOf(db, Responding(did, p), Json(json, tokens), true, e.claim, e.now, e.budget) == Goes(db1, Binding(did, k))
  {
    hide AppendResponse;
  }

  lemma BindStep(db: Ledger, did: nat, k: nat, e: Setting)
    requires did < |db.deliveries|
    ensures MoveOf(db, Binding(did, k), Go, true, e.claim, e.now, e.budget)
            == Goes(BindResponse(db, did, k).value, Advancing(db.deliveries[did].position, None, ThenAck(did)))
  {
  }

  lemma AdvanceSteps(db: Ledger, target: nat, did: nat, e: Setting)
    requires target <= |db.log|
    ensures Solo(db, Advancing(target, None, ThenAck(did)), if db.offset >= target then [Go] else [Go, Go], e) == (AdvancedTo(db, target), Acking(did))
  {
    SoloOne(db, Advancing(target, None, ThenAck(did)), Go, e);
    if db.offset < target {
      assert [Go] + [Go] == [Go, Go];
      SoloSnoc(db, Advancing(target, None, ThenAck(did)), [Go], Go, e);
    }
    hide Solo;
  }

  lemma AckStep(db: Ledger, did: nat, e: Setting)
    requires did < |db.deliveries|
    ensures MoveOf(db, Acking(did), Go, true, e.claim, e.now, e.budget) == Goes(Ack(db, did).value, Idle)
  {
  }

  /** Materialisation is a run of steps that ends at rest. */
  lemma MaterializeSteps(db: Ledger, did: nat, json: seq<CatchUp.byte>, tokens: nat, e: Setting)
    requires LedgerOk(db) && did < |db.deliveries| && db.deliveries[did].certainty.Terminal?
    ensures Solo(db, Materializing(did), MaterializeScript(db, did, json, tokens), e) == (Materialized(db, did, json, tokens), Idle)
  {
    hide MoveOf, LedgerOk, AppendResponse, Grows, Answers, Solo, IsControl, BindResponse, Ack, AdvancedTo, Materialized;
    if AppendResponse(db, did, PayloadOf(db.deliveries[did]), json, tokens).Err? {
      RefusedStep(db, did, json, tokens, e);
    } else {
      RespondedSteps(db, did, json, tokens, e);
    }
  }

  lemma RespondedSteps(db: Ledger, did: nat, json: seq<CatchUp.byte>, tokens: nat, e: Setting)
    requires LedgerOk(db) && did < |db.deliveries| && db.deliveries[did].certainty.Terminal?
    requires AppendResponse(db, did, PayloadOf(db.deliveries[did]), json, tokens).Ok?
    ensures Solo(db, Materializing(did), MaterializeScript(db, did, json, tokens), e) == (Materialized(db, did, json, tokens), Idle)
  {
    hide MoveOf, LedgerOk, AppendResponse, Grows, Answers, Solo, IsControl, BindResponse, Ack, AdvancedTo, Materialized;
    var p := PayloadOf(db.deliveries[did]);
    DeliverableAt(db, did);
    AppendKeeps(db, did, p, json, tokens);
    var (db1, k) := AppendResponse(db, did, p, json, tokens).value;
    var position := db.deliveries[did].position;
    BindKeeps(db1, did, k);
    var db2 := BindResponse(db1, did, k).value;
    var db3 := AdvancedTo(db2, position);
    AdvanceKeeps(db2, position);
    ReadStep(db, did, e);
    RespondStep(db, did, json, tokens, e);
    BindStep(db1, did, k, e);
    AdvanceSteps(db2, position, did, e);
    AckStep(db3, did, e);
    MaterializedMeans(db, did, json, tokens);
    SoloTwo(db, Materializing(did), Go, db, Responding(did, p), Json(json, tokens), db1, Binding(did, k), e);
    SoloSnoc(db, Materializing(did), [Go, Json(json, tokens)], Go, e);
    var first := [Go, Json(json, tokens)] + [Go];
    var advance := if db.offset >= position then [Go] else [Go, Go];
    SoloConcat(db, Materializing(did), first, advance, e);
    SoloSnoc(db, Materializing(did), first + advance, Go, e);
    assert MaterializeScript(db, did, json, tokens) == first + advance + [Go];
  }

  lemma BindKeeps(db: Ledger, did: nat, k: nat)
    requires did < |db.deliveries|
    ensures BindResponse(db, did, k).Ok?
    ensures var db1 := BindResponse(db, did, k).value;
            db1.offset == db.offset && db1.log == db.log && |db1.deliveries| == |db.deliveries|
  {
  }

  lemma AdvanceKeeps(db: Ledger, position: nat)
    ensures AdvancedTo(db, position).deliveries == db.deliveries
  {
  }

  lemma AppendKeeps(db: Ledger, did: nat, p: Payload, json: seq<CatchUp.byte>, tokens: nat)
    requires AppendResponse(db, did, p, json, tokens).Ok?
    ensures var db1 := AppendResponse(db, did, p, json, tokens).value.0;
            db1.offset == db.offset && db1.revision == db.revision && |db.log| <= |db1.log| && db1.deliveries == db.deliveries
  {
  }

  // ---------------------------------------------------------------- the event loop

  /** How the loop ended: the stream ended or broke off, terminal or refusal evidence, or an exception. */
  datatype Ending =
    | Broken
    | GotTerminal(value: string, vendor: Option<string>)
    | GotRefusal(code: string)
    | Prespawned(contextLost: bool)

  /** No callback has finalized the delivery meanwhile. */
  predicate LiveRow(db: Ledger, t: Turn, started: bool) {
    t.did < |db.deliveries| && if started then db.deliveries[t.did].certainty.Started? else db.deliveries[t.did].certainty.NotStarted?
  }

  lemma StartSteps(db: Ledger, w: Past, t: Turn, n: nat, started: bool, execution: string, e: Setting)
    requires LedgerOk(db) && View(db, w, Live(t, n, started)) && LiveRow(db, t, started)
    ensures t.did < |db.deliveries| && Transition(db, t.did, Started, StartedNote).Ok?
    ensures var db1 := Transition(db, t.did, Started, StartedNote).value;
            BindExecution(db1, t.did, execution).Ok? &&
            var db2 := BindExecution(db1, t.did, execution).value;
            && Solo(db, Live(t, n, started), [StartedEvent(execution), Go], e) == (db2, Live(t, n, true))
            && LedgerOk(db2) && Grows(db, db2) && LiveRow(db2, t, true) && View(db2, w, Live(t, n, true))
  {
    hide *;
    StartAllowed(db, w, t, n, started, execution, e);
    var db1 := Transition(db, t.did, Started, StartedNote).value;
    var db2 := BindExecution(db1, t.did, execution).value;
    StartStep(db, w, t, n, started, execution, e);
    NameStep(db1, w, t, n, execution, e);
    GrowsTrans(db, db1, db2);
    SoloOne(db, Live(t, n, started), StartedEvent(execution), e);
    assert [StartedEvent(execution)] + [Go] == [StartedEvent(execution), Go];
    SoloSnoc(db, Live(t, n, started), [StartedEvent(execution)], Go, e);
  }

  lemma StartStep(db: Ledger, w: Past, t: Turn, n: nat, started: bool, execution: string, e: Setting)
    requires LedgerOk(db) && View(db, w, Live(t, n, started)) && Transition(db, t.did, Started, StartedNote).Ok?
    ensures var db1 := Transition(db, t.did, Started, StartedNote).value;
            && LedgerOk(db1) && Grows(db, db1) && View(db1, w, Naming(t, n, execution))
            && MoveOf(db, Live(t, n, started), StartedEvent(execution), true, e.claim, e.now, e.budget) == Goes(db1, Naming(t, n, execution))
  {
    StartedKept(db, w, t, n, started, execution);
    hide LedgerOk, Grows, View, Transition;
  }

  lemma NameStep(db: Ledger, w: Past, t: Turn, n: nat, execution: string, e: Setting)
    requires LedgerOk(db) && View(db, w, Naming(t, n, execution)) && BindExecution(db, t.did, execution).Ok?
    ensures var db1 := BindExecution(db, t.did, execution).value;
            && LedgerOk(db1) && Grows(db, db1) && View(db1, w, Live(t, n, true))
            && MoveOf(db, Naming(t, n, execution), Go, true, e.claim, e.now, e.budget) == Goes(db1, Live(t, n, true))
  {
    NamingKept(db, w, t, n, execution, Go);
    hide LedgerOk, Grows, View, BindExecution;
  }

  lemma StartAllowed(db: Ledger, w: Past, t: Turn, n: nat, started: bool, execution: string, e: Setting)
    requires LedgerOk(db) && View(db, w, Live(t, n, started)) && LiveRow(db, t, started)
    ensures t.did < |db.deliveries| && Transition(db, t.did, Started, StartedNote).Ok?
    ensures BindExecution(Transition(db, t.did, Started, StartedNote).value, t.did, execution).Ok?
    ensures LiveRow(BindExecution(Transition(db, t.did, Started, StartedNote).value, t.did, execution).value, t, true)
  {
    hide LedgerOk, FeedOk;
  }

  method PumpEvents(br: Bridge, t: Turn, n: nat, events: seq<RuntimeEvent>, e: Setting, ghost w: Past)
    returns (ending: Ending, started: bool, ghost script: seq<Input>)
    requires LedgerOk(br.Contents()) && View(br.Contents(), w, Live(t, n, false))
    modifies br
    ensures LedgerOk(br.Contents()) && Grows(old(br.Contents()), br.Contents())
    ensures View(br.Contents(), w, Live(t, n, started)) && LiveRow(br.Contents(), t, started)
    ensures Solo(old(br.Contents()), Live(t, n, false), script, e) == (br.Contents(), Live(t, n, started))
    ensures ending.GotTerminal? || ending.GotRefusal? ==> started
  {
    hide *;
    ending, started, script := Broken, false, [];
    ghost var before := br.Contents();
    SelfGrows(before);
    SoloNone(before, Live(t, n, false), e);
    MarkedRow(before, w, t, n);
    var i := 0;
    while i < |events|
      invariant i <= |events| && ending == Broken
      invariant LedgerOk(br.Contents()) && Grows(before, br.Contents()) && View(br.Contents(), w, Live(t, n, started))
      invariant LiveRow(br.Contents(), t, started)
      invariant Solo(before, Live(t, n, false), script, e) == (br.Contents(), Live(t, n, started))
    {
      var ev := events[i];
      i := i + 1;
      match ev
      case EvStarted(execution) =>
        ghost var db := br.Contents();
        StartSteps(db, w, t, n, started, execution, e);
        var _ := br.MoveCertainty(t.did, Started, StartedNote);
        var _ := br.NameExecution(t.did, execution);
        SoloConcat(before, Live(t, n, false), script, [StartedEvent(execution), Go], e);
        script := script + [StartedEvent(execution), Go];
        GrowsTrans(before, db, br.Contents());
        started := true;
      case EvOutput => if !started { return; }
      case EvTerminal(value, vendor) =>
        if started { ending := GotTerminal(value, vendor); }
        return;
      case EvRefusal(code, valid) =>
        if started && valid { ending := GotRefusal(code); }
        return;
      case EvOther => return;
      case RaisePrespawn(lost) =>
        ending := Prespawned(lost);
        return;
      case RaiseTarget => return;
    }
  }

  lemma MarkedRow(db: Ledger, w: Past, t: Turn, n: nat)
    requires View(db, w, Live(t, n, false))
    ensures LiveRow(db, t, false)
  {
    hide FeedOk;
  }

  lemma SoloNone(db: Ledger, pc: Pc, e: Setting)
    ensures Solo(db, pc, [], e) == (db, pc)
  {
  }

  // ---------------------------------------------------------------- after the loop

  /** No terminal evidence: uncertain before a start event, a tainted session after one. */
  function BrokenEnd(db: Ledger, t: Turn, started: bool): Ledger {
    if started then db.(sessions := Taint(db.sessions, Some(t.session)))
    else match Transition(db, t.did, MayHaveStarted, StartUncertain) case Err(_) => db case Ok(d) => d
  }

  lemma SoloTwo(db: Ledger, pc: Pc, x: Input, db1: Ledger, pc1: Pc, y: Input, db2: Ledger, pc2: Pc, e: Setting)
    requires MoveOf(db, pc, x, true, e.claim, e.now, e.budget) == Goes(db1, pc1)
    requires MoveOf(db1, pc1, y, true, e.claim, e.now, e.budget) == Goes(db2, pc2)
    ensures Solo(db, pc, [x, y], e) == (db2, pc2)
  {
    hide MoveOf, Solo;
    SoloOne(db, pc, x, e);
    assert [x] + [y] == [x, y];
    SoloSnoc(db, pc, [x], y, e);
  }

  function Ditched(db: Ledger, g: nat, tainted: bool): Ledger {
    if tainted then db.(sessions := Taint(db.sessions, Some(g))) else LoseSession(db, g)
  }

  lemma DitchStep(db: Ledger, g: nat, tainted: bool, e: Setting)
    requires LedgerOk(db)
    ensures MoveOf(db, Ditching(g, tainted), Go, true, e.claim, e.now, e.budget) == Goes(Ditched(db, g, tainted), Idle)
    ensures LedgerOk(Ditched(db, g, tainted)) && Grows(db, Ditched(db, g, tainted))
  {
    hide LedgerOk, Grows;
    DitchMove(db, g, tainted, e);
    hide MoveOf, Ditched;
    SessionsOnlyOk(db, Ditched(db, g, tainted).sessions);
  }

  lemma DitchMove(db: Ledger, g: nat, tainted: bool, e: Setting)
    ensures MoveOf(db, Ditching(g, tainted), Go, true, e.claim, e.now, e.budget) == Goes(Ditched(db, g, tainted), Idle)
    ensures Ditched(db, g, tainted) == db.(sessions := Ditched(db, g, tainted).sessions)
  {
    hide Taint;
  }

  lemma BrokenSteps(db: Ledger, w: Past, t: Turn, n: nat, started: bool, e: Setting)
    requires LedgerOk(db) && View(db, w, Live(t, n, started))
    ensures Solo(db, Live(t, n, started), if started then [Vanish, Go] else [Vanish], e) == (BrokenEnd(db, t, started), Idle)
    ensures LedgerOk(BrokenEnd(db, t, started)) && Grows(db, BrokenEnd(db, t, started))
  {
    hide LedgerOk, Grows, View, Taint, Solo, LoseSession, Transition;
    if started {
      DitchStep(db, t.session, true, e);
      SoloTwo(db, Live(t, n, true), Vanish, db, Ditching(t.session, true), Go, BrokenEnd(db, t, true), Idle, e);
    } else {
      MayAllowed(db, w, t, n, e);
      MayStep(db, w, t, n, e);
      SoloOne(db, Live(t, n, false), Vanish, e);
      hide MoveOf;
    }
  }

  lemma MayStep(db: Ledger, w: Past, t: Turn, n: nat, e: Setting)
    requires LedgerOk(db) && View(db, w, Live(t, n, false)) && Transition(db, t.did, MayHaveStarted, StartUncertain).Ok?
    ensures var d := Transition(db, t.did, MayHaveStarted, StartUncertain).value;
            LedgerOk(d) && Grows(db, d) && MoveOf(db, Live(t, n, false), Vanish, true, e.claim, e.now, e.budget) == Goes(d, Idle)
  {
    hide LedgerOk, Grows, Transition, Marked, WasCalled;
    UncertainKept(db, w, t, n);
  }

  lemma MayAllowed(db: Ledger, w: Past, t: Turn, n: nat, e: Setting)
    requires LedgerOk(db) && View(db, w, Live(t, n, false))
    ensures Transition(db, t.did, MayHaveStarted, StartUncertain).Ok?
  {
    hide LedgerOk, FeedOk, Taint;
  }

  /** A proven pre-spawn failure resolves the marker; after a start event it is no such proof. A reported context loss costs the session. */
  function PrespawnEnd(db: Ledger, t: Turn, started: bool, lost: bool): Ledger {
    if started then Ditched(db, t.session, !lost)
    else
      match ResolveInvocation(db, t.did, PrespawnFailure)
      case Err(_) => db
      case Ok(d) => if lost then LoseSession(d, t.session) else d
  }

  function PrespawnScript(db: Ledger, t: Turn, started: bool, lost: bool): seq<Input> {
    if started || (lost && ResolveInvocation(db, t.did, PrespawnFailure).Ok?) then [Prespawn(lost), Go] else [Prespawn(lost)]
  }

  lemma PrespawnSteps(db: Ledger, w: Past, t: Turn, n: nat, started: bool, lost: bool, e: Setting)
    requires LedgerOk(db) && View(db, w, Live(t, n, started))
    ensures Solo(db, Live(t, n, started), PrespawnScript(db, t, started, lost), e) == (PrespawnEnd(db, t, started, lost), Idle)
    ensures LedgerOk(PrespawnEnd(db, t, started, lost)) && Grows(db, PrespawnEnd(db, t, started, lost))
  {
    hide LedgerOk, Grows, View, Taint, Solo, LoseSession, ResolveInvocation, Ditched;
    SelfGrows(db);
    if started {
      DitchStep(db, t.session, !lost, e);
      SoloTwo(db, Live(t, n, true), Prespawn(lost), db, Ditching(t.session, !lost), Go, PrespawnEnd(db, t, true, lost), Idle, e);
    } else if ResolveInvocation(db, t.did, PrespawnFailure).Ok? {
      var d := ResolveInvocation(db, t.did, PrespawnFailure).value;
      ResolveOk(db, t.did, PrespawnFailure);
      if lost {
        DitchStep(d, t.session, false, e);
        DitchedIs(d, t.session);
        GrowsTrans(db, d, LoseSession(d, t.session));
        SoloTwo(db, Live(t, n, false), Prespawn(true), d, Ditching(t.session, false), Go, PrespawnEnd(db, t, false, true), Idle, e);
      } else {
        SoloOne(db, Live(t, n, false), Prespawn(false), e);
      }
    } else {
      SoloOne(db, Live(t, n, false), Prespawn(lost), e);
    }
  }

  lemma DitchedIs(db: Ledger, g: nat)
    ensures Ditched(db, g, false) == LoseSession(db, g)
  {
  }

  lemma FinalAllowed(db: Ledger, w: Past, t: Turn, n: nat, value: string, vendor: Option<string>, e: Setting)
    requires View(db, w, Live(t, n, true)) && LiveRow(db, t, true)
    ensures var r := FinalizeTerminal(db, t.did, value, vendor, Some(ProvenanceOf(t)), e.now);
            r.Ok? && r.value.1.First? && t.did < |db.deliveries| == |r.value.0.deliveries|
  {
    hide FeedOk, CommitNative;
  }

  lemma FinalMoves(db: Ledger, t: Turn, n: nat, value: string, vendor: Option<string>, e: Setting)
    requires FinalizeTerminal(db, t.did, value, vendor, Some(ProvenanceOf(t)), e.now).Ok?
    requires !FinalizeTerminal(db, t.did, value, vendor, Some(ProvenanceOf(t)), e.now).value.1.Conflict?
    ensures MoveOf(db, Live(t, n, true), TerminalEvent(value, vendor), true, e.claim, e.now, e.budget) == Goes(db, Finalizing(t, value, vendor))
    ensures MoveOf(db, Finalizing(t, value, vendor), Go, true, e.claim, e.now, e.budget)
            == Goes(FinalizeTerminal(db, t.did, value, vendor, Some(ProvenanceOf(t)), e.now).value.0, Materializing(t.did))
  {
    hide FinalizeTerminal, ProvenanceOf, Transition;
  }

  lemma FinalSteps(db: Ledger, w: Past, t: Turn, n: nat, value: string, vendor: Option<string>,
                   json: seq<CatchUp.byte>, tokens: nat, e: Setting)
    requires LedgerOk(db) && View(db, w, Live(t, n, true)) && LiveRow(db, t, true)
    requires FinalizeTerminal(db, t.did, value, vendor, Some(ProvenanceOf(t)), e.now).Ok?
    requires FinalizeTerminal(db, t.did, value, vendor, Some(ProvenanceOf(t)), e.now).value.1.First?
    ensures var db1 := FinalizeTerminal(db, t.did, value, vendor, Some(ProvenanceOf(t)), e.now).value.0;
            && LedgerOk(db1) && Grows(db, db1) && t.did < |db1.deliveries| && db1.deliveries[t.did].certainty.Terminal?
            && Solo(db, Live(t, n, true), [TerminalEvent(value, vendor), Go] + MaterializeScript(db1, t.did, json, tokens), e)
               == (Materialized(db1, t.did, json, tokens), Idle)
  {
    var f := FinalizeTerminal(db, t.did, value, vendor, Some(ProvenanceOf(t)), e.now);
    var db1 := f.value.0;
    FinalAllowed(db, w, t, n, value, vendor, e);
    FinalizeOk(db, t.did, value, vendor, Some(ProvenanceOf(t)), e.now);
    hide *;
    FinalMoves(db, t, n, value, vendor, e);
    SoloTwo(db, Live(t, n, true), TerminalEvent(value, vendor), db, Finalizing(t, value, vendor), Go, db1, Materializing(t.did), e);
    MaterializeSteps(db1, t.did, json, tokens, e);
    SoloConcat(db, Live(t, n, true), [TerminalEvent(value, vendor), Go], MaterializeScript(db1, t.did, json, tokens), e);
  }

  // ---------------------------------------------------------------- refusals

  function RefusalScript(db: Ledger, did: nat, code: string): seq<Input>
    requires did < |db.deliveries|
  {
    [RefusalEvent(code), Go] + ([Go, Go] + ((if db.offset >= db.deliveries[did].position then [Go] else [Go, Go]) + [Go]))
  }

  lemma NoteStep(db: Ledger, t: Turn, code: string, e: Setting)
    ensures MoveOf(db, Noting(t, code), Go, true, e.claim, e.now, e.budget) == Goes(NoteRefusal(db, t.did, code), Settling(t.did, code))
  {
  }

  lemma SettleStepIs(db: Ledger, did: nat, code: string, e: Setting)
    requires did < |db.deliveries|
    ensures SettleRefusal(db, did, code).Ok?
    ensures MoveOf(db, Settling(did, code), Go, true, e.claim, e.now, e.budget) == Goes(SettleRefusal(db, did, code).value, Losing(did))
  {
  }

  function SessionDropped(db: Ledger, did: nat): Ledger
    requires did < |db.deliveries|
  {
    if db.deliveries[did].session.Some? then LoseSession(db, db.deliveries[did].session.value) else db
  }

  lemma LoseStep(db: Ledger, did: nat, e: Setting)
    requires did < |db.deliveries|
    ensures MoveOf(db, Losing(did), Go, true, e.claim, e.now, e.budget)
            == Goes(SessionDropped(db, did), Advancing(db.deliveries[did].position, None, ThenAck(did)))
  {
    hide LoseSession;
  }

  lemma RefusalKeeps(db: Ledger, did: nat, code: string)
    requires did < |db.deliveries|
    ensures var db1 := NoteRefusal(db, did, code); var db2 := SettleRefusal(db1, did, code).value; var db3 := SessionDropped(db2, did);
            && |db1.deliveries| == |db2.deliveries| == |db3.deliveries| == |db.deliveries|
            && db2.deliveries[did].position == db.deliveries[did].position && db2.deliveries[did].session == db.deliveries[did].session
            && db3.offset == db.offset && db3.revision == db.revision && db3.log == db.log
            && RefusedFully(db, did, code) == Ack(AdvancedTo(db3, db.deliveries[did].position), did).value
  {
  }

  /** A refusal is settled by steps that end at rest. */
  lemma RefusalRun(db: Ledger, w: Past, t: Turn, n: nat, code: string, e: Setting)
    requires LedgerOk(db) && View(db, w, Live(t, n, true)) && t.did < |db.deliveries|
    requires db.deliveries[t.did].position <= |db.log|
    ensures Solo(db, Live(t, n, true), RefusalScript(db, t.did, code), e) == (RefusedFully(db, t.did, code), Idle)
  {
    hide LedgerOk, View, NoteRefusal, SettleRefusal, SessionDropped, LoseSession, Solo, RefusedFully, Ack, AdvancedTo;
    var did, position := t.did, db.deliveries[t.did].position;
    var db1 := NoteRefusal(db, did, code);
    RefusalKeeps(db, did, code);
    SettleStepIs(db1, did, code, e);
    var db2 := SettleRefusal(db1, did, code).value;
    var db3 := SessionDropped(db2, did);
    NoteStep(db, t, code, e);
    LoseStep(db2, did, e);
    AdvanceSteps(db3, position, did, e);
    AdvanceKeeps(db3, position);
    AckStep(AdvancedTo(db3, position), did, e);
    SoloTwo(db, Live(t, n, true), RefusalEvent(code), db, Noting(t, code), Go, db1, Settling(did, code), e);
    SoloTwo(db1, Settling(did, code), Go, db2, Losing(did), Go, db3, Advancing(position, None, ThenAck(did)), e);
    var advance := if db.offset >= position then [Go] else [Go, Go];
    hide MoveOf;
    SoloOne(AdvancedTo(db3, position), Acking(did), Go, e);
    SoloConcat(db3, Advancing(position, None, ThenAck(did)), advance, [Go], e);
    SoloConcat(db1, Settling(did, code), [Go, Go], advance + [Go], e);
    SoloConcat(db, Live(t, n, true), [RefusalEvent(code), Go], [Go, Go] + (advance + [Go]), e);
  }

  /** ...and keeps the ledger laws. */
  lemma RefusalLaws(db: Ledger, t: Turn, code: string)
    requires LedgerOk(db) && LiveRow(db, t, true)
    ensures LedgerOk(RefusedFully(db, t.did, code)) && Grows(db, RefusedFully(db, t.did, code))
  {
    hide LedgerOk, Grows, NoteRefusal, SettleRefusal, SessionDropped, LoseSession, RefusedFully, Ack, AdvancedTo, AllAccounted, RefusalNoted;
    var did := t.did;
    var db1 := NoteRefusal(db, did, code);
    NotedIs(db, did, code);
    NotedRefusal(db, did, code);
    NoteOk(db, Note(RefusalDetected(code), Some(did)), db.sessions);
    RefusalSettled(db1, did, code);
    var db2 := SettleRefusal(db1, did, code).value;
    var db3 := SessionDropped(db2, did);
    DroppedIs(db2, did);
    SessionsOnlyOk(db2, db3.sessions);
    RefusedStays(db2, db3, did);
    RefusalKeeps(db, did, code);
    RefusedSettled(db3, did);
    SettledTarget(db3, did);
    DeliverableAt(db3, did);
    var position := db.deliveries[did].position;
    var db4 := AdvancedTo(db3, position);
    AdvanceLaws(db3, position);
    AdvanceKeeps(db3, position);
    RefusedStays(db3, db4, did);
    AckedOk(db4, did);
    AckIsOk(db4, did);
    GrowsTrans(db, db1, db2);
    GrowsTrans(db, db2, db3);
    GrowsTrans(db, db3, db4);
    GrowsTrans(db, db4, Ack(db4, did).value);
  }

  lemma RefusedSettled(db: Ledger, did: nat)
    requires RefusedRow(db, did)
    ensures SettledAt(db, did, db.deliveries[did].position)
  {
    hide RefusalNoted;
  }

  lemma AckIsOk(db: Ledger, did: nat)
    requires did < |db.deliveries|
    ensures Ack(db, did).Ok?
  {
  }

  lemma NotedIs(db: Ledger, did: nat, code: string)
    ensures NoteRefusal(db, did, code) == db.(evidence := db.evidence + [Note(RefusalDetected(code), Some(did))])
  {
  }

  lemma DroppedIs(db: Ledger, did: nat)
    requires did < |db.deliveries|
    ensures SessionDropped(db, did) == db.(sessions := SessionDropped(db, did).sessions)
  {
  }

  lemma AdvanceLaws(db: Ledger, position: nat)
    requires LedgerOk(db) && AllAccounted(db, position) && Deliverable(db, position)
    ensures LedgerOk(AdvancedTo(db, position)) && Grows(db, AdvancedTo(db, position)) && AdvancedTo(db, position).offset >= position
  {
    SelfGrows(db);
    if db.offset < position { AdvanceKept(db, position); }
    hide LedgerOk, Grows;
  }

  // ---------------------------------------------------------------- the whole call

  /** Everything between the call of `runtime.deliver` and the end of the cycle. */
  method RunRuntime(br: Bridge, t: Turn, n: nat, events: seq<RuntimeEvent>, json: seq<CatchUp.byte>, tokens: nat, e: Setting,
                    ghost w: Past)
    returns (ending: Ending, ghost script: seq<Input>)
    requires LedgerOk(br.Contents()) && View(br.Contents(), w, Live(t, n, false))
    modifies br
    ensures LedgerOk(br.Contents()) && Grows(old(br.Contents()), br.Contents())
    ensures Solo(old(br.Contents()), Live(t, n, false), script, e) == (br.Contents(), Idle)
    ensures ending.GotTerminal? ==>
              && t.did < |br.deliveries| && br.deliveries[t.did].certainty.Terminal?
              && br.deliveries[t.did].outcome == Some(Answer(ending.value))
              && (br.deliveries[t.did].acked || br.closed || Occupied(br.Contents(), t.did, PayloadOf(br.deliveries[t.did])))
  {
    hide *;
    ghost var before := br.Contents();
    var started;
    ghost var pumped;
    ending, started, pumped := PumpEvents(br, t, n, events, e, w);
    ghost var db := br.Contents();
    TablesOf(br);
    ghost var rest: seq<Input> := [];
    match ending {
      case Broken =>
        BrokenSteps(db, w, t, n, started, e);
        BrokenMeans(db, t, started);
        if started {
          br.TaintSession(Some(t.session));
          rest := [Vanish, Go];
        } else {
          var _ := br.MoveCertainty(t.did, MayHaveStarted, StartUncertain);
          rest := [Vanish];
        }
      case Prespawned(lost) =>
        PrespawnSteps(db, w, t, n, started, lost, e);
        PrespawnMeans(db, t, started, lost);
        rest := PrespawnScript(db, t, started, lost);
        if started {
          if lost { br.DropSession(t.session); } else { br.TaintSession(Some(t.session)); }
        } else {
          var resolved := br.ResolveMarker(t.did, PrespawnFailure);
          if resolved.Ok? && lost { br.DropSession(t.session); }
        }
      case GotRefusal(code) =>
        RefusalReady(db, w, t, n);
        RefusalRun(db, w, t, n, code, e);
        RefusalLaws(db, t, code);
        rest := RefusalScript(db, t.did, code);
        var _ := br.Refuse(t.did, code);
      case GotTerminal(value, vendor) =>
        FinalAllowed(db, w, t, n, value, vendor, e);
        FinalSteps(db, w, t, n, value, vendor, json, tokens, e);
        FinalAnswer(db, t, value, vendor, e.now);
        var _ := br.Finalize(t.did, value, vendor, Some(ProvenanceOf(t)), e.now);
        ghost var done := br.Contents();
        TablesOf(br);
        rest := [TerminalEvent(value, vendor), Go] + MaterializeScript(done, t.did, json, tokens);
        MaterializedIs(done, t.did, json, tokens);
        StaysTerminal(done, Materialized(done, t.did, json, tokens), t.did);
        var _ := br.Materialize(t.did, json, tokens);
        GrowsTrans(db, done, br.Contents());
        TablesOf(br);
        StaysClosed(done, br.Contents());
    }
    GrowsTrans(before, db, br.Contents());
    SoloConcat(before, Live(t, n, false), pumped, rest, e);
    script := pumped + rest;
  }

  lemma TablesOf(br: Bridge)
    ensures var db := br.Contents();
            db.deliveries == br.deliveries && db.closed == br.closed && db.log == br.log && db.offset == br.offset && db.sessions == br.sessions
  {
  }

  lemma StaysClosed(db: Ledger, db': Ledger)
    requires Grows(db, db')
    ensures db.closed ==> db'.closed
  {
  }

  lemma BrokenMeans(db: Ledger, t: Turn, started: bool)
    ensures BrokenEnd(db, t, started) ==
            if started then db.(sessions := Taint(db.sessions, Some(t.session)))
            else match Transition(db, t.did, MayHaveStarted, StartUncertain) case Err(_) => db case Ok(d) => d
  {
  }

  lemma PrespawnMeans(db: Ledger, t: Turn, started: bool, lost: bool)
    ensures started ==> PrespawnEnd(db, t, started, lost)
                        == if lost then LoseSession(db, t.session) else db.(sessions := Taint(db.sessions, Some(t.session)))
    ensures !started ==> PrespawnEnd(db, t, started, lost)
                         == match ResolveInvocation(db, t.did, PrespawnFailure)
                            case Err(_) => db
                            case Ok(d) => if lost then LoseSession(d, t.session) else d
  {
  }

  lemma RefusalReady(db: Ledger, w: Past, t: Turn, n: nat)
    requires LedgerOk(db) && View(db, w, Live(t, n, true))
    ensures t.did < |db.deliveries| && db.deliveries[t.did].position <= |db.log|
  {
    hide LedgerOk, FeedOk;
    DeliverableAt(db, t.did);
  }

  lemma FinalAnswer(db: Ledger, t: Turn, value: string, vendor: Option<string>, now: real)
    requires FinalizeTerminal(db, t.did, value, vendor, Some(ProvenanceOf(t)), now).Ok?
    requires FinalizeTerminal(db, t.did, value, vendor, Some(ProvenanceOf(t)), now).value.1.First?
    ensures var d := FinalizeTerminal(db, t.did, value, vendor, Some(ProvenanceOf(t)), now).value.0;
            t.did < |d.deliveries| && d.deliveries[t.did].outcome == Some(Answer(value)) && d.deliveries[t.did].certainty.Terminal?
  {
    hide CommitNative;
  }

  lemma StaysTerminal(db: Ledger, db': Ledger, did: nat)
    requires Grows(db, db') && did < |db.deliveries| && db.deliveries[did].certainty.Terminal?
    ensures did < |db'.deliveries| && db'.deliveries[did].certainty.Terminal? && db'.deliveries[did].outcome == db.deliveries[did].outcome
  {
    assert AttemptGrows(db.deliveries[did], db'.deliveries[did]);
  }
}
