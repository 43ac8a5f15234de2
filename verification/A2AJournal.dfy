/**
 Durable A2A task evidence: the Record stream is the authority, and replay folds it into task states.

 `Claimed` and `Submit` below run under any number of adapters on one journal. The two reads of a claim see one snapshot of
 the log; the append comes later, on its own. A key holds one entry: two appends under a key never have equal payloads, for
 each carries its own claim or time of creation.
 */
module A2AJournal {
  import opened Wrappers

  datatype Status = SUBMITTED | RUNNING | COMPLETED | FAILED | CANCELLED

  /** Something the remote sent; `strict` if it is strict JSON, which is all a Record may hold. */
  datatype Value = Value(text: string, strict: bool)

  /** `run` says which remote execution answers; `state` is whatever else its reference carries, and no part of that identity. */
  datatype Response = Response(status: Status, output: Option<Value>, error: Option<Value>, run: string, state: Value)

  /** The evidence can be written into a Record: Core refuses a body that is not strict JSON. */
  predicate Recordable(r: Response) {
    (r.output.Some? ==> r.output.value.strict) && (r.error.Some? ==> r.error.value.strict) && r.state.strict
  }

  datatype Entry =
    | Submitting(task: string, attempt: nat, binding: string, endpoint: string)
    | Observed(task: string, attempt: nat, response: Response)
    | NotStarted(task: string, attempt: nat)
    | Abandoned(task: string, attempt: nat)

  datatype TaskState = TaskState(binding: string, attempt: nat, endpoint: string, response: Option<Response>, uncertain: bool, abandoned: bool)

  datatype Key = KSubmitting(task: string, attempt: nat) | KObserved(task: string, attempt: nat, status: Status)
               | KNotStarted(task: string, attempt: nat) | KAbandoned(task: string, attempt: nat)

  function KeyOf(e: Entry): Key {
    match e
    case Submitting(t, k, _, _) => KSubmitting(t, k)
    case Observed(t, k, r) => KObserved(t, k, r.status)
    case NotStarted(t, k) => KNotStarted(t, k)
    case Abandoned(t, k) => KAbandoned(t, k)
  }

  predicate Final(s: Status) {
    s.COMPLETED? || s.FAILED? || s.CANCELLED?
  }

  function Rank(s: Status): nat {
    match s
    case SUBMITTED => 0
    case RUNNING => 1
    case _ => 2
  }

  // ---------------------------------------------------------------- replay

  type Tasks = map<string, TaskState>

  /** One Record of the replay. Evidence for any attempt but the current one is stale; terminal evidence is immutable, status only
      moves forward; a burned id never comes back. */
  function Fold(tasks: Tasks, e: Entry): Tasks {
    var t := e.task;
    if e.Submitting? then
      if t in tasks && tasks[t].abandoned then tasks
      else tasks[t := TaskState(e.binding, e.attempt, e.endpoint, None, true, false)]
    else if t !in tasks || tasks[t].attempt != e.attempt then tasks
    else
      var st := tasks[t];
      match e
      case Observed(_, _, r) =>
        if st.response.None? || (!Final(st.response.value.status) && Rank(r.status) > Rank(st.response.value.status))
        then tasks[t := st.(response := Some(r), uncertain := false)] else tasks
      case NotStarted(_, _) => if st.response.None? then tasks - {t} else tasks
      case Abandoned(_, _) => if st.response.None? then tasks[t := st.(abandoned := true, uncertain := false)] else tasks
  }

  function Replay(log: seq<Entry>): Tasks {
    if log == [] then map[] else Fold(Replay(log[..|log| - 1]), log[|log| - 1])
  }

  /** The claims on the task in the log, attempts given up included. */
  function Attempts(log: seq<Entry>, t: string): nat {
    if log == [] then 0
    else Attempts(log[..|log| - 1], t) + if log[|log| - 1].Submitting? && log[|log| - 1].task == t then 1 else 0
  }

  predicate Taken(log: seq<Entry>, k: Key) {
    exists i :: 0 <= i < |log| && KeyOf(log[i]) == k
  }

  /** What Core does with an append: accept it; find the Stream CLOSED; fail for any other reason (members that are not the author alone,
      an unregistered author, a fault), with nothing written; or commit it and fail before the answer is back. */
  datatype Storing = Accepts | Closed | Fails | CommitsOnly

  datatype Outcome = Wrote | Conflict | Raised

  /** Append one Record. What a Record cannot hold raises first; a taken key is a conflict even on a CLOSED Stream. */
  function Append(log: seq<Entry>, e: Entry, how: Storing): (seq<Entry>, Outcome) {
    if how.Fails? || (e.Observed? && !Recordable(e.response)) then (log, Raised)
    else if Taken(log, KeyOf(e)) then (log, Conflict)
    else if how.Closed? then (log, Raised)
    else (log + [e], if how.CommitsOnly? then Raised else Wrote)
  }

  // ---------------------------------------------------------------- writers, as far as they read

  datatype Claim = Exists(state: TaskState) | Next(attempt: nat)

  function ClaimRead(log: seq<Entry>, t: string): Claim {
    var tasks := Replay(log);
    if t in tasks then Exists(tasks[t]) else Next(Attempts(log, t) + 1)
  }

  datatype Verdict = Forwards(attempt: nat) | Same | NoAttempt | Backward

  /** What `record_observed` decides before it appends. */
  function ObserveRead(log: seq<Entry>, t: string, r: Response, attempt: Option<nat>): Verdict {
    var tasks := Replay(log);
    if t !in tasks || tasks[t].abandoned || (attempt.Some? && attempt.value != tasks[t].attempt) then NoAttempt
    else
      var cur := tasks[t].response;
      if cur.None? then Forwards(tasks[t].attempt)
      else if Final(cur.value.status) then
        if cur.value.status == r.status && cur.value.output == r.output && cur.value.error == r.error then Same else Backward
      else if Rank(r.status) < Rank(cur.value.status)
              || (r.status == cur.value.status && (r.output != cur.value.output || r.error != cur.value.error)) then Backward
      else if r.status == cur.value.status then Same
      else Forwards(tasks[t].attempt)
  }

  // ---------------------------------------------------------------- lawful logs

  /** An entry that may follow the log: a submission is the next attempt of a task without state; other evidence is for an attempt
      that was submitted, and can be recorded; the key is new. */
  predicate MayFollow(log: seq<Entry>, e: Entry) {
    !Taken(log, KeyOf(e))
    && (e.Observed? ==> Recordable(e.response))
    && if e.Submitting? then e.task !in Replay(log) && e.attempt == Attempts(log, e.task) + 1
       else 1 <= e.attempt <= Attempts(log, e.task)
  }

  predicate LogOk(log: seq<Entry>) {
    log != [] ==> LogOk(log[..|log| - 1]) && MayFollow(log[..|log| - 1], log[|log| - 1])
  }

  lemma Snoc(log: seq<Entry>, e: Entry)
    ensures (log + [e])[..|log + [e]| - 1] == log
    ensures Replay(log + [e]) == Fold(Replay(log), e)
    ensures LogOk(log + [e]) <==> LogOk(log) && MayFollow(log, e)
    ensures forall t :: Attempts(log + [e], t) == Attempts(log, t) + if e.Submitting? && e.task == t then 1 else 0
    ensures forall k :: Taken(log + [e], k) <==> Taken(log, k) || KeyOf(e) == k
  {
    assert (log + [e])[..|log + [e]| - 1] == log;
    forall k ensures Taken(log + [e], k) <==> Taken(log, k) || KeyOf(e) == k {
      if Taken(log, k) {
        var i :| 0 <= i < |log| && KeyOf(log[i]) == k;
        assert KeyOf((log + [e])[i]) == k;
      }
      if KeyOf(e) == k { assert KeyOf((log + [e])[|log|]) == k; }
    }
  }

  /** What a lawful log says of one task: its attempts are 1..n, all but the last were reported never started, and so was the last
      one if the task has no state. */
  ghost predicate TaskOk(log: seq<Entry>, t: string) {
    var n := Attempts(log, t);
    && (forall k: nat :: Taken(log, KSubmitting(t, k)) <==> 1 <= k <= n)
    && (forall k: nat :: 1 <= k < n ==> Taken(log, KNotStarted(t, k)))
    && (t !in Replay(log) && n > 0 ==> Taken(log, KNotStarted(t, n)))
    && (forall k: nat :: Taken(log, KNotStarted(t, k)) ==> 1 <= k <= n)
    && (forall k: nat :: Taken(log, KAbandoned(t, k)) ==> 1 <= k <= n)
    && (forall k: nat, s :: Taken(log, KObserved(t, k, s)) ==> 1 <= k <= n)
    && (t in Replay(log) ==> StateOk(log, t, Replay(log)[t]))
  }

  /** A task's replayed state is of its last attempt, uncertain exactly while nothing resolved it, and no evidence was lost. */
  ghost predicate StateOk(log: seq<Entry>, t: string, st: TaskState) {
    && st.attempt == Attempts(log, t) >= 1
    && (st.uncertain <==> st.response.None? && !st.abandoned)
    && (st.abandoned ==> Taken(log, KAbandoned(t, st.attempt)))
    && (Taken(log, KAbandoned(t, st.attempt)) ==> st.abandoned || st.response.Some?)
    && (st.response.None? ==> !Taken(log, KNotStarted(t, st.attempt)))
    && (forall s :: Taken(log, KObserved(t, st.attempt, s)) ==>
          st.response.Some? && (Final(st.response.value.status) || Rank(s) <= Rank(st.response.value.status)))
  }

  lemma {:induction false} LogTask(log: seq<Entry>, t: string)
    requires LogOk(log)
    ensures TaskOk(log, t)
    decreases |log|
  {
    if log != [] {
      var init, e := log[..|log| - 1], log[|log| - 1];
      assert log == init + [e];
      LogTask(init, t);
      Snoc(init, e);
      TaskStep(init, e, t);
    }
  }

  lemma TaskStep(log: seq<Entry>, e: Entry, t: string)
    requires TaskOk(log, t) && MayFollow(log, e)
    ensures TaskOk(log + [e], t)
  {
    Snoc(log, e);
    hide Taken, Attempts, Replay;
    if e.task == t {
      if t in Replay(log) { hide Rank, Final; StateStep(log, e, t); }
    }
  }

  lemma StateStep(log: seq<Entry>, e: Entry, t: string)
    requires TaskOk(log, t) && MayFollow(log, e) && e.task == t && t in Replay(log)
    ensures t in Replay(log + [e]) ==> StateOk(log + [e], t, Replay(log + [e])[t])
    ensures t !in Replay(log + [e]) ==> Taken(log + [e], KNotStarted(t, Attempts(log, t)))
  {
    Snoc(log, e);
    hide Taken, Attempts, Replay;
  }

  // ---------------------------------------------------------------- any number of adapters

  datatype Pc =
    | Rest
    | Claiming(task: string, attempt: nat)
    | Claimed(task: string, attempt: nat)
    | Observing(task: string, attempt: nat, response: Response)

  /** `calls` logs every `transport.submit` as (task, attempt). */
  datatype World = World(log: seq<Entry>, adapters: map<string, Pc>, calls: seq<(string, nat)>)

  datatype Action =
    | ReadClaim(adapter: string, task: string)
    | AppendClaim(adapter: string, binding: string, endpoint: string, how: Storing)
    | Submit(adapter: string)
    | ReadObserve(adapter: string, task: string, response: Response, own: Option<nat>)
    | AppendObserve(adapter: string, how: Storing)
    | RecordNotStarted(task: string, attempt: nat, how: Storing)
    | RecordAbandoned(task: string, attempt: nat, how: Storing)
    | Crash(adapter: string)

  function PcOf(w: World, a: string): Pc {
    if a in w.adapters then w.adapters[a] else Rest
  }

  /** An adapter knows only attempts it claimed or read, so what it records was submitted before. */
  function Step(w: World, a: Action): World {
    match a
    case ReadClaim(x, t) =>
      (match ClaimRead(w.log, t)
       case Exists(_) => w
       case Next(k) => if PcOf(w, x).Rest? then w.(adapters := w.adapters[x := Claiming(t, k)]) else w)
    case AppendClaim(x, binding, endpoint, how) =>
      if !PcOf(w, x).Claiming? then w
      else
        var pc := PcOf(w, x);
        var (log, o) := Append(w.log, Submitting(pc.task, pc.attempt, binding, endpoint), how);
        w.(log := log, adapters := w.adapters[x := if o.Wrote? then Claimed(pc.task, pc.attempt) else Rest])
    case Submit(x) =>
      if !PcOf(w, x).Claimed? then w
      else w.(calls := w.calls + [(PcOf(w, x).task, PcOf(w, x).attempt)], adapters := w.adapters[x := Rest])
    case ReadObserve(x, t, r, k) =>
      (match ObserveRead(w.log, t, r, k)
       case Forwards(n) => if PcOf(w, x).Rest? then w.(adapters := w.adapters[x := Observing(t, n, r)]) else w
       case _ => w)
    case AppendObserve(x, how) =>
      if !PcOf(w, x).Observing? then w
      else
        w.(log := Append(w.log, Observed(PcOf(w, x).task, PcOf(w, x).attempt, PcOf(w, x).response), how).0, adapters := w.adapters[x := Rest])
    case RecordNotStarted(t, k, how) => if 1 <= k <= Attempts(w.log, t) then w.(log := Append(w.log, NotStarted(t, k), how).0) else w
    case RecordAbandoned(t, k, how) => if 1 <= k <= Attempts(w.log, t) then w.(log := Append(w.log, Abandoned(t, k), how).0) else w
    case Crash(x) => w.(adapters := w.adapters - {x})
  }

  function Run(w: World, acts: seq<Action>): World
    decreases |acts|
  {
    if acts == [] then w else Run(Step(w, acts[0]), acts[1..])
  }

  /** What an adapter read is still true, or its append will find the key taken. */
  predicate PcOk(log: seq<Entry>, pc: Pc) {
    match pc
    case Rest => true
    case Claiming(t, k) =>
      1 <= k && (Attempts(log, t) + 1 == k ==> t !in Replay(log)) && Attempts(log, t) + 1 >= k
    case Claimed(t, k) => Taken(log, KSubmitting(t, k))
    case Observing(t, k, r) => 1 <= k <= Attempts(log, t)
  }

  /** Every claim that may still be sent, or was sent, is one adapter's own. */
  ghost predicate WorldOk(w: World) {
    && LogOk(w.log)
    && (forall x :: x in w.adapters ==> PcOk(w.log, w.adapters[x]))
    && (forall x, y :: x in w.adapters && y in w.adapters && x != y && w.adapters[x].Claimed? ==> w.adapters[x] != w.adapters[y])
    && (forall x :: x in w.adapters && w.adapters[x].Claimed? ==> (w.adapters[x].task, w.adapters[x].attempt) !in w.calls)
    && (forall c :: c in w.calls ==> Taken(w.log, KSubmitting(c.0, c.1)))
    && (forall i, j :: 0 <= i < j < |w.calls| ==> w.calls[i] != w.calls[j])
  }

  /** An append takes nothing from what any adapter relies on. */
  lemma PcStays(log: seq<Entry>, e: Entry, pc: Pc)
    requires LogOk(log) && MayFollow(log, e) && PcOk(log, pc)
    ensures PcOk(log + [e], pc)
  {
    Snoc(log, e);
    if pc.Claiming? && pc.attempt == Attempts(log, pc.task) + 1 && e.task == pc.task && !e.Submitting? {
      assert pc.task !in Replay(log);
    }
  }

  /** An entry for an attempt that was submitted, or the next submission of a task without state. */
  predicate Fits(log: seq<Entry>, e: Entry) {
    if e.Submitting? then PcOk(log, Claiming(e.task, e.attempt)) else 1 <= e.attempt <= Attempts(log, e.task)
  }

  lemma AppendFollows(log: seq<Entry>, e: Entry, how: Storing)
    requires LogOk(log) && Fits(log, e)
    ensures Append(log, e, how).0 != log ==> MayFollow(log, e)
    ensures Append(log, e, how).1.Wrote? ==> Append(log, e, how).0 == log + [e]
  {
    LogTask(log, e.task);
    hide Attempts, Replay, Taken;
  }

  lemma GrowOk(w: World, e: Entry)
    requires WorldOk(w) && MayFollow(w.log, e)
    ensures WorldOk(w.(log := w.log + [e]))
  {
    Snoc(w.log, e);
    hide Taken, MayFollow, PcOk, LogOk;
    forall x | x in w.adapters ensures PcOk(w.log + [e], w.adapters[x]) {
      PcStays(w.log, e, w.adapters[x]);
    }
  }

  lemma RestOk(w: World, x: string, pc: Pc)
    requires WorldOk(w) && !pc.Claimed? && PcOk(w.log, pc)
    ensures WorldOk(w.(adapters := w.adapters[x := pc]))
  {
    hide PcOk, LogOk, Taken;
  }

  lemma AppendIs(log: seq<Entry>, e: Entry, how: Storing)
    ensures Append(log, e, how).0 == log || (Append(log, e, how).0 == log + [e] && !Taken(log, KeyOf(e)))
    ensures Append(log, e, how).1.Wrote? ==> Append(log, e, how).0 == log + [e]
    ensures log + [e] != log
  {
    assert |log + [e]| != |log|;
  }

  lemma ClaimOk(w: World, x: string, binding: string, endpoint: string, how: Storing)
    requires WorldOk(w) && PcOf(w, x).Claiming?
    ensures WorldOk(Step(w, AppendClaim(x, binding, endpoint, how)))
  {
    hide Taken, MayFollow, LogOk, PcOk, Append, Attempts, Replay;
    var pc := PcOf(w, x);
    var e := Submitting(pc.task, pc.attempt, binding, endpoint);
    assert PcOk(w.log, pc);
    assert pc == Claiming(e.task, e.attempt);
    AppendFollows(w.log, e, how);
    AppendIs(w.log, e, how);
    RestIsOk(Append(w.log, e, how).0);
    if Append(w.log, e, how).0 == w.log {
      RestOk(w, x, Rest);
    } else {
      Unclaimed(w, e);
      GrowOk(w, e);
      Snoc(w.log, e);
      TakenIsOk(w.log + [e], pc.task, pc.attempt);
      RestOk(w.(log := w.log + [e]), x, Rest);
    }
  }

  /** A key that is not taken was never claimed and never sent. */
  lemma Unclaimed(w: World, e: Entry)
    requires WorldOk(w) && e.Submitting? && !Taken(w.log, KeyOf(e))
    ensures (e.task, e.attempt) !in w.calls
    ensures forall y :: y in w.adapters ==> w.adapters[y] != Claimed(e.task, e.attempt)
  {
    hide Taken, LogOk;
    forall y | y in w.adapters ensures w.adapters[y] != Claimed(e.task, e.attempt) {
      assert PcOk(w.log, w.adapters[y]);
    }
  }

  lemma TakenIsOk(log: seq<Entry>, t: string, k: nat)
    requires Taken(log, KSubmitting(t, k))
    ensures PcOk(log, Claimed(t, k))
  {
  }

  lemma ReadOk(w: World, a: Action)
    requires WorldOk(w) && (a.ReadClaim? || a.ReadObserve?)
    ensures WorldOk(Step(w, a))
  {
    if a.ReadClaim? {
      var c := ClaimRead(w.log, a.task);
      if c.Next? { RestOk(w, a.adapter, Claiming(a.task, c.attempt)); }
    } else {
      LogTask(w.log, a.task);
      var v := ObserveRead(w.log, a.task, a.response, a.own);
      if v.Forwards? { RestOk(w, a.adapter, Observing(a.task, v.attempt, a.response)); }
    }
  }

  lemma ObserveOk(w: World, x: string, how: Storing)
    requires WorldOk(w) && PcOf(w, x).Observing?
    ensures WorldOk(Step(w, AppendObserve(x, how)))
  {
    hide Taken, MayFollow, LogOk, Append, Attempts, Replay;
    var pc := PcOf(w, x);
    var e := Observed(pc.task, pc.attempt, pc.response);
    assert PcOk(w.log, pc);
    RecordOk(w, e, how);
    RestIsOk(Append(w.log, e, how).0);
    hide PcOk;
    RestOk(w.(log := Append(w.log, e, how).0), x, Rest);
  }

  lemma RecordOk(w: World, e: Entry, how: Storing)
    requires WorldOk(w) && !e.Submitting? && 1 <= e.attempt <= Attempts(w.log, e.task)
    ensures WorldOk(w.(log := Append(w.log, e, how).0))
  {
    hide Taken, MayFollow, LogOk, Append, PcOk, Replay;
    AppendFollows(w.log, e, how);
    AppendIs(w.log, e, how);
    if Append(w.log, e, how).0 != w.log { GrowOk(w, e); }
  }

  lemma StepOk(w: World, a: Action)
    requires WorldOk(w)
    ensures WorldOk(Step(w, a))
  {
    match a
    case ReadClaim(_, _) => hide WorldOk, Step; ReadOk(w, a);
    case ReadObserve(_, _, _, _) => hide WorldOk, Step; ReadOk(w, a);
    case AppendClaim(x, binding, endpoint, how) => if PcOf(w, x).Claiming? { hide WorldOk, Step; ClaimOk(w, x, binding, endpoint, how); }
    case Submit(x) => hide Taken, LogOk; assert PcOf(w, x).Claimed? ==> PcOk(w.log, PcOf(w, x));
    case AppendObserve(x, how) => if PcOf(w, x).Observing? { hide WorldOk, Step; ObserveOk(w, x, how); }
    case RecordNotStarted(t, k, how) => if 1 <= k <= Attempts(w.log, t) { RecordOk(w, NotStarted(t, k), how); }
    case RecordAbandoned(t, k, how) => if 1 <= k <= Attempts(w.log, t) { RecordOk(w, Abandoned(t, k), how); }
    case Crash(x) => hide Taken, LogOk, PcOk;
  }

  lemma RestIsOk(log: seq<Entry>)
    ensures PcOk(log, Rest)
  {
  }

  lemma {:induction false} RunOk(w: World, acts: seq<Action>)
    requires WorldOk(w)
    ensures WorldOk(Run(w, acts))
    decreases |acts|
  {
    hide WorldOk, Step;
    if acts != [] {
      StepOk(w, acts[0]);
      RunOk(Step(w, acts[0]), acts[1..]);
    }
  }

  /** The calls of `transport.submit` for a task. */
  function CallsFor(w: World, t: string): set<nat> {
    set i | 0 <= i < |w.calls| && w.calls[i].0 == t
  }

  /** The attempts of a task that the log reports never started. */
  function NeverStarted(log: seq<Entry>, t: string): set<nat> {
    set i | 0 <= i < |log| && log[i].NotStarted? && log[i].task == t :: log[i].attempt
  }

  /** Under any interleaving of any number of adapters and crashes: each attempt number is called for at most once, attempt k+1 is
      claimed only after a not_started for k, so the submissions of a task are at most one more than its not_started records. */
  lemma SubmitBound(acts: seq<Action>, t: string)
    ensures var w := Run(World([], map[], []), acts);
            |CallsFor(w, t)| <= Attempts(w.log, t) <= 1 + |NeverStarted(w.log, t)|
  {
    var w0 := World([], map[], []);
    assert WorldOk(w0);
    RunOk(w0, acts);
    var w := Run(w0, acts);
    hide Run;
    LogTask(w.log, t);
    CallAttempts(w, t, CallsFor(w, t), set i | i in CallsFor(w, t) :: w.calls[i].1);
    var ks := set i | i in CallsFor(w, t) :: w.calls[i].1;
    forall k | k in ks ensures 1 <= k <= Attempts(w.log, t) {
      var i :| i in CallsFor(w, t) && w.calls[i].1 == k;
      assert w.calls[i] in w.calls;
    }
    UpTo(ks, Attempts(w.log, t));
    NeverStartedAll(w.log, t, Attempts(w.log, t));
  }

  lemma {:induction false} CallAttempts(w: World, t: string, indices: set<nat>, ks: set<nat>)
    requires WorldOk(w) && indices <= CallsFor(w, t) && ks == set i | i in indices :: w.calls[i].1
    ensures |indices| == |ks|
    decreases |indices|
  {
    hide LogOk, PcOk, Taken;
    if indices != {} {
      var i :| i in indices;
      var rest := indices - {i};
      var others := set j | j in rest :: w.calls[j].1;
      forall j | j in rest ensures w.calls[j].1 != w.calls[i].1 {
        assert w.calls[i] != w.calls[j];
      }
      assert ks == others + {w.calls[i].1};
      CallAttempts(w, t, rest, others);
    }
  }

  lemma {:induction false} UpTo(ks: set<nat>, n: nat)
    requires forall k :: k in ks ==> 1 <= k <= n
    ensures |ks| <= n
    decreases n
  {
    if n == 0 {
      assert ks == {};
    } else {
      UpTo(ks - {n}, n - 1);
      if n in ks { assert ks == (ks - {n}) + {n}; } else { assert ks == ks - {n}; }
    }
  }

  function OneTo(n: nat): set<nat> {
    if n == 0 then {} else OneTo(n - 1) + {n}
  }

  lemma {:induction false} OneToIs(n: nat)
    ensures |OneTo(n)| == n && forall k: nat :: k in OneTo(n) <==> 1 <= k <= n
    decreases n
  {
    if n > 0 { OneToIs(n - 1); }
  }

  lemma NeverStartedAll(log: seq<Entry>, t: string, n: nat)
    requires TaskOk(log, t) && n == Attempts(log, t)
    ensures n <= 1 + |NeverStarted(log, t)|
  {
    hide Attempts, Replay, StateOk;
    if n > 0 {
      OneToIs(n - 1);
      forall k | k in OneTo(n - 1) ensures k in NeverStarted(log, t) {
        assert Taken(log, KNotStarted(t, k));
        var i :| 0 <= i < |log| && KeyOf(log[i]) == KNotStarted(t, k);
      }
      assert NeverStarted(log, t) == OneTo(n - 1) + (NeverStarted(log, t) - OneTo(n - 1));
    }
  }

  /** A claim is one adapter's own, and only claimed after the previous attempt was reported never started. */
  lemma ClaimedAfter(acts: seq<Action>, x: string, y: string)
    ensures var w := Run(World([], map[], []), acts);
            PcOf(w, x).Claimed? ==>
              && (x != y ==> PcOf(w, y) != PcOf(w, x))
              && (forall k: nat :: 1 <= k < PcOf(w, x).attempt ==> Taken(w.log, KNotStarted(PcOf(w, x).task, k)))
  {
    var w0 := World([], map[], []);
    assert WorldOk(w0);
    RunOk(w0, acts);
    var w := Run(w0, acts);
    hide Run;
    if PcOf(w, x).Claimed? {
      LogTask(w.log, PcOf(w, x).task);
      assert PcOk(w.log, w.adapters[x]);
    }
  }

  // ---------------------------------------------------------------- evidence of one attempt

  /** Later evidence: same attempt, status forward, terminal evidence fixed. */
  predicate Forward(st: TaskState, st': TaskState) {
    st'.attempt == st.attempt && st'.binding == st.binding
    && st.response.Some? && st'.response.Some?
    && Rank(st.response.value.status) <= Rank(st'.response.value.status)
    && (Final(st.response.value.status) ==> st'.response == st.response)
  }

  lemma EvidenceStep(log: seq<Entry>, e: Entry, t: string)
    requires MayFollow(log, e) && t in Replay(log) && Replay(log)[t].response.Some?
    ensures t in Replay(log + [e]) && Forward(Replay(log)[t], Replay(log + [e])[t])
  {
    Snoc(log, e);
    hide Attempts, Taken, Replay;
  }

  /** Once a task has a response, every longer lawful log keeps the attempt, moves its status forward only, and keeps terminal
      evidence as it is. */
  lemma {:induction false} EvidenceForward(log: seq<Entry>, log': seq<Entry>, t: string)
    requires log <= log' && LogOk(log') && t in Replay(log) && Replay(log)[t].response.Some?
    ensures t in Replay(log') && Forward(Replay(log)[t], Replay(log')[t])
    decreases |log'|
  {
    if log == log' {
    } else {
      var init, e := log'[..|log'| - 1], log'[|log'| - 1];
      assert log' == init + [e] && log <= init;
      EvidenceForward(log, init, t);
      EvidenceStep(init, e, t);
    }
  }

  // ---------------------------------------------------------------- loading in pages

  lemma PrefixNext(log: seq<Entry>, i: nat, t: string)
    requires i < |log|
    ensures Replay(log[..i + 1]) == Fold(Replay(log[..i]), log[i])
    ensures Attempts(log[..i + 1], t) == Attempts(log[..i], t) + if log[i].Submitting? && log[i].task == t then 1 else 0
  {
    assert log[..i + 1][..i] == log[..i];
  }

  lemma Nothing(log: seq<Entry>, t: string)
    ensures log[..0] == [] && Replay(log[..0]) == map[] && Attempts(log[..0], t) == 0 && log[..|log|] == log
  {
  }

  /** One Record of the replay loop, branch by branch. */
  method Consume(tasks0: Tasks, e: Entry) returns (tasks: Tasks)
    ensures tasks == Fold(tasks0, e)
  {
    tasks := tasks0;
    var known := e.task in tasks;
    if e.Submitting? {
      if known && tasks[e.task].abandoned { return; }
      tasks := tasks[e.task := TaskState(e.binding, e.attempt, e.endpoint, None, true, false)];
    } else if !known || e.attempt != tasks[e.task].attempt {
      return;
    } else {
      var state := tasks[e.task];
      if e.Observed? {
        if state.response.None?
           || (!Final(state.response.value.status) && Rank(e.response.status) > Rank(state.response.value.status)) {
          state := state.(response := Some(e.response), uncertain := false);
          tasks := tasks[e.task := state];
        }
      } else if e.NotStarted? && state.response.None? {
        tasks := tasks - {e.task};
      } else if e.Abandoned? && state.response.None? {
        state := state.(abandoned := true, uncertain := false);
        tasks := tasks[e.task := state];
      }
    }
  }

  /** Replay reads the stream page by page and consumes the Records one by one. */
  method Load(log: seq<Entry>, page: nat) returns (tasks: Tasks)
    requires page > 0
    ensures tasks == Replay(log)
  {
    hide *;
    Nothing(log, "");
    tasks := map[];
    var position := 0;
    while position < |log|
      invariant position <= |log| && tasks == Replay(log[..position])
    {
      var batch := if position + page < |log| then log[position..position + page] else log[position..];
      var i := 0;
      while i < |batch|
        invariant i <= |batch| && tasks == Replay(log[..position + i])
      {
        PrefixNext(log, position + i, "");
        tasks := Consume(tasks, batch[i]);
        i := i + 1;
      }
      position := position + |batch|;
    }
  }

  /** Attempts are counted the same way. */
  method CountAttempts(log: seq<Entry>, t: string, page: nat) returns (n: nat)
    requires page > 0
    ensures n == Attempts(log, t)
  {
    hide *;
    Nothing(log, t);
    n := 0;
    var position := 0;
    while position < |log|
      invariant position <= |log| && n == Attempts(log[..position], t)
    {
      var batch := if position + page < |log| then log[position..position + page] else log[position..];
      var i := 0;
      while i < |batch|
        invariant i <= |batch| && n == Attempts(log[..position + i], t)
      {
        PrefixNext(log, position + i, t);
        if batch[i].Submitting? && batch[i].task == t { n := n + 1; }
        i := i + 1;
      }
      position := position + |batch|;
    }
  }
}
