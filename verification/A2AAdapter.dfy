/**
 The A2A adapter over its journal: adapter memory is a cache of log replay.

 One live adapter with any number of restarts: every public call holds the adapter's lock, and a crash at any point inside a call
 leaves the log as far as it was written, from which the next adapter is restored. Transport and store are adversaries: what the one
 answers, and how the other meets each load and each append, is the environment's choice.
 */
module A2AAdapter {
  import opened Wrappers
  import opened A2AJournal

  /** The adapter's memory. `bindings` stands for the requests, `endpoints` for where each task was submitted to. */
  datatype Cache = Cache(
    bindings: map<string, string>,
    attempts: map<string, nat>,
    endpoints: map<string, string>,
    tasks: map<string, Response>,
    uncertain: set<string>,
    abandoned: set<string>)

  /** What the transport does: a response (that validates, or not), an exception, or a definite denial. */
  datatype Answer = Got(response: Response, valid: bool) | Raised | Unknown(definitive: bool)

  /** How the store meets one writer of the journal: whether its loads succeed, what becomes of its append, and whether the log can be loaded
      again after a conflict. A load fails while the Stream is not the author's alone. */
  datatype Io = Io(read: bool, how: Storing, again: bool)

  /** A call's effect: the new memory, the new log, the `transport.submit` calls it made, and whether it returned or raised. */
  datatype Effect = Effect(cache: Cache, log: seq<Entry>, submits: seq<(string, nat)>, returned: bool)

  datatype Call =
    | Dispatch(task: string, binding: string, endpoint: Option<string>, transport: bool, claim: Io, answer: Answer, io: Io)
    | Reconcile(task: string, endpoint: Option<string>, lookup: bool, answer: Answer, io: Io)
    | Abandon(task: string, reason: string, io: Io)
    | Poll(task: string, endpoint: Option<string>, transport: bool, polled: Option<Answer>, io: Io)
    | Update(task: string, status: Status, output: Option<Value>, error: Option<Value>, io: Io)
    | Cancel(task: string, endpoint: Option<string>, transport: bool, polled: Option<Answer>, io: Io, answer: Answer, last: Io)

  // ---------------------------------------------------------------- adoption and restoration

  /** What the log says of a task, as memory holds it. */
  function Adopt(c: Cache, t: string, st: TaskState): Cache {
    var d := c.(bindings := c.bindings[t := st.binding], attempts := c.attempts[t := st.attempt], endpoints := c.endpoints[t := st.endpoint]);
    if st.abandoned then d.(abandoned := d.abandoned + {t})
    else if st.response.Some? then d.(tasks := d.tasks[t := st.response.value], uncertain := d.uncertain - {t})
    else d.(uncertain := d.uncertain + {t})
  }

  const Blank: Cache := Cache(map[], map[], map[], map[], {}, {})

  /** The memory shows the evidence of the log, or a task as running that the log has as submitted. */
  predicate Shows(r: Response, durable: Response) {
    (r.status == durable.status || (r.status.RUNNING? && durable.status.SUBMITTED?)) && (Final(r.status) ==> r == durable)
  }

  /** The memory says of the task what the log says, but may show it running too early. */
  predicate AgreesAt(c: Cache, tasks: Tasks, t: string) {
    && (t in c.abandoned <==> t in tasks && tasks[t].abandoned)
    && (t in c.uncertain <==> t in tasks && tasks[t].response.None? && !tasks[t].abandoned)
    && (t in c.tasks <==> t in tasks && tasks[t].response.Some? && !tasks[t].abandoned)
    && (t in c.tasks ==> Shows(c.tasks[t], tasks[t].response.value))
    && (t in tasks ==> t in c.bindings && c.bindings[t] == tasks[t].binding && t in c.attempts && c.attempts[t] == tasks[t].attempt
                       && t in c.endpoints && c.endpoints[t] == tasks[t].endpoint)
  }

  ghost predicate Agrees(c: Cache, log: seq<Entry>) {
    forall t :: AgreesAt(c, Replay(log), t)
  }

  /** No task is shown running too early. */
  ghost predicate InStep(c: Cache, log: seq<Entry>) {
    forall t :: t in c.tasks && t in Replay(log) && Replay(log)[t].response.Some? ==>
      c.tasks[t].status == Replay(log)[t].response.value.status
  }

  /** Memory and replay say the same. */
  ghost predicate Mirrors(c: Cache, log: seq<Entry>) {
    Agrees(c, log) && InStep(c, log)
  }

  /** What holds of memory even when the answer to an append was lost: the attempt of an uncertain task was submitted, and an abandoned task
      does not wait for a reconciliation. */
  ghost predicate Safe(c: Cache, log: seq<Entry>) {
    && LogOk(log)
    && (forall t :: t in c.uncertain ==> t in c.attempts && 1 <= c.attempts[t] <= Attempts(log, t))
    && c.abandoned !! c.uncertain
  }

  /** The id is given up, in memory and in the log. */
  predicate Burnt(c: Cache, log: seq<Entry>, t: string) {
    t in c.abandoned && t in Replay(log) && Replay(log)[t].abandoned
  }

  // ---------------------------------------------------------------- the calls

  /** `record_observed`: the log afterwards, and whether it returned. It raises if there is no attempt, the evidence is not a forward move, or
      the store raises. */
  function Recorded(log: seq<Entry>, t: string, r: Response, own: Option<nat>, io: Io): (seq<Entry>, bool) {
    if !io.read then (log, false)
    else
      match ObserveRead(log, t, r, own)
      case NoAttempt => (log, false)
      case Backward => (log, false)
      case Same => (log, true)
      case Forwards(k) =>
        var (log', o) := Append(log, Observed(t, k, r), io.how);
        if !o.Conflict? then (log', o.Wrote?)
        else
          var again := Replay(log');
          (log', io.again && t in again && again[t].response.Some? && again[t].response.value.status == r.status)
  }

  function OwnAttempt(c: Cache, t: string): Option<nat> {
    if t in c.attempts then Some(c.attempts[t]) else None
  }

  predicate RightEndpoint(c: Cache, t: string, endpoint: string) {
    t in c.endpoints && c.endpoints[t] != "" ==> c.endpoints[t] == endpoint
  }

  /** The claim is written, the request about to be sent. */
  function Sent(c: Cache, t: string, k: nat, binding: string, endpoint: string): Cache {
    c.(attempts := c.attempts[t := k], endpoints := c.endpoints[t := endpoint], uncertain := c.uncertain + {t},
       bindings := c.bindings[t := binding])
  }

  function Answered(c: Cache, t: string, r: Response): Cache {
    c.(tasks := c.tasks[t := r], uncertain := c.uncertain - {t})
  }

  /** The dispatches that are decided from memory and configuration alone. */
  predicate Refuses(c: Cache, q: Call)
    requires q.Dispatch?
  {
    q.task == "" || q.task in c.abandoned || q.task in c.uncertain || q.task in c.tasks || q.endpoint.None? || !q.transport
  }

  function DispatchTask(c: Cache, log: seq<Entry>, q: Call): Effect
    requires q.Dispatch?
  {
    var t := q.task;
    if Refuses(c, q) then
      Effect(c, log, [], t != "" && t !in c.abandoned && t !in c.uncertain && t in c.tasks && t in c.bindings && c.bindings[t] == q.binding)
    else if !q.claim.read then Effect(c, log, [], false)
    else
      match ClaimRead(log, t)
      case Exists(st) =>
        var d := Adopt(c, t, st);
        Effect(d, log, [], t !in d.abandoned && st.binding == q.binding && t in d.tasks)
      case Next(k) =>
        var (log1, o) := Append(log, Submitting(t, k, q.binding, q.endpoint.value), q.claim.how);
        if !o.Wrote? then Effect(c, log1, [], false) else SendTask(Sent(c, t, k, q.binding, q.endpoint.value), log1, q, k)
  }

  /** The side effect, and whatever evidence it gives. */
  function SendTask(sent: Cache, log: seq<Entry>, q: Call, k: nat): Effect
    requires q.Dispatch?
  {
    if !q.answer.Got? || !q.answer.valid then Effect(sent, log, [(q.task, k)], false)
    else
      var (log', ok) := Recorded(log, q.task, q.answer.response, Some(k), q.io);
      Effect(if ok then Answered(sent, q.task, q.answer.response) else sent, log', [(q.task, k)], ok)
  }

  /** A proven absence: the id is free again. */
  function Released(c: Cache, t: string): Cache {
    c.(uncertain := c.uncertain - {t}, bindings := c.bindings - {t})
  }

  function Burned(c: Cache, t: string): Cache {
    c.(uncertain := c.uncertain - {t}, abandoned := c.abandoned + {t})
  }

  /** The attempt memory has for the task, or the first. */
  function AttemptOf(c: Cache, t: string): nat {
    if t in c.attempts then c.attempts[t] else 1
  }

  function ReconcileTask(c: Cache, log: seq<Entry>, q: Call): Effect
    requires q.Reconcile?
  {
    var t := q.task;
    if t !in c.uncertain || q.endpoint.None? || !RightEndpoint(c, t, q.endpoint.value) || !q.lookup then Effect(c, log, [], false)
    else
      match q.answer
      case Raised => Effect(c, log, [], false)
      case Unknown(definitive) =>
        if !definitive then Effect(c, log, [], false)
        else
          var (log', o) := Append(log, NotStarted(t, AttemptOf(c, t)), q.io.how);
          if o.Raised? then Effect(c, log', [], false) else Effect(Released(c, t), log', [], true)
      case Got(r, valid) =>
        if !valid then Effect(c, log, [], false)
        else
          var (log', ok) := Recorded(log, t, r, OwnAttempt(c, t), q.io);
          Effect(if ok then Answered(c, t, r) else c, log', [], ok)
  }

  predicate IsBlank(s: string) {
    forall i :: 0 <= i < |s| ==> s[i] == ' ' || s[i] == '\n' || s[i] == '\t' || s[i] == '\r'
  }

  function AbandonTask(c: Cache, log: seq<Entry>, q: Call): Effect
    requires q.Abandon?
  {
    var t := q.task;
    if t !in c.uncertain || IsBlank(q.reason) then Effect(c, log, [], false)
    else
      var (log', o) := Append(log, Abandoned(t, AttemptOf(c, t)), q.io.how);
      if o.Raised? then Effect(c, log', [], false) else Effect(Burned(c, t), log', [], true)
  }

  predicate AllowedMove(from: Status, to: Status) {
    match from
    case SUBMITTED => to.RUNNING? || to.CANCELLED? || to.FAILED?
    case RUNNING => to.COMPLETED? || to.FAILED? || to.CANCELLED?
    case _ => false
  }

  function UpdateStatus(c: Cache, log: seq<Entry>, t: string, status: Status, output: Option<Value>, error: Option<Value>, io: Io): Effect {
    if t !in c.tasks || !AllowedMove(c.tasks[t].status, status) then Effect(c, log, [], false)
    else
      var updated := Updated(c.tasks[t], status, output, error);
      var (log', ok) := Recorded(log, t, updated, OwnAttempt(c, t), io);
      Effect(if ok then c.(tasks := c.tasks[t := updated]) else c, log', [], ok)
  }

  /** What is not given is kept, and the reference with its state always. */
  function Updated(cur: Response, status: Status, output: Option<Value>, error: Option<Value>): Response {
    Response(status, if output.Some? then output else cur.output, if error.Some? then error else cur.error, cur.run, cur.state)
  }

  /** What a poll writes before it records a completion nobody saw running. */
  function Early(c: Cache, t: string, status: Status): Cache
    requires t in c.tasks
  {
    if c.tasks[t].status.SUBMITTED? && status.COMPLETED? then c.(tasks := c.tasks[t := c.tasks[t].(status := RUNNING)]) else c
  }

  /** The poll has a valid answer for the same execution, of a task that is not final. */
  predicate Polls(c: Cache, t: string, endpoint: Option<string>, transport: bool, polled: Option<Answer>) {
    && t in c.tasks && transport && !Final(c.tasks[t].status)
    && endpoint.Some? && RightEndpoint(c, t, endpoint.value)
    && polled.Some? && polled.value.Got? && polled.value.valid && polled.value.response.run == c.tasks[t].run
  }

  /** A sample with a new status goes through the log, over RUNNING if the task is found done at once; one without goes to memory alone. */
  function PollTask(c: Cache, log: seq<Entry>, t: string, endpoint: Option<string>, transport: bool, polled: Option<Answer>, io: Io): Effect {
    if !Polls(c, t, endpoint, transport, polled) then
      Effect(c, log, [], t in c.tasks && (!transport || Final(c.tasks[t].status)
                                          || (endpoint.Some? && RightEndpoint(c, t, endpoint.value) && polled.None?)))
    else
      var r := polled.value.response;
      if r.status == c.tasks[t].status then Effect(c.(tasks := c.tasks[t := r]), log, [], true)
      else UpdateStatus(Early(c, t, r.status), log, t, r.status, r.output, r.error, io)
  }

  /** The poll at the end of a cancellation found the execution that was cancelled, and found it cancelled. */
  predicate Confirms(p: Effect, q: Call)
    requires q.Cancel?
  {
    && p.returned && q.task in p.cache.tasks && !Final(p.cache.tasks[q.task].status)
    && q.transport && q.endpoint.Some? && RightEndpoint(p.cache, q.task, q.endpoint.value)
    && q.answer.Got? && q.answer.valid && q.answer.response.run == p.cache.tasks[q.task].run && q.answer.response.status.CANCELLED?
  }

  function CancelTask(c: Cache, log: seq<Entry>, q: Call): Effect
    requires q.Cancel?
  {
    var p := PollTask(c, log, q.task, q.endpoint, q.transport, q.polled, q.io);
    if Confirms(p, q) then UpdateStatus(p.cache, p.log, q.task, CANCELLED, q.answer.response.output, q.answer.response.error, q.last)
    else p.(returned := p.returned && q.task in p.cache.tasks && Final(p.cache.tasks[q.task].status))
  }

  function Apply(c: Cache, log: seq<Entry>, q: Call): Effect {
    match q
    case Dispatch(_, _, _, _, _, _, _) => DispatchTask(c, log, q)
    case Reconcile(_, _, _, _, _) => ReconcileTask(c, log, q)
    case Abandon(_, _, _) => AbandonTask(c, log, q)
    case Poll(t, endpoint, transport, polled, io) => PollTask(c, log, t, endpoint, transport, polled, io)
    case Update(t, status, output, error, io) => UpdateStatus(c, log, t, status, output, error, io)
    case Cancel(_, _, _, _, _, _, _) => CancelTask(c, log, q)
  }

  // ---------------------------------------------------------------- what holds whatever the store does

  /** An entry about `t` changes what is replayed of `t` only. */
  lemma OthersStay(log: seq<Entry>, e: Entry, t: string)
    requires t != e.task
    ensures t in Replay(log + [e]) <==> t in Replay(log)
    ensures t in Replay(log) ==> Replay(log + [e])[t] == Replay(log)[t]
  {
    Snoc(log, e);
    hide Replay;
  }

  /** Only a never-started report could undo an abandonment. */
  lemma BurnedStays(log: seq<Entry>, e: Entry, t: string)
    requires t in Replay(log) && Replay(log)[t].abandoned && !(e.NotStarted? && e.task == t)
    requires LogOk(log)
    ensures t in Replay(log + [e]) && Replay(log + [e])[t].abandoned
  {
    Snoc(log, e);
    hide Replay, Taken, Attempts;
  }

  lemma SafeAfter(c: Cache, log: seq<Entry>, e: Entry)
    requires Safe(c, log) && MayFollow(log, e)
    ensures Safe(c, log + [e])
  {
    Snoc(log, e);
    hide Replay, Taken, Attempts, LogOk, MayFollow;
  }

  /** What one append may do to the log. */
  ghost predicate OneMore(log: seq<Entry>, log': seq<Entry>, e: Entry) {
    log' == log || log' == log + [e]
  }

  lemma SafeAppend(c: Cache, log: seq<Entry>, e: Entry, how: Storing)
    requires Safe(c, log) && Fits(log, e)
    ensures var log' := Append(log, e, how).0; OneMore(log, log', e) && Safe(c, log')
    ensures Append(log, e, how).1.Wrote? ==> Append(log, e, how).0 == log + [e] && !Taken(log, KeyOf(e))
  {
    AppendFollows(log, e, how);
    AppendIs(log, e, how);
    hide Append, Fits, Replay, Attempts, LogOk, MayFollow;
    if Append(log, e, how).0 != log { SafeAfter(c, log, e); }
  }

  lemma SafeRecorded(c: Cache, log: seq<Entry>, t: string, r: Response, own: Option<nat>, io: Io)
    requires Safe(c, log)
    ensures var log' := Recorded(log, t, r, own, io).0;
            Safe(c, log') && (log' == log || exists k: nat :: log' == log + [Observed(t, k, r)])
  {
    var v := ObserveRead(log, t, r, own);
    if v.Forwards? {
      LogTask(log, t);
      assert Fits(log, Observed(t, v.attempt, r)) by { hide LogOk, Taken, Attempts, Replay; assert StateOk(log, t, Replay(log)[t]); }
      SafeAppend(c, log, Observed(t, v.attempt, r), io.how);
    }
    hide Replay, Append, LogOk, Attempts, ObserveRead, Safe;
  }

  /** A call keeps the log lawful and append-only, and memory safe; what was abandoned stays abandoned, is not denied and not submitted; what is
      submitted was claimed first, with the call's first record, and never before. */
  ghost predicate Kept(c: Cache, log: seq<Entry>, f: Effect) {
    && log <= f.log && Safe(f.cache, f.log) && c.abandoned <= f.cache.abandoned
    && (forall i :: |log| <= i < |f.log| ==> !(f.log[i].NotStarted? && f.log[i].task in c.abandoned))
    && |f.submits| <= 1
    && (f.submits != [] ==>
          var s := f.submits[0];
          s.0 !in c.abandoned && !Taken(log, KSubmitting(s.0, s.1)) && |log| < |f.log| && KeyOf(f.log[|log|]) == KSubmitting(s.0, s.1))
  }

  lemma Unchanged(c: Cache, log: seq<Entry>, returned: bool)
    requires Safe(c, log)
    ensures Kept(c, log, Effect(c, log, [], returned))
  {
    hide Safe;
  }

  /** Memory may take over what the log says of a task it does not know. */
  lemma AdoptSafe(c: Cache, log: seq<Entry>, t: string)
    requires Safe(c, log) && t in Replay(log) && t !in c.abandoned && t !in c.uncertain
    ensures Safe(Adopt(c, t, Replay(log)[t]), log)
  {
    LogTask(log, t);
    hide Replay, Attempts, Taken, LogOk;
    assert StateOk(log, t, Replay(log)[t]);
  }

  lemma SentSafe(c: Cache, log: seq<Entry>, t: string, k: nat, binding: string, endpoint: string)
    requires Safe(c, log) && t !in c.abandoned && 1 <= k <= Attempts(log, t)
    ensures Safe(Sent(c, t, k, binding, endpoint), log)
  {
    hide Replay, Attempts, LogOk;
  }

  lemma AnsweredSafe(c: Cache, log: seq<Entry>, t: string, r: Response)
    requires Safe(c, log)
    ensures Safe(Answered(c, t, r), log) && Safe(c.(tasks := c.tasks[t := r]), log)
  {
    hide Replay, Attempts, LogOk;
  }

  lemma SendKept(c: Cache, log: seq<Entry>, q: Call, k: nat)
    requires Safe(c, log) && q.Dispatch? && q.endpoint.Some? && q.task !in c.abandoned && Fits(log, Submitting(q.task, k, q.binding, q.endpoint.value))
    requires !Taken(log, KSubmitting(q.task, k)) && MayFollow(log, Submitting(q.task, k, q.binding, q.endpoint.value))
    ensures var e := Submitting(q.task, k, q.binding, q.endpoint.value);
            Kept(c, log, SendTask(Sent(c, q.task, k, q.binding, q.endpoint.value), log + [e], q, k))
  {
    var e := Submitting(q.task, k, q.binding, q.endpoint.value);
    var log1, sent := log + [e], Sent(c, q.task, k, q.binding, q.endpoint.value);
    SafeAfter(c, log, e);
    Snoc(log, e);
    SentSafe(c, log1, q.task, k, q.binding, q.endpoint.value);
    if q.answer.Got? {
      SafeRecorded(sent, log1, q.task, q.answer.response, Some(k), q.io);
      AnsweredSafe(sent, Recorded(log1, q.task, q.answer.response, Some(k), q.io).0, q.task, q.answer.response);
    }
    hide Safe, Recorded, Taken, MayFollow, Fits, Attempts, Replay;
  }

  lemma DispatchKept(c: Cache, log: seq<Entry>, q: Call)
    requires Safe(c, log) && q.Dispatch?
    ensures Kept(c, log, DispatchTask(c, log, q))
  {
    var f := DispatchTask(c, log, q);
    Unchanged(c, log, f.returned);
    if !Refuses(c, q) && q.claim.read {
      if q.task in Replay(log) {
        AdoptSafe(c, log, q.task);
        hide Safe, Replay, Attempts, Append, Recorded;
      } else {
        var k := Attempts(log, q.task) + 1;
        var e := Submitting(q.task, k, q.binding, q.endpoint.value);
        ClaimFits(log, e);
        SafeAppend(c, log, e, q.claim.how);
        if Append(log, e, q.claim.how).1.Wrote? { SendKept(c, log, q, k); }
        hide Safe, Replay, Attempts, Append, SendTask, Fits, MayFollow, Taken;
      }
    } else {
      hide Safe, Replay, Attempts, Append, Recorded;
    }
  }

  lemma ClaimFits(log: seq<Entry>, e: Entry)
    requires LogOk(log) && e.Submitting? && e.task !in Replay(log) && e.attempt == Attempts(log, e.task) + 1
    ensures Fits(log, e) && !Taken(log, KeyOf(e)) && MayFollow(log, e)
  {
    LogTask(log, e.task);
    hide Replay, Attempts, Taken, LogOk;
  }

  lemma ReconcileKept(c: Cache, log: seq<Entry>, q: Call)
    requires Safe(c, log) && q.Reconcile?
    ensures Kept(c, log, ReconcileTask(c, log, q))
  {
    var t := q.task;
    Unchanged(c, log, ReconcileTask(c, log, q).returned);
    if t in c.uncertain {
      var e := NotStarted(t, AttemptOf(c, t));
      SafeAppend(c, log, e, q.io.how);
      ReleasedSafe(c, Append(log, e, q.io.how).0, t);
      if q.answer.Got? {
        SafeRecorded(c, log, t, q.answer.response, OwnAttempt(c, t), q.io);
        AnsweredSafe(c, Recorded(log, t, q.answer.response, OwnAttempt(c, t), q.io).0, t, q.answer.response);
      }
    }
    hide Safe, Recorded, Append;
  }

  lemma ReleasedSafe(c: Cache, log: seq<Entry>, t: string)
    requires Safe(c, log)
    ensures Safe(Released(c, t), log)
  {
    hide Replay, Attempts, LogOk;
  }

  lemma AbandonKept(c: Cache, log: seq<Entry>, q: Call)
    requires Safe(c, log) && q.Abandon?
    ensures Kept(c, log, AbandonTask(c, log, q))
  {
    var t := q.task;
    Unchanged(c, log, AbandonTask(c, log, q).returned);
    if t in c.uncertain && !IsBlank(q.reason) {
      var e := Abandoned(t, AttemptOf(c, t));
      SafeAppend(c, log, e, q.io.how);
      BurnedSafe(c, Append(log, e, q.io.how).0, t);
    }
    hide Safe, Append;
  }

  lemma BurnedSafe(c: Cache, log: seq<Entry>, t: string)
    requires Safe(c, log)
    ensures Safe(Burned(c, t), log)
  {
    hide Replay, Attempts, LogOk;
  }

  lemma UpdateKept(c: Cache, log: seq<Entry>, t: string, status: Status, output: Option<Value>, error: Option<Value>, io: Io)
    requires Safe(c, log)
    ensures Kept(c, log, UpdateStatus(c, log, t, status, output, error, io))
  {
    Unchanged(c, log, UpdateStatus(c, log, t, status, output, error, io).returned);
    if t in c.tasks {
      var updated := Updated(c.tasks[t], status, output, error);
      SafeRecorded(c, log, t, updated, OwnAttempt(c, t), io);
      AnsweredSafe(c, Recorded(log, t, updated, OwnAttempt(c, t), io).0, t, updated);
    }
    hide Safe, Recorded, AllowedMove, Updated;
  }

  lemma PollKept(c: Cache, log: seq<Entry>, t: string, endpoint: Option<string>, transport: bool, polled: Option<Answer>, io: Io)
    requires Safe(c, log)
    ensures Kept(c, log, PollTask(c, log, t, endpoint, transport, polled, io))
  {
    Unchanged(c, log, PollTask(c, log, t, endpoint, transport, polled, io).returned);
    if Polls(c, t, endpoint, transport, polled) {
      var r := polled.value.response;
      AnsweredSafe(c, log, t, r);
      AnsweredSafe(c, log, t, c.tasks[t].(status := RUNNING));
      Unchanged(c.(tasks := c.tasks[t := r]), log, true);
      UpdateKept(Early(c, t, r.status), log, t, r.status, r.output, r.error, io);
    }
    hide Safe, UpdateStatus, Taken;
  }

  lemma KeptTrans(c: Cache, log: seq<Entry>, f: Effect, g: Effect)
    requires Kept(c, log, f) && f.submits == [] && Kept(f.cache, f.log, g) && g.submits == []
    ensures Kept(c, log, g)
  {
    hide Safe, Taken;
    forall i | |log| <= i < |g.log| ensures !(g.log[i].NotStarted? && g.log[i].task in c.abandoned) {
      if i < |f.log| { assert g.log[i] == f.log[i]; }
    }
  }

  lemma CancelKept(c: Cache, log: seq<Entry>, q: Call)
    requires Safe(c, log) && q.Cancel?
    ensures Kept(c, log, CancelTask(c, log, q))
  {
    var p := PollTask(c, log, q.task, q.endpoint, q.transport, q.polled, q.io);
    PollKept(c, log, q.task, q.endpoint, q.transport, q.polled, q.io);
    UpdatesSilent(c, log, Poll(q.task, q.endpoint, q.transport, q.polled, q.io));
    if Confirms(p, q) {
      UpdateKept(p.cache, p.log, q.task, CANCELLED, q.answer.response.output, q.answer.response.error, q.last);
      UpdatesSilent(p.cache, p.log, Update(q.task, CANCELLED, q.answer.response.output, q.answer.response.error, q.last));
      KeptTrans(c, log, p, CancelTask(c, log, q));
    }
    hide Safe, PollTask, UpdateStatus, Taken;
  }

  lemma UpdatesSilent(c: Cache, log: seq<Entry>, q: Call)
    ensures !q.Dispatch? ==> Apply(c, log, q).submits == []
  {
    hide Recorded, Append;
  }

  /** Whatever transport and store do, a call keeps the log lawful, memory safe, and submits only what it claimed first. */
  lemma ApplyKept(c: Cache, log: seq<Entry>, q: Call)
    requires Safe(c, log)
    ensures Kept(c, log, Apply(c, log, q))
  {
    hide Safe, Kept, DispatchTask, ReconcileTask, AbandonTask, PollTask, UpdateStatus, CancelTask;
    match q
    case Dispatch(_, _, _, _, _, _, _) => DispatchKept(c, log, q);
    case Reconcile(_, _, _, _, _) => ReconcileKept(c, log, q);
    case Abandon(_, _, _) => AbandonKept(c, log, q);
    case Poll(t, endpoint, transport, polled, io) => PollKept(c, log, t, endpoint, transport, polled, io);
    case Update(t, status, output, error, io) => UpdateKept(c, log, t, status, output, error, io);
    case Cancel(_, _, _, _, _, _, _) => CancelKept(c, log, q);
  }

  // ---------------------------------------------------------------- exactly when memory follows the log

  /** The evidence is not recorded: the journal cannot be read, the store fails or has closed the Stream, or no Record can hold it. */
  predicate Refused(r: Response, io: Io) {
    !io.read || io.how.Fails? || io.how.Closed? || !Recordable(r)
  }

  /** The evidence is recorded, but the caller never hears of it. */
  predicate Unheard(r: Response, io: Io) {
    io.read && io.how.CommitsOnly? && Recordable(r)
  }

  predicate UpdateLost(c: Cache, t: string, status: Status, output: Option<Value>, error: Option<Value>, io: Io) {
    t in c.tasks && AllowedMove(c.tasks[t].status, status) && Unheard(Updated(c.tasks[t], status, output, error), io)
  }

  predicate PollLost(c: Cache, t: string, endpoint: Option<string>, transport: bool, polled: Option<Answer>, io: Io) {
    Polls(c, t, endpoint, transport, polled)
    && var r := polled.value.response;
       r.status != c.tasks[t].status && UpdateLost(Early(c, t, r.status), t, r.status, r.output, r.error, io)
  }

  /** The store commits a record of the call and loses its answer. */
  predicate AnswerLost(c: Cache, log: seq<Entry>, q: Call) {
    match q
    case Dispatch(_, _, _, _, claim, answer, io) =>
      !Refuses(c, q) && claim.read
      && (claim.how.CommitsOnly? || (claim.how.Accepts? && answer.Got? && answer.valid && Unheard(answer.response, io)))
    case Reconcile(t, endpoint, lookup, answer, io) =>
      t in c.uncertain && endpoint.Some? && RightEndpoint(c, t, endpoint.value) && lookup
      && ((answer.Unknown? && answer.definitive && io.how.CommitsOnly?) || (answer.Got? && answer.valid && Unheard(answer.response, io)))
    case Abandon(t, reason, io) => t in c.uncertain && !IsBlank(reason) && io.how.CommitsOnly?
    case Poll(t, endpoint, transport, polled, io) => PollLost(c, t, endpoint, transport, polled, io)
    case Update(t, status, output, error, io) => UpdateLost(c, t, status, output, error, io)
    case Cancel(t, endpoint, transport, polled, io, answer, last) =>
      PollLost(c, t, endpoint, transport, polled, io)
      || var p := PollTask(c, log, t, endpoint, transport, polled, io);
         Confirms(p, q) && UpdateLost(p.cache, t, CANCELLED, answer.response.output, answer.response.error, last)
  }

  ghost predicate SameExcept(c: Cache, d: Cache, t: string) {
    && (forall x :: x != t ==> (x in c.abandoned <==> x in d.abandoned) && (x in c.uncertain <==> x in d.uncertain))
    && (forall x :: x != t ==> (x in c.tasks <==> x in d.tasks) && (x in c.tasks ==> c.tasks[x] == d.tasks[x]))
    && (forall x :: x != t ==> (x in c.bindings ==> x in d.bindings && c.bindings[x] == d.bindings[x])
                               && (x in c.attempts ==> x in d.attempts && c.attempts[x] == d.attempts[x])
                               && (x in c.endpoints ==> x in d.endpoints && c.endpoints[x] == d.endpoints[x]))
  }

  lemma AgreesAfter(c: Cache, d: Cache, log: seq<Entry>, e: Entry)
    requires Agrees(c, log) && SameExcept(c, d, e.task) && AgreesAt(d, Replay(log + [e]), e.task)
    ensures Agrees(d, log + [e])
  {
    hide Replay;
    forall t ensures AgreesAt(d, Replay(log + [e]), t) {
      if t != e.task {
        OthersStay(log, e, t);
        assert AgreesAt(c, Replay(log), t);
      }
    }
  }

  lemma InStepAfter(c: Cache, d: Cache, log: seq<Entry>, e: Entry)
    requires InStep(c, log) && SameExcept(c, d, e.task)
    requires e.task in d.tasks && e.task in Replay(log + [e]) && Replay(log + [e])[e.task].response.Some? ==>
               d.tasks[e.task].status == Replay(log + [e])[e.task].response.value.status
    ensures InStep(d, log + [e])
  {
    hide Replay;
    forall t | t in d.tasks && t in Replay(log + [e]) && Replay(log + [e])[t].response.Some?
      ensures d.tasks[t].status == Replay(log + [e])[t].response.value.status
    {
      if t != e.task { OthersStay(log, e, t); }
    }
  }

  lemma AgreesSame(c: Cache, d: Cache, log: seq<Entry>, t: string)
    requires Agrees(c, log) && SameExcept(c, d, t) && AgreesAt(d, Replay(log), t)
    ensures Agrees(d, log)
  {
    hide Replay;
    forall x ensures AgreesAt(d, Replay(log), x) {
      assert AgreesAt(c, Replay(log), x);
    }
  }

  lemma Disagrees(c: Cache, log: seq<Entry>, t: string)
    requires !AgreesAt(c, Replay(log), t)
    ensures !Agrees(c, log)
  {
    hide Replay;
  }

  /** What an append to a lawful log does if its entry is new and the evidence can be held. */
  lemma NewAppend(log: seq<Entry>, e: Entry, how: Storing)
    requires !Taken(log, KeyOf(e)) && (e.Observed? ==> Recordable(e.response))
    ensures Append(log, e, how) == if how.Fails? || how.Closed? then (log, Outcome.Raised)
                                   else (log + [e], if how.CommitsOnly? then Outcome.Raised else Wrote)
  {
  }

  /** With the log as memory sees it, a response that moves the task forward is recorded exactly if it is not refused. */
  lemma RecordedIs(log: seq<Entry>, t: string, r: Response, own: nat, io: Io)
    requires LogOk(log) && t in Replay(log) && !Replay(log)[t].abandoned && Replay(log)[t].attempt == own
    requires Replay(log)[t].response.Some? ==>
               !Final(Replay(log)[t].response.value.status) && Rank(Replay(log)[t].response.value.status) < Rank(r.status)
    ensures var e := Observed(t, own, r);
            && Recorded(log, t, r, Some(own), io) == (if Refused(r, io) then (log, false) else (log + [e], io.how.Accepts?))
            && (Recordable(r) ==> MayFollow(log, e))
            && Replay(log + [e]) == Replay(log)[t := Replay(log)[t].(response := Some(r), uncertain := false)]
  {
    var e := Observed(t, own, r);
    LogTask(log, t);
    Snoc(log, e);
    hide Taken, Replay, Attempts, LogOk, Recordable;
    assert StateOk(log, t, Replay(log)[t]);
    assert !Taken(log, KObserved(t, own, r.status));
    if Recordable(r) { NewAppend(log, e, io.how); }
  }

  /** A response for an uncertain task, unless refused, makes it an ordinary one; memory that does not hear of it stays behind. */
  lemma AnswerOk(c: Cache, log: seq<Entry>, t: string, r: Response, io: Io)
    requires LogOk(log) && Agrees(c, log) && t in c.uncertain
    ensures t in c.attempts && t !in c.abandoned
    ensures var log' := log + [Observed(t, c.attempts[t], r)];
            && Recorded(log, t, r, Some(c.attempts[t]), io) == (if Refused(r, io) then (log, false) else (log', io.how.Accepts?))
            && Agrees(Answered(c, t, r), log') && (InStep(c, log) ==> InStep(Answered(c, t, r), log'))
            && !Agrees(c, log')
  {
    assert AgreesAt(c, Replay(log), t);
    hide Replay, Attempts, Taken, Agrees, LogOk, Recorded, MayFollow, Recordable, InStep, Refused;
    var k := Replay(log)[t].attempt;
    var e := Observed(t, k, r);
    RecordedIs(log, t, r, k, io);
    AgreesAfter(c, Answered(c, t, r), log, e);
    Disagrees(c, log + [e], t);
    if InStep(c, log) { InStepAfter(c, Answered(c, t, r), log, e); }
  }

  /** The claim is durable before the side effect: from then on the task is uncertain, in memory and in the log. */
  lemma SentOk(c: Cache, log: seq<Entry>, t: string, k: nat, binding: string, endpoint: string)
    requires LogOk(log) && Agrees(c, log) && t !in Replay(log) && k == Attempts(log, t) + 1
    ensures var e := Submitting(t, k, binding, endpoint);
            && !Taken(log, KeyOf(e)) && LogOk(log + [e]) && Agrees(Sent(c, t, k, binding, endpoint), log + [e])
            && (InStep(c, log) ==> InStep(Sent(c, t, k, binding, endpoint), log + [e]))
            && !Agrees(c, log + [e])
  {
    var e := Submitting(t, k, binding, endpoint);
    hide Replay, Attempts, Taken, LogOk, MayFollow;
    ClaimFits(log, e);
    Snoc(log, e);
    assert AgreesAt(c, Replay(log), t);
    hide Agrees, InStep;
    AgreesAfter(c, Sent(c, t, k, binding, endpoint), log, e);
    Disagrees(c, log + [e], t);
    if InStep(c, log) { InStepAfter(c, Sent(c, t, k, binding, endpoint), log, e); }
  }

  /** The call leaves memory agreeing with the log exactly if no answer was lost, and in step then if it was before. */
  ghost predicate Follows(c: Cache, log: seq<Entry>, f: Effect, lost: bool) {
    && (Agrees(f.cache, f.log) <==> !lost)
    && (InStep(c, log) && !lost ==> InStep(f.cache, f.log))
  }

  lemma Still(c: Cache, log: seq<Entry>, f: Effect)
    requires Agrees(c, log) && f.cache == c && f.log == log
    ensures Follows(c, log, f, false)
  {
    hide Agrees, InStep;
  }

  lemma SendFollows(c: Cache, log: seq<Entry>, q: Call, k: nat)
    requires LogOk(log) && Agrees(c, log) && q.Dispatch? && q.endpoint.Some?
    requires q.task !in Replay(log) && k == Attempts(log, q.task) + 1
    ensures var log1 := log + [Submitting(q.task, k, q.binding, q.endpoint.value)];
            Follows(c, log, SendTask(Sent(c, q.task, k, q.binding, q.endpoint.value), log1, q, k),
                    q.answer.Got? && q.answer.valid && Unheard(q.answer.response, q.io))
  {
    var t := q.task;
    var log1, sent := log + [Submitting(t, k, q.binding, q.endpoint.value)], Sent(c, t, k, q.binding, q.endpoint.value);
    SentOk(c, log, t, k, q.binding, q.endpoint.value);
    hide Replay, Attempts, Taken, Agrees, LogOk, Recorded, Recordable, InStep;
    if q.answer.Got? && q.answer.valid { AnswerOk(sent, log1, t, q.answer.response, q.io); }
  }

  /** A dispatch of a task the log does not know: its claim, and then the side effect if the claim was answered. */
  lemma DispatchIs(c: Cache, log: seq<Entry>, q: Call, k: nat)
    requires q.Dispatch? && !Refuses(c, q) && q.claim.read && ClaimRead(log, q.task) == Next(k) && !Taken(log, KSubmitting(q.task, k))
    ensures var log1 := log + [Submitting(q.task, k, q.binding, q.endpoint.value)];
            DispatchTask(c, log, q) ==
            match q.claim.how
            case Accepts => SendTask(Sent(c, q.task, k, q.binding, q.endpoint.value), log1, q, k)
            case CommitsOnly => Effect(c, log1, [], false)
            case _ => Effect(c, log, [], false)
  {
    hide SendTask, ClaimRead, Taken;
  }

  lemma DispatchFollows(c: Cache, log: seq<Entry>, q: Call)
    requires LogOk(log) && Agrees(c, log) && q.Dispatch?
    ensures Follows(c, log, DispatchTask(c, log, q), AnswerLost(c, log, q))
  {
    var t := q.task;
    assert AgreesAt(c, Replay(log), t);
    if !Refuses(c, q) && q.claim.read {
      var k := Attempts(log, t) + 1;
      assert t !in Replay(log) && ClaimRead(log, t) == Next(k);
      SentOk(c, log, t, k, q.binding, q.endpoint.value);
      DispatchIs(c, log, q, k);
      SendFollows(c, log, q, k);
      hide DispatchTask, Replay, Attempts, Taken, Agrees, LogOk, SendTask, InStep, Unheard;
      Still(c, log, Effect(c, log, [], false));
    } else {
      hide Replay, Attempts, Taken, Agrees, LogOk, Append, SendTask, InStep, Unheard;
      Still(c, log, DispatchTask(c, log, q));
    }
  }

  /** Where memory and log agreed, they agree again once the denial is recorded and the id given up in memory. */
  lemma ReleaseOk(c: Cache, log: seq<Entry>, t: string)
    requires LogOk(log) && Agrees(c, log) && t in c.uncertain
    ensures var e := NotStarted(t, AttemptOf(c, t));
            && !Taken(log, KeyOf(e)) && Agrees(Released(c, t), log + [e]) && (InStep(c, log) ==> InStep(Released(c, t), log + [e]))
            && !Agrees(c, log + [e])
  {
    LogTask(log, t);
    assert AgreesAt(c, Replay(log), t);
    hide Replay, Attempts, Taken, Agrees, LogOk, InStep;
    assert StateOk(log, t, Replay(log)[t]);
    var e := NotStarted(t, Replay(log)[t].attempt);
    Snoc(log, e);
    AgreesAfter(c, Released(c, t), log, e);
    Disagrees(c, log + [e], t);
    if InStep(c, log) { InStepAfter(c, Released(c, t), log, e); }
  }

  lemma BurnOk(c: Cache, log: seq<Entry>, t: string)
    requires LogOk(log) && Agrees(c, log) && t in c.uncertain
    ensures var e := Abandoned(t, AttemptOf(c, t));
            && !Taken(log, KeyOf(e)) && Agrees(Burned(c, t), log + [e]) && (InStep(c, log) ==> InStep(Burned(c, t), log + [e]))
            && !Agrees(c, log + [e])
  {
    LogTask(log, t);
    assert AgreesAt(c, Replay(log), t);
    hide Replay, Attempts, Taken, Agrees, LogOk, InStep;
    assert StateOk(log, t, Replay(log)[t]);
    var e := Abandoned(t, Replay(log)[t].attempt);
    Snoc(log, e);
    AgreesAfter(c, Burned(c, t), log, e);
    Disagrees(c, log + [e], t);
    if InStep(c, log) { InStepAfter(c, Burned(c, t), log, e); }
  }

  lemma ReconcileFollows(c: Cache, log: seq<Entry>, q: Call)
    requires LogOk(log) && Agrees(c, log) && q.Reconcile?
    ensures Follows(c, log, ReconcileTask(c, log, q), AnswerLost(c, log, q))
  {
    var t := q.task;
    if t in c.uncertain && (q.answer.Got? || q.answer.Unknown?) {
      if q.answer.Got? {
        AnswerOk(c, log, t, q.answer.response, q.io);
      } else {
        ReleaseOk(c, log, t);
        NewAppend(log, NotStarted(t, AttemptOf(c, t)), q.io.how);
      }
    }
    hide Replay, Attempts, Taken, Agrees, LogOk, Append, Recorded, Recordable, InStep;
    Still(c, log, Effect(c, log, [], false));
  }

  lemma AbandonFollows(c: Cache, log: seq<Entry>, q: Call)
    requires LogOk(log) && Agrees(c, log) && q.Abandon?
    ensures Follows(c, log, AbandonTask(c, log, q), AnswerLost(c, log, q))
  {
    var t := q.task;
    if t in c.uncertain {
      BurnOk(c, log, t);
      NewAppend(log, Abandoned(t, AttemptOf(c, t)), q.io.how);
    }
    hide Replay, Attempts, Taken, Agrees, LogOk, Append, InStep, IsBlank;
    Still(c, log, Effect(c, log, [], false));
  }

  lemma MoveFits(c: Cache, tasks: Tasks, t: string, to: Status)
    requires AgreesAt(c, tasks, t) && t in c.tasks && AllowedMove(c.tasks[t].status, to)
    ensures t in tasks && !tasks[t].abandoned && t in c.attempts && c.attempts[t] == tasks[t].attempt
    ensures tasks[t].response.Some? && !Final(tasks[t].response.value.status) && Rank(tasks[t].response.value.status) < Rank(to)
    ensures c.tasks[t].status != to && !to.SUBMITTED?
  {
  }

  /** An allowed move is recorded unless refused, and memory that hears of it is that of the log. */
  lemma MoveOk(c: Cache, log: seq<Entry>, t: string, r: Response, io: Io)
    requires LogOk(log) && Agrees(c, log) && t in c.tasks && AllowedMove(c.tasks[t].status, r.status)
    ensures t in c.attempts
    ensures var log' := log + [Observed(t, c.attempts[t], r)]; var d := c.(tasks := c.tasks[t := r]);
            && Recorded(log, t, r, Some(c.attempts[t]), io) == (if Refused(r, io) then (log, false) else (log', io.how.Accepts?))
            && Agrees(d, log') && (InStep(c.(tasks := c.tasks - {t}), log) ==> InStep(d, log'))
            && !Agrees(c, log')
  {
    assert AgreesAt(c, Replay(log), t);
    hide Replay, Attempts, Taken, Agrees, LogOk, Recorded, MayFollow, Rank, AllowedMove, Recordable, InStep, Refused;
    MoveFits(c, Replay(log), t, r.status);
    var e := Observed(t, c.attempts[t], r);
    RecordedIs(log, t, r, c.attempts[t], io);
    var d := c.(tasks := c.tasks[t := r]);
    AgreesAfter(c, d, log, e);
    Disagrees(c, log + [e], t);
    var without := c.(tasks := c.tasks - {t});
    if InStep(without, log) { InStepAfter(without, d, log, e); }
  }

  lemma UpdateFollows(c: Cache, log: seq<Entry>, t: string, status: Status, output: Option<Value>, error: Option<Value>, io: Io)
    requires LogOk(log) && Agrees(c, log)
    ensures Follows(c, log, UpdateStatus(c, log, t, status, output, error, io), UpdateLost(c, t, status, output, error, io))
  {
    if t in c.tasks && AllowedMove(c.tasks[t].status, status) {
      var r := Updated(c.tasks[t], status, output, error);
      MoveOk(c, log, t, r, io);
      InStepWithout(c, log, t);
    }
    hide Replay, Attempts, Taken, Agrees, LogOk, Recorded, AllowedMove, Recordable, Updated, InStep;
    Still(c, log, Effect(c, log, [], false));
  }

  lemma InStepWithout(c: Cache, log: seq<Entry>, t: string)
    ensures InStep(c, log) ==> InStep(c.(tasks := c.tasks - {t}), log)
  {
    hide Replay;
  }

  lemma EarlyAgrees(c: Cache, log: seq<Entry>, t: string, status: Status)
    requires Agrees(c, log) && t in c.tasks
    ensures Agrees(Early(c, t, status), log)
  {
    assert AgreesAt(c, Replay(log), t);
    hide Replay, Agrees;
    if Early(c, t, status) != c { AgreesSame(c, Early(c, t, status), log, t); }
  }

  /** A new sample of an unchanged status. */
  lemma RefreshAgrees(c: Cache, log: seq<Entry>, t: string, r: Response)
    requires Agrees(c, log) && t in c.tasks && !Final(c.tasks[t].status) && r.status == c.tasks[t].status
    ensures Agrees(c.(tasks := c.tasks[t := r]), log) && (InStep(c, log) ==> InStep(c.(tasks := c.tasks[t := r]), log))
  {
    assert AgreesAt(c, Replay(log), t);
    hide Replay, Agrees;
    AgreesSame(c, c.(tasks := c.tasks[t := r]), log, t);
  }

  /** The poll answers that a SUBMITTED task is COMPLETED, and the evidence is refused: memory says RUNNING, and the call raises. */
  predicate PollSkips(c: Cache, t: string, endpoint: Option<string>, transport: bool, polled: Option<Answer>, io: Io) {
    Polls(c, t, endpoint, transport, polled)
    && var r := polled.value.response;
       c.tasks[t].status.SUBMITTED? && r.status.COMPLETED? && Refused(Updated(c.tasks[t], COMPLETED, r.output, r.error), io)
  }

  /** The call is such a poll, or a cancellation that starts with one. */
  predicate Skips(c: Cache, q: Call) {
    match q
    case Poll(t, endpoint, transport, polled, io) => PollSkips(c, t, endpoint, transport, polled, io)
    case Cancel(t, endpoint, transport, polled, io, _, _) => PollSkips(c, t, endpoint, transport, polled, io)
    case _ => false
  }

  /** After a poll: memory agrees exactly if no answer was lost, and is in step then exactly if the poll did not skip. */
  ghost predicate PollsTo(c: Cache, log: seq<Entry>, f: Effect, lost: bool, skips: bool) {
    && (Agrees(f.cache, f.log) <==> !lost)
    && (InStep(c, log) && !lost ==> (InStep(f.cache, f.log) <==> !skips))
    && (lost || skips ==> !f.returned)
  }

  lemma CompletionFollows(c: Cache, log: seq<Entry>, t: string, output: Option<Value>, error: Option<Value>, io: Io)
    requires LogOk(log) && Agrees(c, log) && t in c.tasks && c.tasks[t].status.SUBMITTED?
    ensures var r := Updated(c.tasks[t], COMPLETED, output, error);
            PollsTo(c, log, UpdateStatus(Early(c, t, COMPLETED), log, t, COMPLETED, output, error, io), Unheard(r, io), Refused(r, io))
  {
    var d := Early(c, t, COMPLETED);
    var r := Updated(d.tasks[t], COMPLETED, output, error);
    assert r == Updated(c.tasks[t], COMPLETED, output, error) && r.status.COMPLETED? && d.attempts == c.attempts;
    assert AgreesAt(c, Replay(log), t);
    EarlyAgrees(c, log, t, COMPLETED);
    hide Replay, Attempts, Taken, Agrees, LogOk, Recorded, Recordable, Updated, InStep;
    MoveOk(d, log, t, r, io);
    InStepWithout(c, log, t);
    assert d.(tasks := d.tasks - {t}) == c.(tasks := c.tasks - {t});
    if Refused(r, io) { RunsEarly(d, log, t); }
  }

  lemma RunsEarly(d: Cache, log: seq<Entry>, t: string)
    requires t in d.tasks && d.tasks[t].status.RUNNING? && t in Replay(log) && Replay(log)[t].response.Some?
    requires !Replay(log)[t].response.value.status.RUNNING?
    ensures !InStep(d, log)
  {
    hide Replay;
  }

  lemma PollFollows(c: Cache, log: seq<Entry>, t: string, endpoint: Option<string>, transport: bool, polled: Option<Answer>, io: Io)
    requires LogOk(log) && Agrees(c, log)
    ensures PollsTo(c, log, PollTask(c, log, t, endpoint, transport, polled, io), PollLost(c, t, endpoint, transport, polled, io),
                    PollSkips(c, t, endpoint, transport, polled, io))
  {
    if Polls(c, t, endpoint, transport, polled) {
      var cur, r := c.tasks[t], polled.value.response;
      if r.status == cur.status {
        RefreshAgrees(c, log, t, r);
        hide UpdateStatus, Agrees, InStep, Replay, LogOk, Refused, Unheard, Updated;
      } else if cur.status.SUBMITTED? && r.status.COMPLETED? {
        CompletionFollows(c, log, t, r.output, r.error, io);
        hide UpdateStatus, Agrees, InStep, Replay, LogOk, Refused, Unheard;
      } else {
        UpdateFollows(c, log, t, r.status, r.output, r.error, io);
        LostRaises(c, log, t, r.status, r.output, r.error, io);
        hide UpdateStatus, UpdateLost, Agrees, InStep, Replay, LogOk;
      }
    } else {
      hide Agrees, InStep, Replay, LogOk;
    }
  }

  lemma LostRaises(c: Cache, log: seq<Entry>, t: string, status: Status, output: Option<Value>, error: Option<Value>, io: Io)
    requires LogOk(log) && Agrees(c, log)
    ensures UpdateLost(c, t, status, output, error, io) ==> !UpdateStatus(c, log, t, status, output, error, io).returned
  {
    if UpdateLost(c, t, status, output, error, io) { MoveOk(c, log, t, Updated(c.tasks[t], status, output, error), io); }
    hide Agrees, LogOk, Recorded, Recordable, AllowedMove, Replay;
  }

  lemma CancelFollows(c: Cache, log: seq<Entry>, q: Call)
    requires Safe(c, log) && Agrees(c, log) && q.Cancel?
    ensures PollsTo(c, log, CancelTask(c, log, q).(returned := false), AnswerLost(c, log, q), Skips(c, q))
  {
    var p := PollTask(c, log, q.task, q.endpoint, q.transport, q.polled, q.io);
    PollFollows(c, log, q.task, q.endpoint, q.transport, q.polled, q.io);
    PollKept(c, log, q.task, q.endpoint, q.transport, q.polled, q.io);
    if Confirms(p, q) { UpdateFollows(p.cache, p.log, q.task, CANCELLED, q.answer.response.output, q.answer.response.error, q.last); }
    hide PollTask, UpdateStatus, UpdateLost, PollLost, PollSkips, Agrees, InStep, LogOk, Taken;
  }

  /** From memory that agrees with the log: a call leaves it agreeing exactly if no answer of the store was lost. */
  lemma ApplyFaithful(c: Cache, log: seq<Entry>, q: Call)
    requires Safe(c, log)
    ensures Kept(c, log, Apply(c, log, q))
    ensures Agrees(c, log) ==> (Agrees(Apply(c, log, q).cache, Apply(c, log, q).log) <==> !AnswerLost(c, log, q))
  {
    ApplyKept(c, log, q);
    if Agrees(c, log) { ApplyFollows(c, log, q); }
    hide Apply, Agrees, Kept, Safe, AnswerLost;
  }

  /** From memory and replay in step: a call leaves them agreeing and in step exactly if no answer of the store was lost, and the call is not a
      poll, nor a cancellation with a poll, of a SUBMITTED task answered COMPLETED whose evidence is refused. */
  lemma StepExact(c: Cache, log: seq<Entry>, q: Call)
    requires Safe(c, log) && Mirrors(c, log)
    ensures Mirrors(Apply(c, log, q).cache, Apply(c, log, q).log) <==> !AnswerLost(c, log, q) && !Skips(c, q)
  {
    ApplyFollows(c, log, q);
    hide Apply, Agrees, InStep, Safe, AnswerLost, Skips;
  }

  lemma ApplyFollows(c: Cache, log: seq<Entry>, q: Call)
    requires Safe(c, log) && Agrees(c, log)
    ensures PollsTo(c, log, Apply(c, log, q).(returned := false), AnswerLost(c, log, q), Skips(c, q))
  {
    assert LogOk(log);
    match q
    case Dispatch(_, _, _, _, _, _, _) => DispatchFollows(c, log, q); hide Agrees, InStep, DispatchTask, AnswerLost, LogOk;
    case Reconcile(_, _, _, _, _) => ReconcileFollows(c, log, q); hide Agrees, InStep, ReconcileTask, AnswerLost, LogOk;
    case Abandon(_, _, _) => AbandonFollows(c, log, q); hide Agrees, InStep, AbandonTask, AnswerLost, LogOk;
    case Poll(t, endpoint, transport, polled, io) =>
      PollFollows(c, log, t, endpoint, transport, polled, io);
      hide Agrees, InStep, PollTask, PollLost, PollSkips, LogOk;
    case Update(t, status, output, error, io) =>
      UpdateFollows(c, log, t, status, output, error, io);
      hide Agrees, InStep, UpdateStatus, UpdateLost, LogOk;
    case Cancel(_, _, _, _, _, _, _) => CancelFollows(c, log, q); hide Agrees, InStep, CancelTask, AnswerLost, LogOk, Skips;
  }

  // ---------------------------------------------------------------- restarts

  function BindingsOf(tasks: Tasks, keys: set<string>): map<string, string>
    requires keys <= tasks.Keys
  {
    map t | t in keys :: tasks[t].binding
  }

  function AttemptsOf(tasks: Tasks, keys: set<string>): map<string, nat>
    requires keys <= tasks.Keys
  {
    map t | t in keys :: tasks[t].attempt
  }

  function EndpointsOf(tasks: Tasks, keys: set<string>): map<string, string>
    requires keys <= tasks.Keys
  {
    map t | t in keys :: tasks[t].endpoint
  }

  /** Everything the log says, adopted into an empty memory. */
  function RestoredFrom(tasks: Tasks, keys: set<string>): Cache
    requires keys <= tasks.Keys
  {
    Cache(BindingsOf(tasks, keys), AttemptsOf(tasks, keys), EndpointsOf(tasks, keys),
          map t | t in keys && !tasks[t].abandoned && tasks[t].response.Some? :: tasks[t].response.value,
          set t | t in keys && !tasks[t].abandoned && tasks[t].response.None?, set t | t in keys && tasks[t].abandoned)
  }

  function Restored(log: seq<Entry>): Cache {
    RestoredFrom(Replay(log), Replay(log).Keys)
  }

  /** A restored adapter agrees with the log, whatever the log holds. */
  lemma RestoredAgrees(log: seq<Entry>)
    ensures Agrees(Restored(log), log)
  {
    hide Replay;
    forall t ensures AgreesAt(Restored(log), Replay(log), t) {
      assert t in Replay(log) <==> t in Replay(log).Keys;
    }
  }

  /** A restart brings memory and replay in step, whatever was before. */
  lemma RestoredInStep(log: seq<Entry>)
    ensures InStep(Restored(log), log)
  {
    hide Replay;
  }

  lemma RestoredSafe(log: seq<Entry>)
    requires LogOk(log)
    ensures Safe(Restored(log), log)
  {
    RestoredAgrees(log);
    forall t | t in Restored(log).uncertain
      ensures t in Restored(log).attempts && 1 <= Restored(log).attempts[t] <= Attempts(log, t) && t !in Restored(log).abandoned
    {
      LogTask(log, t);
      assert AgreesAt(Restored(log), Replay(log), t);
      hide Restored, Replay, Attempts, Taken, LogOk;
      assert StateOk(log, t, Replay(log)[t]);
    }
    hide Restored, Replay, Attempts, LogOk;
  }

  datatype Life = Life(cache: Cache, log: seq<Entry>, submits: seq<(string, nat)>)

  /** A call, or a call that crashes after its first `written` log records and the restart that follows. */
  datatype Event = Do(call: Call) | CrashIn(call: Call, written: nat)

  function After(w: Life, a: Event): Life {
    var f := Apply(w.cache, w.log, a.call);
    match a
    case Do(_) => Life(f.cache, f.log, w.submits + f.submits)
    case CrashIn(_, n) =>
      if |w.log| + n > |f.log| then w
      else
        var log := f.log[..|w.log| + n];
        Life(Restored(log), log, w.submits + if n > 0 then f.submits else [])
  }

  function Live(w: Life, acts: seq<Event>): Life
    decreases |acts|
  {
    if acts == [] then w else Live(After(w, acts[0]), acts[1..])
  }

  ghost predicate LifeOk(w: Life) {
    && Safe(w.cache, w.log)
    && (forall s :: s in w.submits ==> Taken(w.log, KSubmitting(s.0, s.1)))
    && (forall i, j :: 0 <= i < j < |w.submits| ==> w.submits[i] != w.submits[j])
  }

  lemma {:induction false} PrefixOk(log: seq<Entry>, n: nat)
    requires LogOk(log) && n <= |log|
    ensures LogOk(log[..n])
    decreases |log|
  {
    if n == |log| {
      assert log[..n] == log;
    } else {
      var init := log[..|log| - 1];
      assert init[..n] == log[..n];
      PrefixOk(init, n);
    }
  }

  lemma TakenStays(log: seq<Entry>, log': seq<Entry>, k: Key)
    requires log <= log' && Taken(log, k)
    ensures Taken(log', k)
  {
    var i :| 0 <= i < |log| && KeyOf(log[i]) == k;
    assert log'[i] == log[i];
  }

  lemma TakenAt(log: seq<Entry>, i: nat)
    requires i < |log|
    ensures Taken(log, KeyOf(log[i]))
  {
  }

  /** The submissions so far, and one more that was just claimed. */
  lemma SubmitsOk(submits: seq<(string, nat)>, more: seq<(string, nat)>, log: seq<Entry>, log': seq<Entry>)
    requires log <= log' && |more| <= 1
    requires forall s :: s in submits ==> Taken(log, KSubmitting(s.0, s.1))
    requires forall i, j :: 0 <= i < j < |submits| ==> submits[i] != submits[j]
    requires more != [] ==> !Taken(log, KSubmitting(more[0].0, more[0].1)) && Taken(log', KSubmitting(more[0].0, more[0].1))
    ensures var all := submits + more;
            && (forall s :: s in all ==> Taken(log', KSubmitting(s.0, s.1)))
            && (forall i, j :: 0 <= i < j < |all| ==> all[i] != all[j])
  {
    hide Taken;
    forall s | s in submits ensures Taken(log', KSubmitting(s.0, s.1)) {
      TakenStays(log, log', KSubmitting(s.0, s.1));
    }
    if more != [] && more[0] in submits { assert false; }
  }

  lemma {:induction false} BurnedAlong(log: seq<Entry>, log': seq<Entry>, t: string)
    requires log <= log' && LogOk(log') && t in Replay(log) && Replay(log)[t].abandoned
    requires forall i :: |log| <= i < |log'| ==> !(log'[i].NotStarted? && log'[i].task == t)
    ensures t in Replay(log') && Replay(log')[t].abandoned
    decreases |log'|
  {
    if |log| < |log'| {
      var init, e := log'[..|log'| - 1], log'[|log'| - 1];
      assert log' == init + [e] && log <= init;
      BurnedAlong(log, init, t);
      BurnedStays(init, e, t);
    } else {
      assert log == log';
    }
  }

  /** An id that is given up in memory and in the log stays so, and is not submitted. */
  ghost predicate BurntStay(w: Life, w': Life) {
    forall t :: Burnt(w.cache, w.log, t) ==>
      Burnt(w'.cache, w'.log, t) && (forall s :: s in w'.submits && s.0 == t ==> s in w.submits)
  }

  lemma DoOk(w: Life, q: Call)
    requires LifeOk(w)
    ensures LifeOk(After(w, Do(q))) && BurntStay(w, After(w, Do(q)))
  {
    var f := Apply(w.cache, w.log, q);
    ApplyKept(w.cache, w.log, q);
    hide Apply, Replay, Taken, LogOk, Attempts;
    assert LogOk(f.log);
    if f.submits != [] { TakenAt(f.log, |w.log|); }
    SubmitsOk(w.submits, f.submits, w.log, f.log);
    forall t | Burnt(w.cache, w.log, t) ensures Burnt(f.cache, f.log, t) {
      BurnedAlong(w.log, f.log, t);
    }
  }

  lemma CrashOk(w: Life, q: Call, n: nat)
    requires LifeOk(w)
    ensures LifeOk(After(w, CrashIn(q, n))) && BurntStay(w, After(w, CrashIn(q, n)))
  {
    hide Apply, Restored, Safe, Burnt, Taken;
    ApplyKept(w.cache, w.log, q);
    if |w.log| + n <= |Apply(w.cache, w.log, q).log| { RestartOk(w, Apply(w.cache, w.log, q), n); }
  }

  lemma RestartOk(w: Life, f: Effect, n: nat)
    requires LifeOk(w) && Kept(w.cache, w.log, f) && |w.log| + n <= |f.log|
    ensures var log := f.log[..|w.log| + n]; var w' := Life(Restored(log), log, w.submits + if n > 0 then f.submits else []);
            LifeOk(w') && BurntStay(w, w')
  {
    var log := f.log[..|w.log| + n];
    KeptLog(w.cache, w.log, f);
    hide Replay, Taken, LogOk, Attempts, Restored, Safe, Burnt;
    PrefixOk(f.log, |w.log| + n);
    RestoredSafe(log);
    if n > 0 && f.submits != [] { TakenAt(log, |w.log|); }
    SubmitsOk(w.submits, if n > 0 then f.submits else [], w.log, log);
    forall t | Burnt(w.cache, w.log, t) ensures Burnt(Restored(log), log, t) {
      RestoredBurnt(w.cache, w.log, log, t);
    }
    BurntUnsent(w, f);
  }

  /** What is given up is not submitted by the call. */
  lemma BurntUnsent(w: Life, f: Effect)
    requires Kept(w.cache, w.log, f)
    ensures forall t, s :: Burnt(w.cache, w.log, t) && s in f.submits ==> s.0 != t
  {
    hide Replay, Taken, Safe;
  }

  lemma KeptLog(c: Cache, log: seq<Entry>, f: Effect)
    requires Kept(c, log, f)
    ensures log <= f.log && LogOk(f.log)
  {
    hide LogOk, Taken, Attempts;
  }

  lemma RestoredBurnt(c: Cache, log: seq<Entry>, log': seq<Entry>, t: string)
    requires log <= log' && LogOk(log') && Burnt(c, log, t)
    requires forall i :: |log| <= i < |log'| ==> !(log'[i].NotStarted? && log'[i].task in c.abandoned)
    ensures Burnt(Restored(log'), log', t)
  {
    BurnedAlong(log, log', t);
    RestoredAgrees(log');
    assert AgreesAt(Restored(log'), Replay(log'), t);
    hide Restored, Replay, LogOk;
  }

  /** Over every sequence of calls, crashes inside calls and restarts, whatever transport and store do: the log stays lawful, no attempt is
      submitted twice or without its claim, and an id given up in memory and in the log stays so and is never submitted again. */
  lemma {:induction false} LiveFaithful(w: Life, events: seq<Event>)
    requires LifeOk(w)
    ensures LifeOk(Live(w, events)) && BurntStay(w, Live(w, events))
    decreases |events|
  {
    hide LifeOk, After, Burnt;
    if events != [] {
      var w' := After(w, events[0]);
      match events[0] {
        case Do(q) => DoOk(w, q);
        case CrashIn(q, n) => CrashOk(w, q, n);
      }
      LiveFaithful(w', events[1..]);
    }
  }

  /** What a returned abandonment is worth: the id is given up for good exactly if the log still has that attempt open, or given up already;
      it has, unless the answer to an earlier record was lost. */
  lemma AbandonExact(c: Cache, log: seq<Entry>, q: Call)
    requires Safe(c, log) && q.Abandon? && AbandonTask(c, log, q).returned
    ensures Burnt(AbandonTask(c, log, q).cache, AbandonTask(c, log, q).log, q.task)
            <==> q.task in Replay(log)
                 && (Replay(log)[q.task].abandoned
                     || (Replay(log)[q.task].attempt == AttemptOf(c, q.task) && Replay(log)[q.task].response.None?))
    ensures Agrees(c, log) ==> Burnt(AbandonTask(c, log, q).cache, AbandonTask(c, log, q).log, q.task)
  {
    var t := q.task;
    var e := Abandoned(t, AttemptOf(c, t));
    LogTask(log, t);
    Snoc(log, e);
    assert Agrees(c, log) ==> AgreesAt(c, Replay(log), t);
    hide Replay, Attempts, Taken, LogOk, Agrees;
    if t in Replay(log) { assert StateOk(log, t, Replay(log)[t]); }
  }

  /** Memory agrees with the log after every event. */
  ghost predicate AgreesThroughout(w: Life, events: seq<Event>)
    decreases |events|
  {
    Agrees(w.cache, w.log) && (events != [] ==> AgreesThroughout(After(w, events[0]), events[1..]))
  }

  /** No completed call loses an answer of the store. */
  predicate NeverLoses(w: Life, events: seq<Event>)
    decreases |events|
  {
    events != [] ==>
      !(events[0].Do? && AnswerLost(w.cache, w.log, events[0].call)) && NeverLoses(After(w, events[0]), events[1..])
  }

  /** Over every sequence that starts in agreement: memory agrees with the log throughout, up to a task shown running early, exactly if no
      completed call loses an answer of the store. */
  lemma {:induction false} LiveAgrees(w: Life, events: seq<Event>)
    requires LifeOk(w) && Agrees(w.cache, w.log)
    ensures AgreesThroughout(w, events) <==> NeverLoses(w, events)
    decreases |events|
  {
    hide Safe, Agrees, Apply, Restored, Taken, AnswerLost, Burnt;
    if events != [] {
      var w' := After(w, events[0]);
      match events[0]
      case Do(q) =>
        ApplyFaithful(w.cache, w.log, q);
        DoOk(w, q);
        if Agrees(w'.cache, w'.log) { LiveAgrees(w', events[1..]); }
      case CrashIn(q, n) =>
        CrashOk(w, q, n);
        if |w.log| + n <= |Apply(w.cache, w.log, q).log| { RestoredAgrees(Apply(w.cache, w.log, q).log[..|w.log| + n]); }
        LiveAgrees(w', events[1..]);
    }
  }

  /** Memory and replay say the same after every event. */
  ghost predicate MirrorsThroughout(w: Life, events: seq<Event>)
    decreases |events|
  {
    Mirrors(w.cache, w.log) && (events != [] ==> MirrorsThroughout(After(w, events[0]), events[1..]))
  }

  /** No completed call loses an answer of the store or shows a task running early. */
  predicate NeverSlips(w: Life, events: seq<Event>)
    decreases |events|
  {
    events != [] ==>
      !(events[0].Do? && (AnswerLost(w.cache, w.log, events[0].call) || Skips(w.cache, events[0].call)))
      && NeverSlips(After(w, events[0]), events[1..])
  }

  /** Over every sequence that starts in step: memory and replay say the same throughout exactly if no completed call loses an answer of the
      store, or is a poll of a SUBMITTED task answered COMPLETED whose evidence is refused. */
  lemma {:induction false} LiveExact(w: Life, events: seq<Event>)
    requires LifeOk(w) && Mirrors(w.cache, w.log)
    ensures MirrorsThroughout(w, events) <==> NeverSlips(w, events)
    decreases |events|
  {
    hide Safe, Agrees, InStep, Apply, Restored, Taken, Skips, AnswerLost, Burnt;
    if events != [] {
      var w' := After(w, events[0]);
      match events[0]
      case Do(q) =>
        StepExact(w.cache, w.log, q);
        DoOk(w, q);
        if Mirrors(w'.cache, w'.log) { LiveExact(w', events[1..]); }
      case CrashIn(q, n) =>
        CrashOk(w, q, n);
        if |w.log| + n <= |Apply(w.cache, w.log, q).log| {
          RestoredAgrees(Apply(w.cache, w.log, q).log[..|w.log| + n]);
          RestoredInStep(Apply(w.cache, w.log, q).log[..|w.log| + n]);
        }
        LiveExact(w', events[1..]);
    }
  }

  // ---------------------------------------------------------------- calls that fail

  const FINE: Io := Io(true, Accepts, true)

  const STATE := Value("{}", true)

  const SUBMISSION := Response(SUBMITTED, None, None, "run", STATE)

  const SAMPLE: Call := Submits(FINE)

  function Submits(io: Io): Call {
    Dispatch("t", "b", Some("e"), true, FINE, Got(SUBMISSION, true), io)
  }

  const JOURNALLED: seq<Entry> := [Submitting("t", 1, "b", "e"), Observed("t", 1, SUBMISSION)]

  /** A poll answered COMPLETED. */
  function Completes(output: Option<Value>, io: Io): Call {
    Poll("t", Some("e"), true, Some(Got(Response(COMPLETED, output, None, "run", STATE), true)), io)
  }

  /** A poll that finds the task still SUBMITTED, with another opaque state. */
  function Samples(state: Value): Call {
    Poll("t", Some("e"), true, Some(Got(SUBMISSION.(state := state), true)), FINE)
  }

  /** The task has been dispatched, and its last sample came with `state`. */
  predicate Dispatched(w: Life, state: Value) {
    && w.log == JOURNALLED && w.cache.tasks == map["t" := SUBMISSION.(state := state)]
    && w.cache.endpoints == map["t" := "e"] && w.cache.attempts == map["t" := 1]
  }

  lemma FirstLifeOk()
    ensures LifeOk(Life(Blank, [], [])) && Mirrors(Blank, [])
  {
    assert forall t :: AgreesAt(Blank, Replay([]), t);
  }

  const SENT := Sent(Blank, "t", 1, "b", "e")

  const CLAIMED: seq<Entry> := [Submitting("t", 1, "b", "e")]

  lemma FirstSent(io: Io)
    ensures DispatchTask(Blank, [], Submits(io)) == SendTask(SENT, CLAIMED, Submits(io), 1)
    ensures LogOk(CLAIMED) && Agrees(SENT, CLAIMED)
  {
    assert [] + CLAIMED == CLAIMED;
    FirstLifeOk();
    LogTask([], "t");
    hide SendTask, Agrees, InStep, LogOk, Taken;
    SentOk(Blank, [], "t", 1, "b", "e");
    DispatchIs(Blank, [], Submits(io), 1);
  }

  lemma SubmitsTo(io: Io)
    requires io.read && (io.how.Accepts? || io.how.CommitsOnly?)
    ensures var f := Apply(Blank, [], Submits(io));
            f.log == JOURNALLED && f.cache == if io.how.Accepts? then Answered(SENT, "t", SUBMISSION) else SENT
    ensures !Agrees(SENT, JOURNALLED)
  {
    assert JOURNALLED == CLAIMED + [Observed("t", 1, SUBMISSION)] && Recordable(SUBMISSION);
    FirstSent(io);
    SentUncertain();
    hide DispatchTask, Recorded, Replay, Agrees, LogOk, Attempts, Taken, InStep, Sent;
    AnswerOk(SENT, CLAIMED, "t", SUBMISSION, io);
  }

  lemma SentUncertain()
    ensures "t" in SENT.uncertain && "t" in SENT.attempts && SENT.attempts["t"] == 1
  {
  }

  lemma DispatchedTo()
    ensures Dispatched(After(Life(Blank, [], []), Do(SAMPLE)), STATE)
  {
    SubmitsTo(FINE);
    hide Apply, Replay;
  }

  lemma JournalSays()
    ensures "t" in Replay(JOURNALLED) && Replay(JOURNALLED)["t"].response == Some(SUBMISSION)
  {
    var log1 := [Submitting("t", 1, "b", "e")];
    assert log1 == [] + log1 && JOURNALLED == log1 + [Observed("t", 1, SUBMISSION)];
    Snoc([], log1[0]);
    Snoc(log1, Observed("t", 1, SUBMISSION));
  }

  /** Memory says RUNNING and the log, and so every restart, SUBMITTED. */
  ghost predicate Ahead(w: Life) {
    && "t" in w.cache.tasks && w.cache.tasks["t"].status == RUNNING
    && "t" in Replay(w.log) && Replay(w.log)["t"].response.Some? && Replay(w.log)["t"].response.value.status == SUBMITTED
    && !InStep(w.cache, w.log)
  }

  lemma RefusedPoll(w: Life, state: Value, output: Option<Value>, io: Io)
    requires Dispatched(w, state)
    requires !io.read || io.how.Closed? || io.how.Fails? || (output.Some? && !output.value.strict) || !state.strict
    requires io.how.Closed? ==> io.read && (output.Some? ==> output.value.strict) && state.strict
    ensures Ahead(After(w, Do(Completes(output, io)))) && !Apply(w.cache, w.log, Completes(output, io)).returned
  {
    var r := Updated(w.cache.tasks["t"].(status := RUNNING), COMPLETED, output, None);
    JournalSays();
    assert r == Response(COMPLETED, output, None, "run", state);
    assert Recorded(JOURNALLED, "t", r, Some(1), io) == (JOURNALLED, false) by { NotRecorded(r, io); }
    hide Recorded, Replay;
  }

  lemma NotRecorded(r: Response, io: Io)
    requires r.status == COMPLETED && Refused(r, io)
    ensures Recorded(JOURNALLED, "t", r, Some(1), io) == (JOURNALLED, false)
  {
    DispatchedTo();
    FirstLifeOk();
    DoOk(Life(Blank, [], []), SAMPLE);
    JournalSays();
    LogTask(JOURNALLED, "t");
    hide After, Apply, Replay, LogOk, Taken, Attempts, Recorded, Refused;
    assert StateOk(JOURNALLED, "t", Replay(JOURNALLED)["t"]);
    assert Attempts(JOURNALLED, "t") == 1 by { JournalCounts(); }
    RecordedIs(JOURNALLED, "t", r, 1, io);
  }

  lemma JournalCounts()
    ensures Attempts(JOURNALLED, "t") == 1
  {
    var log1 := [Submitting("t", 1, "b", "e")];
    assert log1 == [] + log1 && JOURNALLED == log1 + [Observed("t", 1, SUBMISSION)];
    Snoc([], log1[0]);
    Snoc(log1, Observed("t", 1, SUBMISSION));
  }

  lemma TwoEvents(w: Life, a: Event, b: Event)
    ensures Live(w, [a, b]) == After(After(w, a), b)
  {
    hide After;
    assert [a, b][1..] == [b] && [b][1..] == [];
    assert Live(w, [a, b]) == Live(After(w, a), [b]) == Live(After(After(w, a), b), []);
  }

  /** Dispatch, then a poll answered COMPLETED with an output that is not strict JSON. */
  lemma SkipExample()
    ensures Ahead(Live(Life(Blank, [], []), [Do(SAMPLE), Do(Completes(Some(Value("NaN", false)), FINE))]))
  {
    var w0 := Life(Blank, [], []);
    DispatchedTo();
    TwoEvents(w0, Do(SAMPLE), Do(Completes(Some(Value("NaN", false)), FINE)));
    hide After, Live, Apply, Ahead;
    RefusedPoll(After(w0, Do(SAMPLE)), STATE, Some(Value("NaN", false)), FINE);
  }

  /** Dispatch, then the Stream is closed, then a poll answered COMPLETED with nothing wrong in it. */
  lemma ClosedExample()
    ensures Ahead(Live(Life(Blank, [], []), [Do(SAMPLE), Do(Completes(None, FINE.(how := Closed)))]))
  {
    var w0 := Life(Blank, [], []);
    DispatchedTo();
    TwoEvents(w0, Do(SAMPLE), Do(Completes(None, FINE.(how := Closed))));
    hide After, Live, Apply, Ahead;
    RefusedPoll(After(w0, Do(SAMPLE)), STATE, None, FINE.(how := Closed));
  }

  /** Dispatch, then a poll that brings an opaque state which is not strict JSON, then a poll answered COMPLETED with nothing wrong in it: the
      record carries the state of the earlier sample. */
  lemma StateExample()
    ensures Ahead(Live(Life(Blank, [], []), [Do(SAMPLE), Do(Samples(Value("NaN", false))), Do(Completes(None, FINE))]))
  {
    var w0, bad := Life(Blank, [], []), Value("NaN", false);
    DispatchedTo();
    var w1 := After(w0, Do(SAMPLE));
    assert Dispatched(After(w1, Do(Samples(bad))), bad);
    var events := [Do(SAMPLE), Do(Samples(bad)), Do(Completes(None, FINE))];
    assert events[1..] == [Do(Samples(bad)), Do(Completes(None, FINE))];
    TwoEvents(w1, Do(Samples(bad)), Do(Completes(None, FINE)));
    assert Live(w0, events) == Live(w1, events[1..]);
    hide After, Live, Apply, Ahead;
    RefusedPoll(After(w1, Do(Samples(bad))), bad, None, FINE);
  }

  /** Dispatch, and the answer to the record of the remote's response is lost: memory is uncertain of a task the log has as SUBMITTED. */
  lemma LostExample()
    ensures var w := After(Life(Blank, [], []), Do(Submits(Io(true, CommitsOnly, true))));
            "t" in w.cache.uncertain && w.log == JOURNALLED && !Agrees(w.cache, w.log)
  {
    SubmitsTo(Io(true, CommitsOnly, true));
    SentUncertain();
    hide Apply, Agrees, Replay, Sent;
  }

  // ---------------------------------------------------------------- the adapter

  class Adapter {
    var bindings: map<string, string>
    var attempts: map<string, nat>
    var endpoints: map<string, string>
    var tasks: map<string, Response>
    var uncertain: set<string>
    var abandoned: set<string>
    var log: seq<Entry>
    ghost var submits: seq<(string, nat)>

    ghost function Contents(): Cache
      reads this
    {
      Cache(bindings, attempts, endpoints, tasks, uncertain, abandoned)
    }

    /** A new adapter takes over whatever the log says. */
    constructor (log: seq<Entry>)
      ensures this.log == log && Contents() == Restored(log) && submits == []
    {
      this.log, submits := log, [];
      bindings, attempts, endpoints, tasks, uncertain, abandoned := map[], map[], map[], map[], {}, {};
      new;
      assert Contents() == Blank;
      Restore();
    }

    method Restore()
      requires Contents() == Blank
      modifies this`bindings, this`attempts, this`endpoints, this`tasks, this`uncertain, this`abandoned
      ensures Contents() == Restored(log)
    {
      assert Contents() == Blank;
      hide *;
      var states := Load(log, 256);
      NothingRestored(states);
      var done: set<string>, rest := {}, states.Keys;
      while rest != {}
        invariant done + rest == states.Keys && done !! rest
        invariant Contents() == RestoredFrom(states, done)
        decreases |rest|
      {
        var t :| t in rest;
        AdoptNext(states, done, t);
        AdoptTask(t, states[t]);
        done, rest := done + {t}, rest - {t};
      }
      RestoredMeans(log);
    }

    method AdoptTask(t: string, st: TaskState)
      modifies this`bindings, this`attempts, this`endpoints, this`tasks, this`uncertain, this`abandoned
      ensures Contents() == Adopt(old(Contents()), t, st)
    {
      bindings, attempts, endpoints := bindings[t := st.binding], attempts[t := st.attempt], endpoints[t := st.endpoint];
      if st.abandoned {
        abandoned := abandoned + {t};
      } else if st.response.Some? {
        tasks, uncertain := tasks[t := st.response.value], uncertain - {t};
      } else {
        uncertain := uncertain + {t};
      }
    }

    method Write(e: Entry, how: Storing) returns (o: Outcome)
      modifies this`log
      ensures (log, o) == Append(old(log), e, how)
    {
      if how.Fails? { return Outcome.Raised; }
      if e.Observed? && ((e.response.output.Some? && !e.response.output.value.strict)
                         || (e.response.error.Some? && !e.response.error.value.strict) || !e.response.state.strict) {
        return Outcome.Raised;
      }
      var i := 0;
      while i < |log|
        invariant i <= |log| && forall k :: 0 <= k < i ==> KeyOf(log[k]) != KeyOf(e)
      {
        if KeyOf(log[i]) == KeyOf(e) { return Conflict; }
        i := i + 1;
      }
      if how.Closed? { return Outcome.Raised; }
      log := log + [e];
      return if how.CommitsOnly? then Outcome.Raised else Wrote;
    }

    method RecordObserved(t: string, r: Response, own: Option<nat>, io: Io) returns (ok: bool)
      modifies this`log
      ensures (log, ok) == Recorded(old(log), t, r, own, io)
    {
      hide Append;
      if !io.read { return false; }
      var states := Load(log, 256);
      if t !in states || states[t].abandoned || (own.Some? && own.value != states[t].attempt) { return false; }
      var current := states[t].response;
      if current.Some? {
        var c := current.value;
        if Final(c.status) { return c.status == r.status && c.output == r.output && c.error == r.error; }
        if Rank(r.status) < Rank(c.status) || (r.status == c.status && (r.output != c.output || r.error != c.error)) { return false; }
        if r.status == c.status { return true; }
      }
      var o := Write(Observed(t, states[t].attempt, r), io.how);
      if !o.Conflict? { return o.Wrote?; }
      if !io.again { return false; }
      var again := Load(log, 256);
      return t in again && again[t].response.Some? && again[t].response.value.status == r.status;
    }

    method DoDispatch(q: Call) returns (returned: bool)
      requires q.Dispatch?
      modifies this
      ensures var f := DispatchTask(old(Contents()), old(log), q);
              Contents() == f.cache && log == f.log && submits == old(submits) + f.submits && returned == f.returned
    {
      hide Recorded, Append, Replay, Attempts;
      var t := q.task;
      if t == "" || t in abandoned || t in uncertain { return false; }
      if t in tasks { return t in bindings && bindings[t] == q.binding; }
      if q.endpoint.None? || !q.transport || !q.claim.read { return false; }
      var states := Load(log, 256);
      if t in states {
        AdoptTask(t, states[t]);
        return t !in abandoned && states[t].binding == q.binding && t in tasks;
      }
      var n := CountAttempts(log, t, 256);
      var k := n + 1;
      var o := Write(Submitting(t, k, q.binding, q.endpoint.value), q.claim.how);
      if !o.Wrote? { return false; }
      returned := Send(q, k);
    }

    /** The claim is durable; now the side effect, and whatever evidence it gives. */
    method Send(q: Call, k: nat) returns (returned: bool)
      requires q.Dispatch? && q.endpoint.Some?
      modifies this
      ensures var f := SendTask(Sent(old(Contents()), q.task, k, q.binding, q.endpoint.value), old(log), q, k);
              Contents() == f.cache && log == f.log && submits == old(submits) + f.submits && returned == f.returned
    {
      hide Recorded;
      var t := q.task;
      attempts, endpoints := attempts[t := k], endpoints[t := q.endpoint.value];
      uncertain, bindings := uncertain + {t}, bindings[t := q.binding];
      submits := submits + [(t, k)];
      if !(q.answer.Got? && q.answer.valid) { return false; }
      var recorded := RecordObserved(t, q.answer.response, Some(k), q.io);
      if !recorded { return false; }
      tasks, uncertain := tasks[t := q.answer.response], uncertain - {t};
      return true;
    }

    method DoReconcile(q: Call) returns (returned: bool)
      requires q.Reconcile?
      modifies this
      ensures var f := ReconcileTask(old(Contents()), old(log), q);
              Contents() == f.cache && log == f.log && submits == old(submits) + f.submits && returned == f.returned
    {
      hide Recorded, Append;
      var t := q.task;
      if t !in uncertain || q.endpoint.None? { return false; }
      if t in endpoints && endpoints[t] != "" && endpoints[t] != q.endpoint.value { return false; }
      if !q.lookup || q.answer.Raised? { return false; }
      if q.answer.Unknown? {
        if !q.answer.definitive { return false; }
        var o := Write(NotStarted(t, if t in attempts then attempts[t] else 1), q.io.how);
        if o.Raised? { return false; }
        uncertain, bindings := uncertain - {t}, bindings - {t};
        return true;
      }
      if !q.answer.valid { return false; }
      var recorded := RecordObserved(t, q.answer.response, if t in attempts then Some(attempts[t]) else None, q.io);
      if !recorded { return false; }
      tasks, uncertain := tasks[t := q.answer.response], uncertain - {t};
      return true;
    }

    method DoAbandon(q: Call) returns (returned: bool)
      requires q.Abandon?
      modifies this
      ensures var f := AbandonTask(old(Contents()), old(log), q);
              Contents() == f.cache && log == f.log && submits == old(submits) + f.submits && returned == f.returned
    {
      hide Append;
      var t := q.task;
      if t !in uncertain || IsBlank(q.reason) { return false; }
      var o := Write(Abandoned(t, if t in attempts then attempts[t] else 1), q.io.how);
      if o.Raised? { return false; }
      uncertain, abandoned := uncertain - {t}, abandoned + {t};
      return true;
    }

    method DoUpdate(t: string, status: Status, output: Option<Value>, error: Option<Value>, io: Io) returns (returned: bool)
      modifies this`tasks, this`log
      ensures var f := UpdateStatus(old(Contents()), old(log), t, status, output, error, io);
              Contents() == f.cache && log == f.log && returned == f.returned
    {
      hide Recorded;
      if t !in tasks { return false; }
      var current := tasks[t];
      if Final(current.status) || !AllowedMove(current.status, status) { return false; }
      var updated := Response(status, if output.Some? then output else current.output, if error.Some? then error else current.error,
                              current.run, current.state);
      var recorded := RecordObserved(t, updated, if t in attempts then Some(attempts[t]) else None, io);
      if !recorded { return false; }
      tasks := tasks[t := updated];
      return true;
    }

    method DoPoll(t: string, endpoint: Option<string>, transport: bool, polled: Option<Answer>, io: Io) returns (returned: bool)
      modifies this`tasks, this`log
      ensures var f := PollTask(old(Contents()), old(log), t, endpoint, transport, polled, io);
              Contents() == f.cache && log == f.log && returned == f.returned
    {
      hide UpdateStatus;
      if t !in tasks { return false; }
      var current := tasks[t];
      if !transport || Final(current.status) { return true; }
      if endpoint.None? || (t in endpoints && endpoints[t] != "" && endpoints[t] != endpoint.value) { return false; }
      if polled.None? { return true; }
      if !polled.value.Got? || !polled.value.valid || polled.value.response.run != current.run { return false; }
      var observed := polled.value.response;
      if observed.status == current.status {
        tasks := tasks[t := observed];
        return true;
      }
      if current.status.SUBMITTED? && observed.status.COMPLETED? { tasks := tasks[t := current.(status := RUNNING)]; }
      returned := DoUpdate(t, observed.status, observed.output, observed.error, io);
    }

    method DoCancel(q: Call) returns (returned: bool)
      requires q.Cancel?
      modifies this`tasks, this`log
      ensures var f := CancelTask(old(Contents()), old(log), q);
              Contents() == f.cache && log == f.log && returned == f.returned
    {
      hide PollTask, UpdateStatus;
      returned := DoPoll(q.task, q.endpoint, q.transport, q.polled, q.io);
      if !returned || q.task !in tasks { return false; }
      if Final(tasks[q.task].status) { return true; }
      var current := tasks[q.task];
      if !q.transport || q.endpoint.None? { return false; }
      if q.task in endpoints && endpoints[q.task] != "" && endpoints[q.task] != q.endpoint.value { return false; }
      if !q.answer.Got? || !q.answer.valid || q.answer.response.run != current.run || !q.answer.response.status.CANCELLED? { return false; }
      returned := DoUpdate(q.task, CANCELLED, q.answer.response.output, q.answer.response.error, q.last);
    }
  }

  lemma NothingRestored(states: Tasks)
    ensures RestoredFrom(states, {}) == Blank
  {
  }

  lemma RestoredMeans(log: seq<Entry>)
    ensures Restored(log) == RestoredFrom(Replay(log), Replay(log).Keys)
  {
  }

  lemma BindingsNext(states: Tasks, done: set<string>, t: string)
    requires done <= states.Keys && t in states
    ensures BindingsOf(states, done)[t := states[t].binding] == BindingsOf(states, done + {t})
  {
  }

  lemma AttemptsNext(states: Tasks, done: set<string>, t: string)
    requires done <= states.Keys && t in states
    ensures AttemptsOf(states, done)[t := states[t].attempt] == AttemptsOf(states, done + {t})
  {
  }

  lemma EndpointsNext(states: Tasks, done: set<string>, t: string)
    requires done <= states.Keys && t in states
    ensures EndpointsOf(states, done)[t := states[t].endpoint] == EndpointsOf(states, done + {t})
  {
  }

  lemma AdoptNextMaps(states: Tasks, done: set<string>, t: string)
    requires done <= states.Keys && t in states && t !in done
    ensures var a, b := Adopt(RestoredFrom(states, done), t, states[t]), RestoredFrom(states, done + {t});
            a.bindings == b.bindings && a.attempts == b.attempts && a.endpoints == b.endpoints
  {
    BindingsNext(states, done, t);
    AttemptsNext(states, done, t);
    EndpointsNext(states, done, t);
    hide BindingsOf, AttemptsOf, EndpointsOf;
  }

  lemma AdoptNextTasks(states: Tasks, done: set<string>, t: string)
    requires done <= states.Keys && t in states && t !in done
    ensures Adopt(RestoredFrom(states, done), t, states[t]).tasks == RestoredFrom(states, done + {t}).tasks
  {
  }

  lemma AdoptNextSets(states: Tasks, done: set<string>, t: string)
    requires done <= states.Keys && t in states && t !in done
    ensures var a, b := Adopt(RestoredFrom(states, done), t, states[t]), RestoredFrom(states, done + {t});
            a.uncertain == b.uncertain && a.abandoned == b.abandoned
  {
  }

  lemma AdoptNext(states: Tasks, done: set<string>, t: string)
    requires done <= states.Keys && t in states && t !in done
    ensures Adopt(RestoredFrom(states, done), t, states[t]) == RestoredFrom(states, done + {t})
  {
    AdoptNextMaps(states, done, t);
    AdoptNextTasks(states, done, t);
    AdoptNextSets(states, done, t);
    hide Adopt, RestoredFrom;
  }
}
