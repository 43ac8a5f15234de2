/**
 Fenced single-owner delivery claims: the lease kernel every Bridge write goes through.

 The claim table is one row per (stream, peer) scope. Every operation is one serialized write
 transaction, so the model is a state with one function per transaction; `ClaimStore` is the
 imperative form, proved against those functions. The clock never goes back, and a workspace
 generation assigned by a replacement or a restore has never been in use before.
 */
module Claims {
  import opened Wrappers

  datatype Scope = Scope(stream: string, peer: string)

  datatype Token = Token(workspace: string, generation: nat, owner: string, scope: Scope)

  datatype Row = Row(owner: string, generation: nat, expires: real, lease: real, workspace: string)

  datatype Error = UnknownReference | ClaimHeld | Stale | Finalized | ScopeMismatch

  /** `used` records every workspace generation that was ever current. */
  datatype State = State(
    claims: map<Scope, Row>,
    finalizations: map<(Scope, nat), string>,
    peers: set<string>,
    streams: set<string>,
    now: real,
    workspace: string,
    used: set<string>)

  // ---------------------------------------------------------------- one row

  /** The row after an acquire; only one that takes the claim over, or takes it up after its end, moves the generation. */
  function AcquireRow(row: Option<Row>, owner: string, lease: real, now: real, workspace: string): Result<Row, Error> {
    if row.None? then
      Ok(Row(owner, 1, now + lease, lease, workspace))
    else
      var r := row.value;
      var live := r.workspace == workspace && now < r.expires;
      if live && r.owner != owner then
        Err(ClaimHeld)
      else
        Ok(Row(owner, if live then r.generation else r.generation + 1, now + lease, lease, workspace))
  }

  /** The row is the one the token was minted for, whether or not the lease has run out. */
  predicate Matches(row: Option<Row>, workspace: string, generation: nat, owner: string) {
    row.Some? && row.value.workspace == workspace && row.value.owner == owner && row.value.generation == generation
  }

  /** The fence check: same lineage, same owner and generation, lease not run out. */
  predicate PassesRow(row: Option<Row>, token: Token, now: real, workspace: string) {
    && token.workspace == workspace
    && Matches(row, token.workspace, token.generation, token.owner)
    && now < row.value.expires
  }

  // ---------------------------------------------------------------- transactions on the table

  function RowOf(s: State, scope: Scope): Option<Row> {
    if scope in s.claims then Some(s.claims[scope]) else None
  }

  predicate Passes(s: State, token: Token) {
    PassesRow(RowOf(s, token.scope), token, s.now, s.workspace)
  }

  /** `workspace` is read before the transaction begins, so it may already be out of date. */
  function Acquire(s: State, scope: Scope, owner: string, lease: real, workspace: string): Result<(State, Token), Error> {
    if scope.peer !in s.peers || scope.stream !in s.streams then Err(UnknownReference)
    else
      match AcquireRow(RowOf(s, scope), owner, lease, s.now, workspace)
      case Err(e) => Err(e)
      case Ok(row) =>
        Ok((s.(claims := s.claims[scope := row]), Token(workspace, row.generation, owner, scope)))
  }

  function SetExpiry(s: State, scope: Scope, expires: real): State
    requires scope in s.claims
  {
    s.(claims := s.claims[scope := s.claims[scope].(expires := expires)])
  }

  function Heartbeat(s: State, token: Token): Result<State, Error> {
    if Passes(s, token) then Ok(SetExpiry(s, token.scope, s.now + s.claims[token.scope].lease)) else Err(Stale)
  }

  function Release(s: State, token: Token): Result<State, Error> {
    if Passes(s, token) then Ok(SetExpiry(s, token.scope, s.now)) else Err(Stale)
  }

  /** The fence check and the insert share one transaction; a generation is finalized at most once. */
  function FinalizeTerminal(s: State, token: Token, result: string): Result<State, Error> {
    if !Passes(s, token) then Err(Stale)
    else if (token.scope, token.generation) in s.finalizations then Err(Finalized)
    else Ok(s.(finalizations := s.finalizations[(token.scope, token.generation) := result]))
  }

  /** The check a Core write runs first: the write must target the claim's own scope. */
  function Guard(s: State, token: Token, target: Scope): Result<(), Error> {
    if target != token.scope then Err(ScopeMismatch)
    else if Passes(s, token) then Ok(()) else Err(Stale)
  }

  // ---------------------------------------------------------------- runs

  datatype Action =
    | DoAcquire(scope: Scope, owner: string, lease: real, workspace: string)
    | DoHeartbeat(token: Token)
    | DoRelease(token: Token)
    | DoFinalize(token: Token, result: string)
    | Tick(elapsed: real)
    | ReplaceWorkspace(unseen: string)
    | Restore(unseen: string, snapshot: map<Scope, Row>, finals: map<(Scope, nat), string>)

  function Commit(s: State, r: Result<State, Error>): State {
    if r.Ok? then r.value else s
  }

  /** One committed step; a raised error leaves the state alone. A restore brings back tables written under earlier
      lineages and assigns a generation never used before. */
  function Next(s: State, a: Action): State {
    match a
    case DoAcquire(scope, owner, lease, workspace) =>
      if workspace !in s.used then s
      else (match Acquire(s, scope, owner, lease, workspace) case Err(_) => s case Ok(r) => r.0)
    case DoHeartbeat(token) => Commit(s, Heartbeat(s, token))
    case DoRelease(token) => Commit(s, Release(s, token))
    case DoFinalize(token, result) => Commit(s, FinalizeTerminal(s, token, result))
    case Tick(elapsed) => if elapsed < 0.0 then s else s.(now := s.now + elapsed)
    case ReplaceWorkspace(unseen) =>
      if unseen in s.used then s else s.(workspace := unseen, used := s.used + {unseen})
    case Restore(unseen, snapshot, finals) =>
      if unseen in s.used || !(forall k | k in snapshot :: snapshot[k].workspace in s.used) then s
      else s.(claims := snapshot, finalizations := finals, workspace := unseen, used := s.used + {unseen})
  }

  function Run(s: State, acts: seq<Action>): State
    decreases |acts|
  {
    if acts == [] then s else Run(Next(s, acts[0]), acts[1..])
  }

  ghost predicate NoRestore(acts: seq<Action>) {
    forall i :: 0 <= i < |acts| ==> !acts[i].Restore?
  }

  predicate WellFormed(s: State) {
    s.workspace in s.used && forall k :: k in s.claims ==> s.claims[k].workspace in s.used
  }

  /** One row follows another of the same scope: the generation never goes down, and one generation has one owner. */
  predicate RowFollows(r: Row, r': Row) {
    r.generation <= r'.generation
    && (r.generation == r'.generation ==> r.owner == r'.owner && r.workspace == r'.workspace)
  }

  /** Claim generations never go down, each generation keeps one owner, and a finalization once recorded never changes. */
  lemma {:induction false} RowsFollow(s: State, acts: seq<Action>, scope: Scope)
    requires NoRestore(acts) && scope in s.claims
    ensures var s' := Run(s, acts); scope in s'.claims && RowFollows(s.claims[scope], s'.claims[scope])
    ensures forall k :: k in s.finalizations ==> k in Run(s, acts).finalizations && Run(s, acts).finalizations[k] == s.finalizations[k]
    decreases |acts|
  {
    if acts != [] {
      assert !acts[0].Restore?;
      RowsFollow(Next(s, acts[0]), acts[1..], scope);
    }
  }

  lemma {:induction false} RunWellFormed(s: State, acts: seq<Action>)
    requires WellFormed(s)
    ensures WellFormed(Run(s, acts)) && s.used <= Run(s, acts).used && s.now <= Run(s, acts).now
    decreases |acts|
  {
    if acts != [] {
      RunWellFormed(Next(s, acts[0]), acts[1..]);
    }
  }

  /** A token that can never pass again: its lineage is over, its generation is behind, or it is the row's generation
      under another identity or with the lease run out. */
  predicate Dead(s: State, t: Token) {
    && t.workspace in s.used
    && (t.workspace == s.workspace ==>
          && t.scope in s.claims
          && t.generation <= s.claims[t.scope].generation
          && (Matches(Some(s.claims[t.scope]), t.workspace, t.generation, t.owner) ==> s.now >= s.claims[t.scope].expires))
  }

  lemma DeadStays(s: State, a: Action, t: Token)
    requires WellFormed(s) && Dead(s, t)
    ensures Dead(Next(s, a), t)
  {
    match a
    case DoAcquire(scope, owner, lease, workspace) =>
    case DoHeartbeat(token) =>
    case DoRelease(token) =>
    case DoFinalize(token, result) =>
    case Tick(elapsed) =>
    case ReplaceWorkspace(unseen) =>
    case Restore(unseen, snapshot, finals) =>
  }

  lemma {:induction false} DeadForever(s: State, acts: seq<Action>, t: Token)
    requires WellFormed(s) && Dead(s, t)
    ensures Dead(Run(s, acts), t)
    decreases |acts|
  {
    if acts != [] {
      DeadStays(s, acts[0], t);
      RunWellFormed(s, acts[..1]);
      assert Run(s, acts[..1]) == Next(s, acts[0]) by { assert acts[..1][1..] == []; }
      DeadForever(Next(s, acts[0]), acts[1..], t);
    }
  }

  /** A token acquired at `s` that stops passing (expired, released, superseded, or fenced by a new lineage) never passes
      again, over every later run, restores included. */
  lemma StaleForever(s: State, before: seq<Action>, after: seq<Action>, scope: Scope, owner: string, lease: real, workspace: string)
    requires WellFormed(s) && workspace in s.used
    requires Acquire(s, scope, owner, lease, workspace).Ok?
    requires !Passes(Run(Acquire(s, scope, owner, lease, workspace).value.0, before), Acquire(s, scope, owner, lease, workspace).value.1)
    ensures !Passes(Run(Run(Acquire(s, scope, owner, lease, workspace).value.0, before), after),
                    Acquire(s, scope, owner, lease, workspace).value.1)
  {
    var (s1, t) := Acquire(s, scope, owner, lease, workspace).value;
    IssuedStays(s1, before, t);
    RunWellFormed(s1, before);
    DeadForever(Run(s1, before), after, t);
  }

  /** What is known of a token from the moment it is minted on. */
  predicate Issued(s: State, t: Token) {
    && t.workspace in s.used
    && (t.workspace == s.workspace ==> t.scope in s.claims && t.generation <= s.claims[t.scope].generation)
  }

  lemma {:induction false} IssuedStays(s: State, acts: seq<Action>, t: Token)
    requires WellFormed(s) && Issued(s, t)
    ensures Issued(Run(s, acts), t)
    decreases |acts|
  {
    if acts != [] {
      var s1 := Next(s, acts[0]);
      RunWellFormed(s, acts[..1]);
      assert Run(s, acts[..1]) == s1 by { assert acts[..1][1..] == []; }
      IssuedStays(s1, acts[1..], t);
    }
  }

  /** Fenced writes happen in nondecreasing generation order: along a run a token that passes later, in the same scope and
      lineage, has no smaller generation, and the same generation means the very same token. In one state (`acts == []`)
      at most one token passes. */
  lemma FencedOrder(s: State, acts: seq<Action>, t1: Token, t2: Token)
    requires WellFormed(s)
    requires Passes(s, t1) && Passes(Run(s, acts), t2)
    requires t1.scope == t2.scope && t1.workspace == t2.workspace
    ensures t1.generation <= t2.generation
    ensures t1.generation == t2.generation ==> t1 == t2
  {
    LineageFollows(s, acts, t1.scope);
  }

  /** Guarded Core writes of one scope come in claim order: a token authorizes only writes to its own scope, and along a run
      one that authorizes a later write there has no smaller generation, the same one only if it is the same token. */
  lemma GuardedOrder(s: State, acts: seq<Action>, t1: Token, t2: Token, target: Scope)
    requires WellFormed(s)
    requires Guard(s, t1, target).Ok? && Guard(Run(s, acts), t2, target).Ok?
    requires t1.workspace == t2.workspace
    ensures t1.scope == t2.scope == target
    ensures t1.generation <= t2.generation
    ensures t1.generation == t2.generation ==> t1 == t2
  {
    FencedOrder(s, acts, t1, t2);
  }

  lemma {:induction false} LineageFollows(s: State, acts: seq<Action>, scope: Scope)
    requires WellFormed(s) && scope in s.claims
    requires s.workspace == Run(s, acts).workspace
    ensures scope in Run(s, acts).claims && RowFollows(s.claims[scope], Run(s, acts).claims[scope])
    decreases |acts|
  {
    if acts != [] {
      var s1 := Next(s, acts[0]);
      RunWellFormed(s, acts[..1]);
      assert Run(s, acts[..1]) == s1 by { assert acts[..1][1..] == []; }
      LineageMoves(s, acts[0], acts[1..]);
      LineageFollows(s1, acts[1..], scope);
    }
  }

  /** A lineage left behind never comes back, so a run that ends in the lineage it started in had no replacement. */
  lemma LineageMoves(s: State, a: Action, rest: seq<Action>)
    requires WellFormed(s)
    requires Run(Next(s, a), rest).workspace == s.workspace
    ensures Next(s, a).workspace == s.workspace
    ensures Next(s, a).claims.Keys >= s.claims.Keys
    ensures forall k :: k in s.claims ==> RowFollows(s.claims[k], Next(s, a).claims[k])
  {
    var s1 := Next(s, a);
    assert WellFormed(s1);
    if s1.workspace != s.workspace {
      LineageLeft(s1, rest, s.workspace);
      assert false;
    }
  }

  lemma {:induction false} LineageLeft(s: State, acts: seq<Action>, former: string)
    requires WellFormed(s) && former in s.used && s.workspace != former
    ensures Run(s, acts).workspace != former
    decreases |acts|
  {
    if acts != [] {
      assert WellFormed(Next(s, acts[0]));
      LineageLeft(Next(s, acts[0]), acts[1..], former);
    }
  }

  // ---------------------------------------------------------------- the store

  class ClaimStore {
    var claims: map<Scope, Row>
    var finalizations: map<(Scope, nat), string>
    const peers: set<string>
    const streams: set<string>
    var now: real
    var workspace: string
    ghost var used: set<string>

    ghost function Contents(): State
      reads this
    {
      State(claims, finalizations, peers, streams, now, workspace, used)
    }

    constructor (peers: set<string>, streams: set<string>, now: real, workspace: string)
      ensures Contents() == State(map[], map[], peers, streams, now, workspace, {workspace})
    {
      this.claims, this.finalizations := map[], map[];
      this.peers, this.streams := peers, streams;
      this.now, this.workspace, this.used := now, workspace, {workspace};
    }

    /** The fence check, clause by clause. */
    method Check(token: Token) returns (ok: bool)
      ensures ok == Passes(Contents(), token)
    {
      if token.scope !in claims { return false; }
      var row := claims[token.scope];
      if token.workspace != workspace || row.workspace != token.workspace { return false; }
      if row.owner != token.owner || row.generation != token.generation { return false; }
      return now < row.expires;
    }

    method AcquireClaim(scope: Scope, owner: string, lease: real, read: string) returns (r: Result<Token, Error>)
      modifies this`claims
      ensures match Acquire(old(Contents()), scope, owner, lease, read)
              case Err(e) => r == Err(e) && Contents() == old(Contents())
              case Ok(v) => r == Ok(v.1) && Contents() == v.0
    {
      if scope.peer !in peers || scope.stream !in streams { return Err(UnknownReference); }
      var generation := 1;
      if scope in claims {
        var row := claims[scope];
        var live := row.workspace == read && now < row.expires;
        if live && row.owner != owner { return Err(ClaimHeld); }
        generation := if live then row.generation else row.generation + 1;
      }
      claims := claims[scope := Row(owner, generation, now + lease, lease, read)];
      return Ok(Token(read, generation, owner, scope));
    }

    method HeartbeatClaim(token: Token) returns (r: Result<Token, Error>)
      modifies this`claims
      ensures match Heartbeat(old(Contents()), token)
              case Err(e) => r == Err(e) && Contents() == old(Contents())
              case Ok(s) => r == Ok(token) && Contents() == s
    {
      var ok := Check(token);
      if !ok { return Err(Stale); }
      var row := claims[token.scope];
      claims := claims[token.scope := row.(expires := now + row.lease)];
      return Ok(token);
    }

    method ReleaseClaim(token: Token) returns (r: Result<(), Error>)
      modifies this`claims
      ensures match Release(old(Contents()), token)
              case Err(e) => r == Err(e) && Contents() == old(Contents())
              case Ok(s) => r == Ok(()) && Contents() == s
    {
      var ok := Check(token);
      if !ok { return Err(Stale); }
      claims := claims[token.scope := claims[token.scope].(expires := now)];
      return Ok(());
    }

    method FinalizeClaim(token: Token, result: string) returns (r: Result<(), Error>)
      modifies this`finalizations
      ensures match FinalizeTerminal(old(Contents()), token, result)
              case Err(e) => r == Err(e) && Contents() == old(Contents())
              case Ok(s) => r == Ok(()) && Contents() == s
    {
      var ok := Check(token);
      if !ok { return Err(Stale); }
      if (token.scope, token.generation) in finalizations { return Err(Finalized); }
      finalizations := finalizations[(token.scope, token.generation) := result];
      return Ok(());
    }
  }
}
