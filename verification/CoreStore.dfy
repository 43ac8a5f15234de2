/**
 The Core log: streams, idempotent appends and compare-and-set offsets.

 Every operation is one write transaction. Digests are injective on payloads, so a payload stands for its digest; the client's
 creation time is part of it.
 */
module CoreStore {
  import opened Wrappers

  datatype Request = Request(stream: string, author: string, key: string, payload: string)

  datatype Record = Record(position: nat, author: string, key: string, payload: string)

  /** A metadata value as it arrives: a JSON object, another JSON value, or not JSON at all. */
  datatype Value = Object(text: string) | OtherJson | NotJson

  datatype Stream = Stream(closed: bool, revision: nat, members: seq<string>, title: string, metadata: string)

  datatype Offset = Offset(position: nat, revision: nat)

  /** A mutation names what it changes; a state is closed or open. */
  datatype Mutation = Mutation(state: Option<bool>, members: Option<seq<string>>, title: Option<string>, metadata: Option<Value>)

  datatype Error =
    | UnknownReference | AlreadyExists | CasMismatch | IllegalTransition | StreamClosed | IdempotencyConflict
    | OffsetRegression | OffsetBeyondHead | EmptyMutation | InvalidValue

  datatype State = State(
    peers: set<string>,
    streams: map<string, Stream>,
    records: map<string, seq<Record>>,
    offsets: map<(string, string), Offset>)

  // ---------------------------------------------------------------- transactions

  function Log(s: State, stream: string): seq<Record> {
    if stream in s.records then s.records[stream] else []
  }

  /** The greatest position, or 0. */
  function MaxPosition(rs: seq<Record>): nat {
    if rs == [] then 0
    else
      var m := MaxPosition(rs[..|rs| - 1]);
      if rs[|rs| - 1].position > m then rs[|rs| - 1].position else m
  }

  function FindKey(rs: seq<Record>, author: string, key: string): (r: Option<Record>)
    ensures r.Some? ==> r.value in rs && r.value.author == author && r.value.key == key
    ensures r.None? ==> forall i :: 0 <= i < |rs| ==> !(rs[i].author == author && rs[i].key == key)
  {
    if rs == [] then None
    else if rs[0].author == author && rs[0].key == key then Some(rs[0])
    else
      var r := FindKey(rs[1..], author, key);
      assert rs == [rs[0]] + rs[1..];
      r
  }

  predicate AllKnown(peers: set<string>, ids: seq<string>) {
    forall i :: 0 <= i < |ids| ==> ids[i] in peers
  }

  /** Members are distinct and named. */
  predicate ValidMembers(ids: seq<string>) {
    (forall i :: 0 <= i < |ids| ==> ids[i] != "") && forall i, j :: 0 <= i < j < |ids| ==> ids[i] != ids[j]
  }

  function RegisterPeer(s: State, peer: string): State {
    s.(peers := s.peers + {peer})
  }

  function CreateStream(s: State, stream: string, row: Stream): Result<State, Error> {
    if !ValidMembers(row.members) then Err(InvalidValue)
    else if stream in s.streams then Err(AlreadyExists)
    else if !AllKnown(s.peers, row.members) then Err(UnknownReference)
    else Ok(s.(streams := s.streams[stream := row]))
  }

  function CasStream(s: State, stream: string, expected: nat, m: Mutation): Result<State, Error> {
    if m.state.None? && m.members.None? && m.title.None? && m.metadata.None? then Err(EmptyMutation)
    else if m.metadata == Some(NotJson) then Err(InvalidValue)
    else if stream !in s.streams then Err(UnknownReference)
    else
      var cur := s.streams[stream];
      if cur.revision != expected then Err(CasMismatch)
      else if m.state == Some(false) && cur.closed then Err(IllegalTransition)
      else
        var next := Stream(if m.state.Some? then m.state.value else cur.closed, cur.revision + 1,
                           if m.members.Some? then m.members.value else cur.members,
                           if m.title.Some? then m.title.value else cur.title,
                           if m.metadata.Some? && m.metadata.value.Object? then m.metadata.value.text else cur.metadata);
        if !ValidMembers(next.members) || m.metadata == Some(OtherJson) then Err(InvalidValue)
        else if !AllKnown(s.peers, next.members) then Err(UnknownReference)
        else Ok(s.(streams := s.streams[stream := next]))
  }

  /** The key is looked up before the stream's state: a retry is answered even after closure. */
  function Append(s: State, q: Request): Result<(State, Record), Error> {
    var existing := FindKey(Log(s, q.stream), q.author, q.key);
    if existing.Some? then
      if existing.value.payload != q.payload then Err(IdempotencyConflict) else Ok((s, existing.value))
    else if q.stream !in s.streams || q.author !in s.peers then Err(UnknownReference)
    else if s.streams[q.stream].closed then Err(StreamClosed)
    else
      var r := Record(MaxPosition(Log(s, q.stream)) + 1, q.author, q.key, q.payload);
      Ok((s.(records := s.records[q.stream := Log(s, q.stream) + [r]]), r))
  }

  function OffsetOf(s: State, peer: string, stream: string): Offset {
    if (peer, stream) in s.offsets then s.offsets[(peer, stream)] else Offset(0, 1)
  }

  /** Refuses by the first of the four checks that fails; otherwise moves the Offset and counts one more revision. */
  function AdvanceOffset(s: State, peer: string, stream: string, position: nat, expected: nat): Result<State, Error> {
    if peer !in s.peers || stream !in s.streams then Err(UnknownReference)
    else
      var cur := OffsetOf(s, peer, stream);
      if cur.revision != expected then Err(CasMismatch)
      else if position < cur.position then Err(OffsetRegression)
      else if position > MaxPosition(Log(s, stream)) then Err(OffsetBeyondHead)
      else Ok(s.(offsets := s.offsets[(peer, stream) := Offset(position, cur.revision + 1)]))
  }

  // ---------------------------------------------------------------- runs

  datatype Action =
    | Register(peer: string)
    | Create(stream: string, row: Stream)
    | Cas(stream: string, expected: nat, mutation: Mutation)
    | DoAppend(request: Request)
    | Advance(peer: string, stream: string, position: nat, expected: nat)

  function Commit(s: State, r: Result<State, Error>): State {
    if r.Ok? then r.value else s
  }

  function Next(s: State, a: Action): State {
    match a
    case Register(peer) => RegisterPeer(s, peer)
    case Create(stream, row) => Commit(s, CreateStream(s, stream, row))
    case Cas(stream, expected, m) => Commit(s, CasStream(s, stream, expected, m))
    case DoAppend(q) => (match Append(s, q) case Err(_) => s case Ok(r) => r.0)
    case Advance(peer, stream, position, expected) => Commit(s, AdvanceOffset(s, peer, stream, position, expected))
  }

  function Run(s: State, acts: seq<Action>): State
    decreases |acts|
  {
    if acts == [] then s else Run(Next(s, acts[0]), acts[1..])
  }

  function Empty(): State {
    State({}, map[], map[], map[])
  }

  // ---------------------------------------------------------------- the invariant

  predicate Dense(rs: seq<Record>) {
    forall i :: 0 <= i < |rs| ==> rs[i].position == i + 1
  }

  predicate OnePerKey(rs: seq<Record>) {
    forall i, j :: 0 <= i < j < |rs| ==> !(rs[i].author == rs[j].author && rs[i].key == rs[j].key)
  }

  /** Positions are exactly 1..head in append order, an idempotency key is used once, an Offset never passes the head. */
  ghost predicate StoreOk(s: State) {
    && (forall n :: n in s.records ==> n in s.streams && Dense(s.records[n]) && OnePerKey(s.records[n]))
    && (forall k :: k in s.offsets ==> s.offsets[k].position <= |Log(s, k.1)| && s.offsets[k].revision >= 1)
  }

  lemma {:induction false} HeadIs(rs: seq<Record>)
    requires Dense(rs)
    ensures MaxPosition(rs) == |rs|
    decreases |rs|
  {
    if rs != [] { HeadIs(rs[..|rs| - 1]); }
  }

  lemma AppendOk(s: State, q: Request)
    requires StoreOk(s) && Append(s, q).Ok?
    ensures StoreOk(Append(s, q).value.0)
  {
    var rs := Log(s, q.stream);
    HeadIs(rs);
    hide MaxPosition;
    var (s', r) := Append(s, q).value;
    if s' != s {
      var rs' := rs + [r];
      forall i, j | 0 <= i < j < |rs'| ensures !(rs'[i].author == rs'[j].author && rs'[i].key == rs'[j].key) {}
      forall k | k in s'.offsets ensures s'.offsets[k].position <= |Log(s', k.1)| {
        assert |Log(s, k.1)| <= |Log(s', k.1)|;
      }
    }
  }

  lemma NextOk(s: State, a: Action)
    requires StoreOk(s)
    ensures StoreOk(Next(s, a))
  {
    match a
    case Register(peer) =>
    case Create(stream, row) => SameLogs(s, Next(s, a));
    case Cas(stream, expected, m) => SameLogs(s, Next(s, a));
    case DoAppend(q) => if Append(s, q).Ok? { AppendOk(s, q); }
    case Advance(peer, stream, position, expected) => HeadIs(Log(s, stream)); hide MaxPosition;
  }

  lemma SameLogs(s: State, s': State)
    requires StoreOk(s) && s'.records == s.records && s'.offsets == s.offsets && s.streams.Keys <= s'.streams.Keys
    ensures StoreOk(s')
  {
    forall n | n in s'.records ensures n in s'.streams {
      assert n in s.streams.Keys;
    }
    assert forall n :: Log(s', n) == Log(s, n);
  }

  // ---------------------------------------------------------------- what a run keeps

  /** Logs are append-only, a closed stream stays closed and as it was, Offsets only move forward. */
  ghost predicate Continues(s: State, s': State) {
    && (forall n :: Log(s, n) <= Log(s', n))
    && (forall n :: n in s.streams && s.streams[n].closed ==> n in s'.streams && s'.streams[n].closed && Log(s', n) == Log(s, n))
    && (forall p, n :: OffsetOf(s, p, n).position <= OffsetOf(s', p, n).position)
  }

  lemma ContinuesTrans(a: State, b: State, c: State)
    requires Continues(a, b) && Continues(b, c)
    ensures Continues(a, c)
  {
    forall n ensures Log(a, n) <= Log(c, n) {
      assert Log(a, n) <= Log(b, n) && Log(b, n) <= Log(c, n);
    }
    forall p, n ensures OffsetOf(a, p, n).position <= OffsetOf(c, p, n).position {
      assert OffsetOf(a, p, n).position <= OffsetOf(b, p, n).position;
    }
  }

  lemma NextContinues(s: State, a: Action)
    ensures Continues(s, Next(s, a))
  {
    hide MaxPosition, FindKey, AllKnown;
  }

  /** The log invariant holds along every run; nothing is taken back; CLOSED is final and accepts no new Record. */
  lemma {:induction false} RunContinues(s: State, acts: seq<Action>)
    requires StoreOk(s)
    ensures StoreOk(Run(s, acts)) && Continues(s, Run(s, acts))
    decreases |acts|
  {
    hide Continues, Next, StoreOk;
    if acts == [] {
      SelfContinues(s);
    } else {
      NextOk(s, acts[0]);
      NextContinues(s, acts[0]);
      RunContinues(Next(s, acts[0]), acts[1..]);
      ContinuesTrans(s, Next(s, acts[0]), Run(s, acts));
    }
  }

  lemma SelfContinues(s: State)
    ensures Continues(s, s)
  {
  }

  lemma EmptyOk()
    ensures StoreOk(Empty())
  {
  }

  /** A retried append returns the original Record and changes nothing, even after later appends or closure. */
  lemma RetriedAppend(s: State, q: Request, acts: seq<Action>)
    requires StoreOk(s) && Append(s, q).Ok?
    ensures var s' := Run(Append(s, q).value.0, acts);
            Append(s', q) == Ok((s', Append(s, q).value.1))
  {
    var (s1, r) := Append(s, q).value;
    AppendOk(s, q);
    RunContinues(s1, acts);
    var s' := Run(s1, acts);
    var rs, rs' := Log(s1, q.stream), Log(s', q.stream);
    assert r in rs by { if s1 != s { assert rs[|rs| - 1] == r; } }
    hide MaxPosition, Run;
    var i :| 0 <= i < |rs| && rs[i] == r;
    assert rs <= rs' && rs'[i] == r;
    var f := FindKey(rs', q.author, q.key);
    assert f.Some?;
    var j :| 0 <= j < |rs'| && rs'[j] == f.value;
    assert i == j by { SameKey(s', q.stream, i, j); }
  }

  lemma SameKey(s: State, n: string, i: nat, j: nat)
    requires StoreOk(s) && i < |Log(s, n)| && j < |Log(s, n)|
    requires Log(s, n)[i].author == Log(s, n)[j].author && Log(s, n)[i].key == Log(s, n)[j].key
    ensures i == j
  {
  }

  /** How many offset writes of the scope a run accepts. */
  function AcceptedWrites(s: State, acts: seq<Action>, peer: string, stream: string): nat
    decreases |acts|
  {
    if acts == [] then 0
    else
      (if acts[0].Advance? && acts[0].peer == peer && acts[0].stream == stream
          && AdvanceOffset(s, peer, stream, acts[0].position, acts[0].expected).Ok? then 1 else 0)
      + AcceptedWrites(Next(s, acts[0]), acts[1..], peer, stream)
  }

  /** The revision counts the accepted writes, from 1. */
  lemma {:induction false} RevisionCounts(s: State, acts: seq<Action>, peer: string, stream: string)
    ensures OffsetOf(Run(s, acts), peer, stream).revision == OffsetOf(s, peer, stream).revision + AcceptedWrites(s, acts, peer, stream)
    decreases |acts|
  {
    if acts != [] {
      RevisionStep(s, acts[0], peer, stream);
      hide Next, AdvanceOffset;
      RevisionCounts(Next(s, acts[0]), acts[1..], peer, stream);
    }
  }

  lemma RevisionStep(s: State, a: Action, peer: string, stream: string)
    ensures OffsetOf(Next(s, a), peer, stream).revision == OffsetOf(s, peer, stream).revision
            + if a.Advance? && a.peer == peer && a.stream == stream && AdvanceOffset(s, peer, stream, a.position, a.expected).Ok? then 1 else 0
  {
    hide MaxPosition, FindKey, AllKnown;
  }

  /** From nothing: positions are exactly 1..head, one Record per key, Offsets at most the head with revision 1 + accepted writes. */
  lemma CoreLog(acts: seq<Action>, peer: string, stream: string)
    ensures var s := Run(Empty(), acts);
            && Dense(Log(s, stream)) && OnePerKey(Log(s, stream)) && MaxPosition(Log(s, stream)) == |Log(s, stream)|
            && OffsetOf(s, peer, stream).position <= |Log(s, stream)|
            && OffsetOf(s, peer, stream).revision == 1 + AcceptedWrites(Empty(), acts, peer, stream)
  {
    EmptyOk();
    RunContinues(Empty(), acts);
    RevisionCounts(Empty(), acts, peer, stream);
    var s := Run(Empty(), acts);
    hide Run, AcceptedWrites;
    HeadIs(Log(s, stream));
  }

  // ---------------------------------------------------------------- the store

  class Store {
    var peers: set<string>
    var streams: map<string, Stream>
    var records: map<string, seq<Record>>
    var offsets: map<(string, string), Offset>

    ghost function Contents(): State
      reads this
    {
      State(peers, streams, records, offsets)
    }

    constructor ()
      ensures Contents() == Empty()
    {
      peers, streams, records, offsets := {}, map[], map[], map[];
    }

    method RequirePeers(ids: seq<string>) returns (known: bool)
      ensures known == AllKnown(peers, ids)
    {
      var i := 0;
      while i < |ids|
        invariant i <= |ids| && forall k :: 0 <= k < i ==> ids[k] in peers
      {
        if ids[i] !in peers { return false; }
        i := i + 1;
      }
      return true;
    }

    method Lookup(stream: string, author: string, key: string) returns (found: Option<Record>, head: nat)
      ensures found == FindKey(Log(Contents(), stream), author, key) && head == MaxPosition(Log(Contents(), stream))
    {
      var rs := if stream in records then records[stream] else [];
      found, head := None, 0;
      var i := 0;
      while i < |rs|
        invariant i <= |rs| && head == MaxPosition(rs[..i])
        invariant found.None? ==> FindKey(rs, author, key) == FindKey(rs[i..], author, key)
        invariant found.Some? ==> found == FindKey(rs, author, key)
      {
        assert rs[i..][1..] == rs[i + 1..] && rs[..i + 1][..i] == rs[..i];
        if found.None? && rs[i].author == author && rs[i].key == key { found := Some(rs[i]); }
        if rs[i].position > head { head := rs[i].position; }
        i := i + 1;
      }
      assert rs[..i] == rs;
    }

    method AppendRecord(q: Request) returns (r: Result<Record, Error>)
      modifies this`records
      ensures match Append(old(Contents()), q)
              case Err(e) => r == Err(e) && Contents() == old(Contents())
              case Ok(v) => r == Ok(v.1) && Contents() == v.0
    {
      var existing, head := Lookup(q.stream, q.author, q.key);
      if existing.Some? {
        if existing.value.payload != q.payload { return Err(IdempotencyConflict); }
        return Ok(existing.value);
      }
      if q.stream !in streams || q.author !in peers { return Err(UnknownReference); }
      if streams[q.stream].closed { return Err(StreamClosed); }
      var rec := Record(head + 1, q.author, q.key, q.payload);
      records := records[q.stream := (if q.stream in records then records[q.stream] else []) + [rec]];
      return Ok(rec);
    }

    method AdvanceOffsetCas(peer: string, stream: string, position: nat, expected: nat) returns (r: Result<Offset, Error>)
      modifies this`offsets
      ensures match AdvanceOffset(old(Contents()), peer, stream, position, expected)
              case Err(e) => r == Err(e) && Contents() == old(Contents())
              case Ok(s) => r == Ok(Offset(position, expected + 1)) && Contents() == s
    {
      if peer !in peers || stream !in streams { return Err(UnknownReference); }
      var row := if (peer, stream) in offsets then offsets[(peer, stream)] else Offset(0, 1);
      if row.revision != expected { return Err(CasMismatch); }
      if position < row.position { return Err(OffsetRegression); }
      var _, head := Lookup(stream, "", "");
      if position > head { return Err(OffsetBeyondHead); }
      offsets := offsets[(peer, stream) := Offset(position, row.revision + 1)];
      return Ok(Offset(position, row.revision + 1));
    }

    /** Accepts exactly the lists of distinct, non-empty ids. */
    method CheckMembers(ids: seq<string>) returns (valid: bool)
      ensures valid <==> ValidMembers(ids)
    {
      var seen: set<string> := {};
      var i := 0;
      while i < |ids|
        invariant i <= |ids| && ValidMembers(ids[..i]) && seen == set k | 0 <= k < i :: ids[k]
      {
        if ids[i] == "" || ids[i] in seen { return false; }
        seen := seen + {ids[i]};
        i := i + 1;
      }
      assert ids[..i] == ids;
      return true;
    }

    method MutateStream(stream: string, expected: nat, m: Mutation) returns (r: Result<Stream, Error>)
      modifies this`streams
      ensures match CasStream(old(Contents()), stream, expected, m)
              case Err(e) => r == Err(e) && Contents() == old(Contents())
              case Ok(s) => Contents() == s && stream in s.streams && r == Ok(s.streams[stream])
    {
      if m.state.None? && m.members.None? && m.title.None? && m.metadata.None? { return Err(EmptyMutation); }
      if m.metadata == Some(NotJson) { return Err(InvalidValue); }
      if stream !in streams { return Err(UnknownReference); }
      var cur := streams[stream];
      if cur.revision != expected { return Err(CasMismatch); }
      var next := cur.(revision := cur.revision + 1);
      if m.state.Some? {
        if cur.closed && !m.state.value { return Err(IllegalTransition); }
        next := next.(closed := m.state.value);
      }
      if m.members.Some? { next := next.(members := m.members.value); }
      if m.title.Some? { next := next.(title := m.title.value); }
      var valid := CheckMembers(next.members);
      if !valid || m.metadata == Some(OtherJson) { return Err(InvalidValue); }
      if m.metadata.Some? { next := next.(metadata := m.metadata.value.text); }
      var known := RequirePeers(next.members);
      if !known { return Err(UnknownReference); }
      streams := streams[stream := next];
      return Ok(next);
    }

    /** The Records after a position, oldest first, at most `limit` of them. */
    method ReadRecords(stream: string, after: nat, limit: nat) returns (page: seq<Record>)
      requires limit > 0 && StoreOk(Contents())
      ensures var rs := Log(Contents(), stream);
              page == if after >= |rs| then [] else if after + limit < |rs| then rs[after..after + limit] else rs[after..]
    {
      var rs := if stream in records then records[stream] else [];
      page := [];
      var i := 0;
      while i < |rs| && |page| < limit
        invariant i <= |rs| && Dense(rs) && |page| <= limit
        invariant page == if i <= after then [] else rs[after..i]
      {
        if rs[i].position > after { page := page + [rs[i]]; }
        i := i + 1;
      }
    }
  }
}
