/**
 The Bridge's log and Offset writes are Core store transactions.

 A Core store represents a Bridge scope when its Stream holds the scope's Records under some injective encoding of keys and contents,
 and its Offset row is the scope's.
 */
module BridgeCore {
  import opened Wrappers
  import BridgeLedger
  import BridgeInvariant
  import CoreStore

  datatype Content = Content(kind: BridgeLedger.Kind, targets: set<string>, body: BridgeLedger.Body)

  /** How keys and contents are written down: idempotency keys, and payload digests of canonical JSON. */
  datatype Encoding = Encoding(key: BridgeLedger.Key -> string, payload: Content -> string)

  ghost predicate Injective(e: Encoding) {
    && (forall a, b :: e.key(a) == e.key(b) ==> a == b)
    && (forall a, b :: e.payload(a) == e.payload(b) ==> a == b)
  }

  function Encoded(r: BridgeLedger.Rec, i: nat, e: Encoding): CoreStore.Record {
    CoreStore.Record(i + 1, r.author, e.key(r.key), e.payload(Content(r.kind, r.targets, r.body)))
  }

  ghost predicate Represents(s: CoreStore.State, stream: string, db: BridgeLedger.Ledger, e: Encoding) {
    && db.peer in s.peers && stream in s.streams && s.streams[stream].closed == db.closed
    && |CoreStore.Log(s, stream)| == |db.log|
    && (forall i :: 0 <= i < |db.log| ==> CoreStore.Log(s, stream)[i] == Encoded(db.log[i], i, e))
    && CoreStore.OffsetOf(s, db.peer, stream) == CoreStore.Offset(db.offset, db.revision)
  }

  /** The request a client makes of the Core store to append `r`. */
  function RequestOf(r: BridgeLedger.Rec, stream: string, e: Encoding): CoreStore.Request {
    CoreStore.Request(stream, r.author, e.key(r.key), e.payload(Content(r.kind, r.targets, r.body)))
  }

  /** The request `_materialize` makes of the Core store. */
  function ResponseRequest(peer: string, did: nat, p: BridgeLedger.Payload, stream: string, e: Encoding): CoreStore.Request {
    RequestOf(BridgeLedger.ResponseRec(peer, did, p, [], 0), stream, e)
  }

  /** Both sides find the same Record of an author under a key, or neither does. */
  lemma SameLookup(s: CoreStore.State, stream: string, db: BridgeLedger.Ledger, author: string, key: BridgeLedger.Key, e: Encoding)
    requires Represents(s, stream, db, e) && Injective(e) && CoreStore.StoreOk(s)
    ensures var k := BridgeLedger.FindKey(db.log, author, key);
            var f := CoreStore.FindKey(CoreStore.Log(s, stream), author, e.key(key));
            k <= |db.log| && if k > 0 then f == Some(Encoded(db.log[k - 1], k - 1, e)) else f == None
  {
    hide BridgeLedger.FindKey, CoreStore.FindKey, CoreStore.StoreOk, CoreStore.Log;
    var rs := CoreStore.Log(s, stream);
    var k := BridgeLedger.FindKey(db.log, author, key);
    var f := CoreStore.FindKey(rs, author, e.key(key));
    BridgeInvariant.FindKeyIs(db.log, author, key);
    if k > 0 { assert rs[k - 1] == Encoded(db.log[k - 1], k - 1, e); }
    if f.Some? {
      var j :| 0 <= j < |rs| && rs[j] == f.value;
      assert rs[j] == Encoded(db.log[j], j, e);
      CoreStore.SameKey(s, stream, j, k - 1);
    }
  }

  /** A client's append in the Bridge's log is the Core store's idempotent append, for any registered author and any key: the Record is added
      exactly when Core adds one, and a key that is taken, or a CLOSED Stream, changes neither. */
  lemma ClientIsAppend(s: CoreStore.State, stream: string, db: BridgeLedger.Ledger, r: BridgeLedger.Rec, e: Encoding)
    requires Represents(s, stream, db, e) && Injective(e) && CoreStore.StoreOk(s) && r.author in s.peers
    ensures var core := CoreStore.Append(s, RequestOf(r, stream, e)); var db' := BridgeLedger.AppendRecord(db, r);
            if core.Ok? then Represents(core.value.0, stream, db', e) && (core.value.0 == s <==> db' == db) else db' == db
  {
    hide BridgeLedger.FindKey, CoreStore.FindKey, CoreStore.MaxPosition, Represents;
    SameLookup(s, stream, db, r.author, r.key, e);
    RepresentsMeans(s, stream, db, e);
    if BridgeLedger.FindKey(db.log, r.author, r.key) == 0 && !db.closed {
      CoreStore.HeadIs(CoreStore.Log(s, stream));
      AppendRepresents(s, stream, db, r, e);
      var log := CoreStore.Log(s, stream);
      assert CoreStore.Log(s.(records := s.records[stream := log + [Encoded(r, |db.log|, e)]]), stream) != log;
    }
  }

  /** Appending a response in the Bridge is an idempotent append in the Core store: same answer, same position, same errors. */
  lemma RespondIsAppend(s: CoreStore.State, stream: string, db: BridgeLedger.Ledger, did: nat, p: BridgeLedger.Payload,
                        json: seq<BridgeLedger.CatchUp.byte>, tokens: nat, e: Encoding)
    requires Represents(s, stream, db, e) && Injective(e) && CoreStore.StoreOk(s)
    ensures var core := CoreStore.Append(s, ResponseRequest(db.peer, did, p, stream, e));
            match BridgeLedger.AppendResponse(db, did, p, json, tokens)
            case Err(x) =>
              core == Err(if x.StreamClosed? then CoreStore.StreamClosed else CoreStore.IdempotencyConflict)
              && (x.StreamClosed? || x.IdempotencyConflict?)
            case Ok(v) => core.Ok? && core.value.1.position == v.1 && Represents(core.value.0, stream, v.0, e)
  {
    hide BridgeLedger.FindKey, CoreStore.FindKey, CoreStore.MaxPosition, Represents;
    SameLookup(s, stream, db, db.peer, BridgeLedger.ResponseKey(did), e);
    RepresentsMeans(s, stream, db, e);
    var k := BridgeLedger.FindKey(db.log, db.peer, BridgeLedger.ResponseKey(did));
    if k == 0 && !db.closed {
      var r := BridgeLedger.ResponseRec(db.peer, did, p, json, tokens);
      CoreStore.HeadIs(CoreStore.Log(s, stream));
      AppendRepresents(s, stream, db, r, e);
    }
  }

  lemma RepresentsMeans(s: CoreStore.State, stream: string, db: BridgeLedger.Ledger, e: Encoding)
    requires Represents(s, stream, db, e) && CoreStore.StoreOk(s)
    ensures db.peer in s.peers && stream in s.streams && s.streams[stream].closed == db.closed && |CoreStore.Log(s, stream)| == |db.log|
    ensures CoreStore.Dense(CoreStore.Log(s, stream))
  {
  }

  lemma AppendRepresents(s: CoreStore.State, stream: string, db: BridgeLedger.Ledger, r: BridgeLedger.Rec, e: Encoding)
    requires Represents(s, stream, db, e)
    ensures var log := CoreStore.Log(s, stream) + [Encoded(r, |db.log|, e)];
            Represents(s.(records := s.records[stream := log]), stream, db.(log := db.log + [r]), e)
  {
    hide Encoded;
  }

  /** Moving the Offset in the Bridge is the Core compare-and-set: same result, same errors. */
  lemma AdvanceIsCas(s: CoreStore.State, stream: string, db: BridgeLedger.Ledger, position: nat, expected: nat, e: Encoding)
    requires Represents(s, stream, db, e) && CoreStore.StoreOk(s)
    ensures var core := CoreStore.AdvanceOffset(s, db.peer, stream, position, expected);
            match BridgeLedger.AdvanceOffset(db, position, expected)
            case Err(x) =>
              core == Err(if x.CasMismatch? then CoreStore.CasMismatch
                          else if x.OffsetRegression? then CoreStore.OffsetRegression else CoreStore.OffsetBeyondHead)
            case Ok(db') => core.Ok? && Represents(core.value, stream, db', e)
  {
    CoreStore.HeadIs(CoreStore.Log(s, stream));
    hide CoreStore.MaxPosition;
  }
}
