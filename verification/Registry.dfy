/**
 Retained Bridge sessions of one (stream, peer) scope: generation allocation, retention and the MRU pointer.

 The handle of a new row is any string no row has; the clock never goes back.
 */
module Registry {
  import opened Wrappers

  const MAX_RETAINED: nat := 20
  const MAX_AGE: real := 30.0 * 86400.0

  datatype Status = Active | Fresh | Lost | Tombstoned

  datatype Row = Row(
    handle: string,
    generation: nat,
    cli: bool,
    resumable: bool,
    status: Status,
    lastSeen: real,
    vendor: Option<string>,
    watermark: Option<nat>,
    version: nat)

  /** `pointer` names a row by handle and generation; `next` is the generation counter, absent before the first allocation. */
  datatype Reg = Reg(history: seq<Row>, next: Option<nat>, pointer: Option<(string, nat)>)

  datatype Values = Values(cli: bool, resumable: bool, status: Status, vendor: Option<string>, watermark: Option<nat>)

  // ---------------------------------------------------------------- reading

  predicate Live(r: Row) {
    !r.status.Tombstoned?
  }

  predicate Aged(r: Row, now: real) {
    now - r.lastSeen > MAX_AGE
  }

  predicate Eligible(r: Row, now: real) {
    (r.status.Active? || r.status.Fresh?) && r.resumable && 0.0 <= now - r.lastSeen <= MAX_AGE
    && (r.cli || r.vendor.Some? ==> r.vendor.Some? && r.watermark.Some? && r.version == 1)
  }

  /** More recently seen; the newer generation between equals. */
  predicate Before(r: Row, s: Row) {
    r.lastSeen > s.lastSeen || (r.lastSeen == s.lastSeen && r.generation > s.generation)
  }

  function Insert(h: seq<Row>, i: nat, s: seq<nat>): (r: seq<nat>)
    requires i < |h| && forall k :: 0 <= k < |s| ==> s[k] < |h|
    ensures forall k :: 0 <= k < |r| ==> r[k] == i || r[k] in s
  {
    if s == [] || Before(h[i], h[s[0]]) then [i] + s else [s[0]] + Insert(h, i, s[1..])
  }

  /** The live rows among the first `n`, most recent first. */
  function OrderedTo(h: seq<Row>, n: nat): (s: seq<nat>)
    requires n <= |h|
    ensures forall k :: 0 <= k < |s| ==> s[k] < n
  {
    if n == 0 then []
    else
      var s := OrderedTo(h, n - 1);
      if Live(h[n - 1]) then Insert(h, n - 1, s) else s
  }

  lemma {:induction false} InsertElements(h: seq<Row>, i: nat, s: seq<nat>)
    requires i < |h| && forall k :: 0 <= k < |s| ==> s[k] < |h|
    ensures forall x :: x in Insert(h, i, s) <==> x == i || x in s
    decreases |s|
  {
    if s != [] && !Before(h[i], h[s[0]]) {
      InsertElements(h, i, s[1..]);
      assert s == [s[0]] + s[1..];
    }
  }

  predicate Ranked(h: seq<Row>, s: seq<nat>) {
    (forall k :: 0 <= k < |s| ==> s[k] < |h|) && forall a, b :: 0 <= a < b < |s| ==> Before(h[s[a]], h[s[b]])
  }

  predicate Generations(h: seq<Row>) {
    forall i, j :: 0 <= i < j < |h| ==> h[i].generation < h[j].generation
  }

  lemma {:induction false} InsertRanked(h: seq<Row>, i: nat, s: seq<nat>)
    requires Generations(h) && Ranked(h, s) && i < |h| && i !in s
    ensures Ranked(h, Insert(h, i, s))
    decreases |s|
  {
    if s != [] {
      assert s[0] in s && s[0] != i;
      Comparable(h, i, s[0]);
      if Before(h[i], h[s[0]]) {
        RankedCons(h, i, s);
      } else {
        var t := s[1..];
        assert s == [s[0]] + t;
        RankedTail(h, s);
        InsertRanked(h, i, t);
        InsertElements(h, i, t);
        hide Ranked, Before, Generations;
        AllAfter(h, s[0], Insert(h, i, t), i, t);
      }
    }
  }

  lemma Comparable(h: seq<Row>, i: nat, j: nat)
    requires Generations(h) && i < |h| && j < |h| && i != j
    ensures Before(h[i], h[j]) || Before(h[j], h[i])
  {
  }

  lemma RankedTail(h: seq<Row>, s: seq<nat>)
    requires s != [] && Ranked(h, s)
    ensures s[0] < |h| && Ranked(h, s[1..]) && forall x :: x in s[1..] ==> x < |h| && Before(h[s[0]], h[x])
  {
    forall x | x in s[1..] ensures x < |h| && Before(h[s[0]], h[x]) {
      var k :| 0 <= k < |s[1..]| && s[1..][k] == x;
      assert s[k + 1] == x;
    }
  }

  lemma RankedCons(h: seq<Row>, i: nat, s: seq<nat>)
    requires s != [] && Ranked(h, s) && i < |h| && Before(h[i], h[s[0]])
    ensures Ranked(h, [i] + s)
  {
    forall b | 0 <= b < |s| ensures Before(h[i], h[s[b]]) {}
  }

  lemma AllAfter(h: seq<Row>, first: nat, r: seq<nat>, i: nat, t: seq<nat>)
    requires first < |h| && i < |h| && Ranked(h, r) && Before(h[first], h[i])
    requires forall x :: x in r <==> x == i || x in t
    requires forall x :: x in t ==> x < |h| && Before(h[first], h[x])
    ensures Ranked(h, [first] + r)
  {
    forall b | 0 <= b < |r| ensures r[b] < |h| && Before(h[first], h[r[b]]) {
      assert r[b] in r;
    }
    hide Before;
  }

  lemma {:induction false} Listed(h: seq<Row>, n: nat, i: nat)
    requires n <= |h|
    ensures i in OrderedTo(h, n) <==> i < n && Live(h[i])
    decreases n
  {
    if n > 0 {
      Listed(h, n - 1, i);
      InsertElements(h, n - 1, OrderedTo(h, n - 1));
      hide Insert, Live;
    }
  }

  lemma {:induction false} OrderedRanked(h: seq<Row>, n: nat)
    requires n <= |h| && Generations(h)
    ensures Ranked(h, OrderedTo(h, n))
    decreases n
  {
    hide Generations, Ranked, Live;
    if n == 0 {
      NothingRanked(h);
    } else {
      OrderedRanked(h, n - 1);
      InsertRanked(h, n - 1, OrderedTo(h, n - 1));
      hide Insert;
    }
  }

  /** The ordered list has exactly the live rows, strictly by recency. */
  lemma OrderedIs(h: seq<Row>, n: nat)
    requires n <= |h| && Generations(h)
    ensures Ranked(h, OrderedTo(h, n)) && forall i :: i in OrderedTo(h, n) <==> 0 <= i < n && Live(h[i])
  {
    OrderedRanked(h, n);
    hide OrderedTo, Live, Generations, Ranked;
    forall i: nat ensures i in OrderedTo(h, n) <==> i < n && Live(h[i]) {
      Listed(h, n, i);
    }
  }

  lemma NothingRanked(h: seq<Row>)
    ensures Ranked(h, [])
  {
  }

  function Current(g: Reg): Option<nat> {
    if g.pointer.None? then None else FindRow(g.history, g.pointer.value, |g.history|)
  }

  function FindRow(h: seq<Row>, p: (string, nat), n: nat): (r: Option<nat>)
    requires n <= |h|
    ensures r.Some? ==> r.value < n && h[r.value].handle == p.0 && h[r.value].generation == p.1
    ensures r.None? ==> forall i :: 0 <= i < n ==> !(h[i].handle == p.0 && h[i].generation == p.1)
  {
    if n == 0 then None
    else if h[n - 1].handle == p.0 && h[n - 1].generation == p.1 then Some(n - 1) else FindRow(h, p, n - 1)
  }

  function PointTo(h: seq<Row>, i: nat): Option<(string, nat)>
    requires i < |h|
  {
    Some((h[i].handle, h[i].generation))
  }

  // ---------------------------------------------------------------- writing

  function FirstEligible(h: seq<Row>, s: seq<nat>, now: real): (r: Option<nat>)
    requires forall k :: 0 <= k < |s| ==> s[k] < |h|
    ensures r.Some? ==> r.value < |h|
  {
    if s == [] then None else if Eligible(h[s[0]], now) then Some(s[0]) else FirstEligible(h, s[1..], now)
  }

  /** Keep an eligible pointer, else point at the most recent eligible row, else at nothing. */
  function Repaired(g: Reg, now: real): Reg {
    var c := Current(g);
    if c.Some? && Eligible(g.history[c.value], now) then g
    else
      match FirstEligible(g.history, OrderedTo(g.history, |g.history|), now)
      case None => g.(pointer := None)
      case Some(i) => g.(pointer := PointTo(g.history, i))
  }

  function Alive(h: seq<Row>, s: seq<nat>, now: real): (r: seq<nat>)
    requires forall k :: 0 <= k < |s| ==> s[k] < |h|
    ensures forall k :: 0 <= k < |r| ==> r[k] < |h|
  {
    if s == [] then [] else (if Aged(h[s[0]], now) then [] else [s[0]]) + Alive(h, s[1..], now)
  }

  function AliveOf(h: seq<Row>, now: real): (r: seq<nat>)
    ensures forall k :: 0 <= k < |r| ==> r[k] < |h|
  {
    Alive(h, OrderedTo(h, |h|), now)
  }

  /** The rows retention keeps: the most recent ones that are not too old. */
  function Kept(h: seq<Row>, now: real): (r: seq<nat>)
    ensures |r| <= MAX_RETAINED
  {
    var alive := AliveOf(h, now);
    if |alive| <= MAX_RETAINED then alive else alive[..MAX_RETAINED]
  }

  function Buried(h: seq<Row>, now: real): seq<Row> {
    seq(|h|, i requires 0 <= i < |h| => if Live(h[i]) && i !in Kept(h, now) then h[i].(status := Tombstoned) else h[i])
  }

  function Pruned(g: Reg, now: real): Reg {
    Repaired(g.(history := Buried(g.history, now)), now)
  }

  function NextOf(g: Reg): nat {
    if g.next.Some? then g.next.value else 1
  }

  // ---------------------------------------------------------------- laws

  /** Generations count up and stay below the counter; handles are unique; no row was seen in the future. */
  predicate RegOk(g: Reg, now: real) {
    && Generations(g.history)
    && (forall i :: 0 <= i < |g.history| ==> g.history[i].generation < NextOf(g) && g.history[i].lastSeen <= now)
    && (forall i, j :: 0 <= i < j < |g.history| ==> g.history[i].handle != g.history[j].handle)
  }

  lemma {:induction false} AliveIs(h: seq<Row>, s: seq<nat>, now: real)
    requires Ranked(h, s)
    ensures var r := Alive(h, s, now);
            Ranked(h, r) && forall i :: i in r <==> i in s && !Aged(h[i], now)
    decreases |s|
  {
    if s != [] {
      var t := s[1..];
      assert s == [s[0]] + t;
      AliveIs(h, t, now);
      var r := Alive(h, t, now);
      forall b | 0 <= b < |r| ensures Before(h[s[0]], h[r[b]]) {
        assert r[b] in r;
        var k :| 0 <= k < |t| && t[k] == r[b];
        assert s[k + 1] == t[k];
      }
    }
  }

  lemma AliveOfIs(h: seq<Row>, now: real)
    requires Generations(h)
    ensures Ranked(h, AliveOf(h, now))
    ensures forall i :: i in AliveOf(h, now) <==> 0 <= i < |h| && Live(h[i]) && !Aged(h[i], now)
  {
    OrderedIs(h, |h|);
    AliveIs(h, OrderedTo(h, |h|), now);
    hide OrderedTo, Alive, Ranked, Generations, Aged, Live;
  }

  lemma PrefixRanked(h: seq<Row>, s: seq<nat>, n: nat)
    requires Ranked(h, s) && n <= |s|
    ensures Ranked(h, s[..n]) && forall i :: i in s[..n] ==> i in s
  {
  }

  lemma PrefixHas(s: seq<nat>, n: nat, b: nat)
    requires n <= |s| && b < |s|
    ensures b < n ==> s[b] in s[..n]
  {
    if b < n { assert s[..n][b] == s[b]; }
  }

  /** A listed row past the prefix is less recent than the whole prefix. */
  lemma PastPrefix(h: seq<Row>, s: seq<nat>, n: nat, i: nat)
    requires Ranked(h, s) && n <= |s| && i in s && i !in s[..n]
    ensures i < |h| && forall k :: k in s[..n] ==> k < |h| && Before(h[k], h[i])
  {
    var b :| 0 <= b < |s| && s[b] == i;
    PrefixHas(s, n, b);
    forall k | k in s[..n] ensures k < |h| && Before(h[k], h[i]) {
      var a :| 0 <= a < n && s[a] == k;
    }
  }

  /** What retention keeps: live rows, none too old, at most twenty, and every live row it drops is too old or less recent than
      all twenty. */
  lemma KeptIs(h: seq<Row>, now: real)
    requires Generations(h)
    ensures forall i :: i in Kept(h, now) ==> 0 <= i < |h| && Live(h[i]) && !Aged(h[i], now)
    ensures forall i :: 0 <= i < |h| && Live(h[i]) && i !in Kept(h, now) ==>
              Aged(h[i], now) || (|Kept(h, now)| == MAX_RETAINED && forall k :: k in Kept(h, now) ==> 0 <= k < |h| && Before(h[k], h[i]))
    ensures Ranked(h, Kept(h, now))
  {
    AliveOfIs(h, now);
    var alive, kept := AliveOf(h, now), Kept(h, now);
    assert kept == if |alive| <= MAX_RETAINED then alive else alive[..MAX_RETAINED];
    hide Kept, AliveOf, Ranked, Generations, Aged, Live, Before;
    if |alive| > MAX_RETAINED { PrefixRanked(h, alive, MAX_RETAINED); }
    forall i | 0 <= i < |h| && Live(h[i]) && i !in kept && !Aged(h[i], now)
      ensures |kept| == MAX_RETAINED && forall k :: k in kept ==> 0 <= k < |h| && Before(h[k], h[i])
    {
      assert i in alive;
      PastPrefix(h, alive, MAX_RETAINED, i);
    }
  }

  /** Repair changes only the pointer: afterwards it is at an eligible row, or at nothing exactly when no row is eligible. */
  lemma RepairIs(g: Reg, now: real)
    requires Generations(g.history)
    ensures var g' := Repaired(g, now);
            && g' == g.(pointer := g'.pointer)
            && (g'.pointer.None? <==> forall i :: 0 <= i < |g.history| ==> !Eligible(g.history[i], now))
            && (g'.pointer.Some? ==> Current(g').Some? && Eligible(g.history[Current(g').value], now))
  {
    var h := g.history;
    OrderedIs(h, |h|);
    var s := OrderedTo(h, |h|);
    FirstEligibleIs(h, s, now);
    var c := Current(g);
    if !(c.Some? && Eligible(h[c.value], now)) {
      match FirstEligible(h, s, now)
      case None =>
        forall i | 0 <= i < |h| ensures !Eligible(h[i], now) {
          assert Eligible(h[i], now) ==> i in s;
        }
      case Some(i) =>
        var g' := Repaired(g, now);
        var d := FindRow(h, PointTo(h, i).value, |h|);
        assert d.Some? && d.value == i;
    }
  }

  lemma {:induction false} FirstEligibleIs(h: seq<Row>, s: seq<nat>, now: real)
    requires forall k :: 0 <= k < |s| ==> s[k] < |h|
    ensures match FirstEligible(h, s, now)
            case None => forall i :: i in s ==> !Eligible(h[i], now)
            case Some(i) => i in s && i < |h| && Eligible(h[i], now)
    decreases |s|
  {
    if s != [] {
      assert s == [s[0]] + s[1..];
      FirstEligibleIs(h, s[1..], now);
    }
  }

  lemma BuriedRows(h: seq<Row>, now: real)
    requires Generations(h)
    ensures var h' := Buried(h, now);
            |h'| == |h| && forall i :: 0 <= i < |h'| ==>
                 (Live(h'[i]) <==> i in Kept(h, now)) && Follows(h[i], h'[i]) && h'[i].lastSeen == h[i].lastSeen
  {
    KeptIs(h, now);
    hide Kept, Aged;
  }

  lemma BuriedIs(g: Reg, now: real)
    requires RegOk(g, now)
    ensures RegOk(g.(history := Buried(g.history, now)), now)
  {
    var h' := Buried(g.history, now);
    BuriedRows(g.history, now);
    hide Buried, Kept;
    forall i, j | 0 <= i < j < |h'|
      ensures h'[i].generation < h'[j].generation && h'[i].handle != h'[j].handle
    {
      assert Follows(g.history[i], h'[i]) && Follows(g.history[j], h'[j]);
    }
    forall i | 0 <= i < |h'| ensures h'[i].generation < NextOf(g) && h'[i].lastSeen <= now {
      assert Follows(g.history[i], h'[i]);
    }
  }

  /** A row keeps its identity, and a tombstone is final. */
  predicate Follows(r: Row, r': Row) {
    r'.handle == r.handle && r'.generation == r.generation && r'.cli == r.cli && (!Live(r) ==> r' == r)
  }

  lemma PrunedIs(g: Reg, now: real)
    requires RegOk(g, now)
    ensures var g' := Pruned(g, now);
            && g'.history == Buried(g.history, now) && g'.next == g.next && RegOk(g', now)
            && (g'.pointer.None? <==> forall i :: 0 <= i < |g'.history| ==> !Eligible(g'.history[i], now))
            && (g'.pointer.Some? ==> Current(g').Some? && Eligible(g'.history[Current(g').value], now))
  {
    BuriedIs(g, now);
    RepairIs(g.(history := Buried(g.history, now)), now);
  }

  /** The live rows. */
  function LiveRows(h: seq<Row>): set<nat> {
    set i | 0 <= i < |h| && Live(h[i])
  }

  lemma {:induction false} ListedAtMost(s: seq<nat>, x: set<nat>)
    requires forall i :: i in x ==> i in s
    ensures |x| <= |s|
    decreases |s|
  {
    if s == [] {
      assert x == {};
    } else {
      var t := s[..|s| - 1];
      assert s == t + [s[|s| - 1]];
      ListedAtMost(t, x - {s[|s| - 1]});
      if s[|s| - 1] in x { assert x == (x - {s[|s| - 1]}) + {s[|s| - 1]}; } else { assert x == x - {s[|s| - 1]}; }
    }
  }

  function NewRow(g: Reg, v: Values, handle: string, now: real): Row {
    Row(handle, NextOf(g), v.cli, v.resumable, v.status, now, v.vendor, v.watermark, 1)
  }

  function Added(g: Reg, v: Values, handle: string, now: real): Reg {
    Reg(g.history + [NewRow(g, v, handle, now)], Some(NextOf(g) + 1), Some((handle, NextOf(g))))
  }

  function Allocated(g: Reg, v: Values, handle: string, now: real): Reg {
    Pruned(Added(g, v, handle, now), now).(pointer := Some((handle, NextOf(g))))
  }

  /** What the source asks of an allocation: an unused handle, and a row that is not born tombstoned. */
  predicate CanAllocate(g: Reg, v: Values, handle: string, now: real) {
    RegOk(g, now) && !v.status.Tombstoned? && forall i :: 0 <= i < |g.history| ==> g.history[i].handle != handle
  }

  lemma AddedIs(g: Reg, v: Values, handle: string, now: real)
    requires CanAllocate(g, v, handle, now)
    ensures RegOk(Added(g, v, handle, now), now)
    ensures |g.history| in Kept(Added(g, v, handle, now).history, now)
  {
    var h := Added(g, v, handle, now).history;
    AddedOk(g, Added(g, v, handle, now), NewRow(g, v, handle, now), now);
    NewestKept(h, now);
  }

  /** After an allocation: the new row is live, has a generation above every earlier one and is the pointer target; no earlier row
      changed but for becoming a tombstone; and the registry laws hold. */
  lemma AllocateIs(g: Reg, v: Values, handle: string, now: real)
    requires CanAllocate(g, v, handle, now)
    ensures var g' := Allocated(g, v, handle, now); var n := |g.history|;
            && RegOk(g', now) && |g'.history| == n + 1 && NextOf(g') == NextOf(g) + 1
            && (forall i :: 0 <= i < n ==> Follows(g.history[i], g'.history[i]) && g'.history[i].generation < g'.history[n].generation)
            && Live(g'.history[n]) && Current(g') == Some(n)
  {
    var added := Added(g, v, handle, now);
    var n := |g.history|;
    AddedIs(g, v, handle, now);
    PrunedIs(added, now);
    BuriedRows(added.history, now);
    var g' := Allocated(g, v, handle, now);
    hide Kept, Pruned, Eligible, Buried, Aged, Before, Live;
    assert Follows(added.history[n], g'.history[n]);
    forall i | 0 <= i < n ensures Follows(g.history[i], g'.history[i]) && g'.history[i].generation < g'.history[n].generation {
      assert Follows(added.history[i], g'.history[i]);
    }
  }

  /** Retention at an allocation: at most twenty rows are live, all of the last thirty days; a row that stops being live is too old,
      or less recent than every one of twenty live rows. */
  lemma AllocateRetains(g: Reg, v: Values, handle: string, now: real)
    requires CanAllocate(g, v, handle, now)
    ensures var g' := Allocated(g, v, handle, now); var n := |g.history|; var live := LiveRows(g'.history);
            && |g'.history| == n + 1 && |live| <= MAX_RETAINED
            && (forall i :: i in live ==> 0 <= i <= n && !Aged(g'.history[i], now))
            && (forall i :: 0 <= i < n && Live(g.history[i]) && i !in live ==>
                  Aged(g.history[i], now)
                  || (|live| == MAX_RETAINED && forall k :: k in live ==> 0 <= k <= n && Before(g'.history[k], g.history[i])))
  {
    var h := Added(g, v, handle, now).history;
    AddedIs(g, v, handle, now);
    PrunedIs(Added(g, v, handle, now), now);
    KeptIs(h, now);
    LiveAreKept(h, now);
    BuriedRows(h, now);
    var g' := Allocated(g, v, handle, now);
    assert forall i :: 0 <= i < |g.history| ==> h[i] == g.history[i];
    hide Kept, Pruned, Eligible, Buried, Aged, Before, Live;
    AgedFollows(h, g'.history, now);
    BeforeFollows(h, g'.history);
  }

  lemma AgedFollows(h: seq<Row>, h': seq<Row>, now: real)
    requires |h'| == |h| && forall i :: 0 <= i < |h| ==> h'[i].lastSeen == h[i].lastSeen
    ensures forall i :: 0 <= i < |h| ==> Aged(h'[i], now) == Aged(h[i], now)
  {
  }

  lemma BeforeFollows(h: seq<Row>, h': seq<Row>)
    requires |h'| == |h| && forall i :: 0 <= i < |h| ==> h'[i].lastSeen == h[i].lastSeen && Follows(h[i], h'[i])
    ensures forall i, j :: 0 <= i < |h| && 0 <= j < |h| ==> Before(h'[i], h[j]) == Before(h[i], h[j])
  {
  }

  lemma AddedOk(g: Reg, added: Reg, row: Row, now: real)
    requires RegOk(g, now) && row.generation == NextOf(g) && row.lastSeen == now
    requires added.history == g.history + [row] && added.next == Some(NextOf(g) + 1)
    requires forall i :: 0 <= i < |g.history| ==> g.history[i].handle != row.handle
    ensures RegOk(added, now)
  {
  }

  /** A row seen just now with the newest generation is never the one pruned. */
  lemma NewestKept(h: seq<Row>, now: real)
    requires Generations(h) && h != [] && Live(h[|h| - 1]) && h[|h| - 1].lastSeen == now
    requires forall i :: 0 <= i < |h| ==> h[i].lastSeen <= now
    ensures |h| - 1 in Kept(h, now)
  {
    KeptIs(h, now);
    hide Kept;
    var n := |h| - 1;
    forall k | 0 <= k < |h| ensures !Before(h[k], h[n]) {
      assert k == n || h[k].generation < h[n].generation;
    }
    assert |Kept(h, now)| == MAX_RETAINED ==> Kept(h, now)[0] in Kept(h, now);
  }

  lemma LiveAreKept(h: seq<Row>, now: real)
    requires Generations(h)
    ensures var h' := Buried(h, now);
            && |LiveRows(h')| <= MAX_RETAINED
            && (forall i :: i in LiveRows(h') <==> i in Kept(h, now))
            && (|Kept(h, now)| == MAX_RETAINED ==> |LiveRows(h')| == MAX_RETAINED)
  {
    KeptIs(h, now);
    var h' := Buried(h, now);
    var kept := Kept(h, now);
    hide Kept;
    forall i ensures i in LiveRows(h') <==> i in kept {
      assert i in kept ==> 0 <= i < |h|;
    }
    ListedAtMost(kept, LiveRows(h'));
    DistinctCount(h, kept, LiveRows(h'));
  }

  lemma {:induction false} DistinctCount(h: seq<Row>, s: seq<nat>, x: set<nat>)
    requires Ranked(h, s) && forall i :: i in x <==> i in s
    ensures |x| == |s|
    decreases |s|
  {
    if s == [] {
      assert x == {};
    } else {
      var t, last := s[..|s| - 1], s[|s| - 1];
      assert s == t + [last];
      forall i | i in t ensures i != last {
        var k :| 0 <= k < |t| && t[k] == i;
        assert Before(h[s[k]], h[s[|s| - 1]]);
      }
      DistinctCount(h, t, x - {last});
    }
  }

  // ---------------------------------------------------------------- seeding an upgraded store

  function MaxOf(s: seq<Option<nat>>): Option<nat> {
    if s == [] then None
    else
      var m := MaxOf(s[1..]);
      if s[0].None? then m else if m.None? || m.value < s[0].value then s[0] else m
  }

  /** A legacy slot becomes the first history row, and the counter starts above every durable generation: of deliveries, of session
      events and of the row itself. A scope without a slot is seeded from its deliveries and events, never downwards. */
  function Seeded(g: Reg, slot: Option<Row>, deliveries: seq<Option<nat>>, events: seq<Option<nat>>): Reg {
    var adopted :=
      if slot.None? then g
      else
        var all := MaxOf(deliveries + events + [Some(slot.value.generation)]);
        Reg([slot.value], Some((if all.None? then 0 else all.value) + 1), Some((slot.value.handle, slot.value.generation)));
    if deliveries + events == [] then adopted
    else
      var m := MaxOf(deliveries + events);
      var least := (if m.None? then 0 else m.value) + 1;
      adopted.(next := Some(if adopted.next.Some? && adopted.next.value > least then adopted.next.value else least))
  }

  lemma {:induction false} MaxOfIs(s: seq<Option<nat>>)
    ensures forall i :: 0 <= i < |s| && s[i].Some? ==> MaxOf(s).Some? && s[i].value <= MaxOf(s).value
    decreases |s|
  {
    if s != [] { MaxOfIs(s[1..]); }
  }

  /** After seeding, no generation that left any durable trace can be allocated again, and the laws hold. */
  lemma SeededIs(g: Reg, slot: Option<Row>, deliveries: seq<Option<nat>>, events: seq<Option<nat>>, now: real)
    requires RegOk(g, now) && (slot.Some? ==> g.history == [] && slot.value.lastSeen <= now)
    ensures var g' := Seeded(g, slot, deliveries, events);
            && RegOk(g', now) && (slot.None? ==> NextOf(g') >= NextOf(g))
            && (forall i :: 0 <= i < |deliveries| && deliveries[i].Some? ==> deliveries[i].value < NextOf(g'))
            && (forall i :: 0 <= i < |events| && events[i].Some? ==> events[i].value < NextOf(g'))
  {
    var both := deliveries + events;
    MaxOfIs(both);
    forall i | 0 <= i < |deliveries| && deliveries[i].Some? ensures deliveries[i].value < NextOf(Seeded(g, slot, deliveries, events)) {
      assert both[i] == deliveries[i];
    }
    forall i | 0 <= i < |events| && events[i].Some? ensures events[i].value < NextOf(Seeded(g, slot, deliveries, events)) {
      assert both[|deliveries| + i] == events[i];
    }
    if slot.Some? {
      MaxOfIs(both + [Some(slot.value.generation)]);
      assert (both + [Some(slot.value.generation)])[|both|] == Some(slot.value.generation);
    }
  }

  // ---------------------------------------------------------------- runs

  datatype World = World(reg: Reg, now: real)

  datatype Action =
    | Allocate(values: Values, handle: string)
    | Prune
    | Repair
    | Write(row: nat, content: Row)
    | Tick(elapsed: real)

  /** A turn may write any live row's state, watermark and last-seen time, never its identity; a tombstone refuses every update. */
  function Next(w: World, a: Action): World {
    match a
    case Allocate(v, handle) => if CanAllocate(w.reg, v, handle, w.now) then w.(reg := Allocated(w.reg, v, handle, w.now)) else w
    case Prune => w.(reg := Pruned(w.reg, w.now))
    case Repair => w.(reg := Repaired(w.reg, w.now))
    case Write(i, content) =>
      if i < |w.reg.history| && Follows(w.reg.history[i], content) && content.lastSeen <= w.now
      then w.(reg := w.reg.(history := w.reg.history[i := content])) else w
    case Tick(elapsed) => if elapsed < 0.0 then w else w.(now := w.now + elapsed)
  }

  function Run(w: World, acts: seq<Action>): World
    decreases |acts|
  {
    if acts == [] then w else Run(Next(w, acts[0]), acts[1..])
  }

  /** Rows are never removed or renamed, tombstones are final, and the counter never goes back. */
  ghost predicate Continues(g: Reg, g': Reg) {
    |g.history| <= |g'.history| && NextOf(g) <= NextOf(g')
    && (forall i :: 0 <= i < |g.history| ==> Follows(g.history[i], g'.history[i]))
    && (forall i :: |g.history| <= i < |g'.history| ==> NextOf(g) <= g'.history[i].generation)
  }

  lemma ContinuesTrans(a: Reg, b: Reg, c: Reg)
    requires Continues(a, b) && Continues(b, c)
    ensures Continues(a, c)
  {
    forall i | 0 <= i < |a.history| ensures Follows(a.history[i], c.history[i]) {
      assert Follows(a.history[i], b.history[i]) && Follows(b.history[i], c.history[i]);
    }
    forall i | |a.history| <= i < |c.history| ensures NextOf(a) <= c.history[i].generation {
      if i < |b.history| { assert Follows(b.history[i], c.history[i]); }
    }
  }

  lemma NextContinues(w: World, a: Action)
    requires RegOk(w.reg, w.now)
    ensures RegOk(Next(w, a).reg, Next(w, a).now) && Continues(w.reg, Next(w, a).reg)
  {
    hide Allocated, Pruned, Repaired, Kept, Eligible, Buried;
    match a
    case Allocate(v, handle) =>
      if CanAllocate(w.reg, v, handle, w.now) { AllocateIs(w.reg, v, handle, w.now); AllocateNew(w.reg, v, handle, w.now); }
    case Prune => PrunedIs(w.reg, w.now); BuriedRows(w.reg.history, w.now);
    case Repair => RepairIs(w.reg, w.now);
    case Write(i, content) =>
    case Tick(elapsed) =>
  }

  lemma AllocateNew(g: Reg, v: Values, handle: string, now: real)
    requires CanAllocate(g, v, handle, now)
    ensures |Allocated(g, v, handle, now).history| == |g.history| + 1
    ensures Allocated(g, v, handle, now).history[|g.history|].generation == NextOf(g)
  {
    AddedIs(g, v, handle, now);
    PrunedIs(Added(g, v, handle, now), now);
    BuriedRows(Added(g, v, handle, now).history, now);
    hide Kept, Pruned, Eligible, Buried;
  }

  /** Over every run from a lawful registry - a seeded upgrade included - generations strictly increase along the history and none is
      ever reused, every row keeps its identity, and tombstones stay. */
  lemma {:induction false} RunContinues(w: World, acts: seq<Action>)
    requires RegOk(w.reg, w.now)
    ensures RegOk(Run(w, acts).reg, Run(w, acts).now) && Continues(w.reg, Run(w, acts).reg)
    decreases |acts|
  {
    hide RegOk, Continues, Next;
    if acts == [] {
      assert Continues(w.reg, w.reg) by { SelfContinues(w.reg); }
    } else {
      NextContinues(w, acts[0]);
      RunContinues(Next(w, acts[0]), acts[1..]);
      ContinuesTrans(w.reg, Next(w, acts[0]).reg, Run(w, acts).reg);
    }
  }

  lemma SelfContinues(g: Reg)
    ensures Continues(g, g)
  {
  }

  // ---------------------------------------------------------------- the store

  class SessionStore {
    var history: seq<Row>
    var next: Option<nat>
    var pointer: Option<(string, nat)>

    ghost function Contents(): Reg
      reads this
    {
      Reg(history, next, pointer)
    }

    ghost predicate Valid()
      reads this
    {
      Generations(history)
    }

    constructor ()
      ensures Valid() && Contents() == Reg([], None, None)
    {
      history, next, pointer := [], None, None;
    }

    method Point(i: nat)
      requires i < |history|
      modifies this`pointer
      ensures Contents() == old(Contents()).(pointer := PointTo(history, i))
    {
      pointer := Some((history[i].handle, history[i].generation));
    }

    /** Walk the ordered rows to the first eligible one, unless the pointer is eligible already. */
    method RepairPointer(now: real)
      modifies this`pointer
      ensures Contents() == Repaired(old(Contents()), now)
    {
      var current := Current(Reg(history, next, pointer));
      if current.Some? && Eligible(history[current.value], now) { return; }
      var rows := OrderedTo(history, |history|);
      var i := 0;
      while i < |rows| && !Eligible(history[rows[i]], now)
        invariant i <= |rows|
        invariant FirstEligible(history, rows, now) == FirstEligible(history, rows[i..], now)
      {
        assert rows[i..][1..] == rows[i + 1..];
        i := i + 1;
      }
      if i < |rows| { Point(rows[i]); } else { pointer := None; }
    }

    /** Entomb, row by row, what is too old or beyond the quota; then repair the pointer. */
    method PruneRows(now: real)
      requires Valid()
      modifies this`history, this`pointer
      ensures Contents() == Pruned(old(Contents()), now)
    {
      EntombRows(now);
      RepairPointer(now);
      PrunedMeans(old(Contents()), now);
    }

    method EntombRows(now: real)
      requires Valid()
      modifies this`history
      ensures Contents() == old(Contents()).(history := Buried(old(history), now))
    {
      assert Generations(history);
      hide *;
      var h, retained := history, OrderedTo(history, |history|);
      OrderedBound(h);
      var removed := BeyondQuota(h, retained, now);
      Beyond(h, retained, removed, now);
      NoneEntombed(h, now, retained);
      var i := 0;
      while i < |retained|
        invariant i <= |retained| && EntombedTo(h, now, retained, i, history)
      {
        EntombNext(h, now, retained, i, history, removed);
        var k := retained[i];
        if Aged(h[k], now) || k in removed { history := history[k := h[k].(status := Tombstoned)]; }
        i := i + 1;
      }
      AllEntombed(h, now, retained, history);
      assert Contents() == old(Contents()).(history := Buried(old(history), now));
    }

    method AllocateRow(v: Values, handle: string, now: real) returns (row: Row)
      requires RegOk(Contents(), now) && CanAllocate(Contents(), v, handle, now)
      modifies this
      ensures Contents() == Allocated(old(Contents()), v, handle, now)
      ensures row.generation == NextOf(old(Contents())) && row.handle == handle
    {
      var generation := if next.Some? then next.value else 1;
      next := Some(generation + 1);
      row := Row(handle, generation, v.cli, v.resumable, v.status, now, v.vendor, v.watermark, 1);
      ghost var before := old(Contents());
      AddedIs(before, v, handle, now);
      history := history + [row];
      pointer := Some((handle, generation));
      assert Contents() == Added(before, v, handle, now);
      PruneRows(now);
      pointer := Some((handle, generation));
    }
  }

  /** The live rows that are not too old and come after the first twenty. */
  method BeyondQuota(h: seq<Row>, retained: seq<nat>, now: real) returns (removed: set<nat>)
    requires forall k :: 0 <= k < |retained| ==> retained[k] < |h|
    ensures var alive := Alive(h, retained, now);
            forall x :: x in removed <==> exists k :: MAX_RETAINED <= k < |alive| && alive[k] == x
  {
    var alive: seq<nat> := [];
    var i := 0;
    while i < |retained|
      invariant i <= |retained| && alive + Alive(h, retained[i..], now) == Alive(h, retained, now)
    {
      assert retained[i..][1..] == retained[i + 1..] && retained[i..][0] == retained[i];
      if !Aged(h[retained[i]], now) { alive := alive + [retained[i]]; }
      i := i + 1;
    }
    assert retained[i..] == [] && alive == Alive(h, retained, now);
    removed := set k | MAX_RETAINED <= k < |alive| :: alive[k];
  }

  function BuriedRow(h: seq<Row>, now: real, i: nat): Row
    requires i < |h|
  {
    if Live(h[i]) && i !in Kept(h, now) then h[i].(status := Tombstoned) else h[i]
  }

  predicate EntombedTo(h: seq<Row>, now: real, retained: seq<nat>, n: nat, cur: seq<Row>) {
    n <= |retained| && |cur| == |h|
    && forall k :: 0 <= k < |h| ==> cur[k] == if k in retained[..n] then BuriedRow(h, now, k) else h[k]
  }

  /** Exactly the listed rows that retention does not keep are too old or beyond the quota. */
  predicate Condemned(h: seq<Row>, now: real, retained: seq<nat>, removed: set<nat>) {
    forall k :: k in retained ==> 0 <= k < |h| && (Aged(h[k], now) || k in removed <==> k !in Kept(h, now)) && Live(h[k])
  }

  lemma NoneEntombed(h: seq<Row>, now: real, retained: seq<nat>)
    ensures EntombedTo(h, now, retained, 0, h)
  {
  }

  lemma EntombNext(h: seq<Row>, now: real, retained: seq<nat>, n: nat, cur: seq<Row>, removed: set<nat>)
    requires n < |retained| && EntombedTo(h, now, retained, n, cur) && Condemned(h, now, retained, removed)
    ensures var k := retained[n];
            k < |h| && k < |cur| &&
            EntombedTo(h, now, retained, n + 1,
                       if Aged(h[k], now) || k in removed then cur[k := h[k].(status := Tombstoned)] else cur)
  {
    hide Kept, Aged;
    assert retained[n] in retained;
    assert retained[..n + 1] == retained[..n] + [retained[n]];
  }

  lemma ListedIffLive(h: seq<Row>, k: nat)
    requires Generations(h) && k < |h|
    ensures k in OrderedTo(h, |h|) <==> Live(h[k])
  {
    OrderedIs(h, |h|);
  }

  lemma BuriedAt(h: seq<Row>, now: real)
    ensures |Buried(h, now)| == |h| && forall k :: 0 <= k < |h| ==> Buried(h, now)[k] == BuriedRow(h, now, k)
  {
    hide Kept;
  }

  lemma AllEntombed(h: seq<Row>, now: real, retained: seq<nat>, cur: seq<Row>)
    requires Generations(h) && retained == OrderedTo(h, |h|) && EntombedTo(h, now, retained, |retained|, cur)
    ensures cur == Buried(h, now)
  {
    hide OrderedTo, Kept, Generations, Buried;
    assert retained[..|retained|] == retained;
    BuriedAt(h, now);
    forall k | 0 <= k < |h| ensures cur[k] == Buried(h, now)[k] {
      ListedIffLive(h, k);
    }
  }

  lemma OrderedBound(h: seq<Row>)
    ensures forall k :: 0 <= k < |OrderedTo(h, |h|)| ==> OrderedTo(h, |h|)[k] < |h|
  {
  }

  lemma PrunedMeans(g: Reg, now: real)
    ensures Pruned(g, now) == Repaired(Reg(Buried(g.history, now), g.next, g.pointer), now)
  {
  }

  lemma Beyond(h: seq<Row>, retained: seq<nat>, removed: set<nat>, now: real)
    requires Generations(h) && retained == OrderedTo(h, |h|)
    requires var alive := Alive(h, retained, now);
             forall x :: x in removed <==> exists k :: MAX_RETAINED <= k < |alive| && alive[k] == x
    ensures Condemned(h, now, retained, removed)
  {
    OrderedIs(h, |h|);
    AliveOfIs(h, now);
    var alive, kept := AliveOf(h, now), Kept(h, now);
    assert kept == if |alive| <= MAX_RETAINED then alive else alive[..MAX_RETAINED];
    hide Kept, AliveOf, OrderedTo, Aged, Generations, Ranked, Live;
    forall k | k in retained ensures 0 <= k < |h| && (Aged(h[k], now) || k in removed <==> k !in kept) && Live(h[k]) {
      if !Aged(h[k], now) { Split(h, alive, k, removed); } else { assert k !in alive; }
    }
  }

  lemma Split(h: seq<Row>, alive: seq<nat>, i: nat, removed: set<nat>)
    requires Ranked(h, alive) && i in alive
    requires forall x :: x in removed <==> exists k :: MAX_RETAINED <= k < |alive| && alive[k] == x
    ensures i in removed <==> i !in (if |alive| <= MAX_RETAINED then alive else alive[..MAX_RETAINED])
  {
    var a :| 0 <= a < |alive| && alive[a] == i;
    OnlyOnce(h, alive, a);
    hide Ranked;
    var kept := if |alive| <= MAX_RETAINED then alive else alive[..MAX_RETAINED];
    assert a < MAX_RETAINED ==> a < |kept| && kept[a] == i;
  }

  lemma OnlyOnce(h: seq<Row>, s: seq<nat>, a: nat)
    requires Ranked(h, s) && a < |s|
    ensures forall b :: 0 <= b < |s| && s[b] == s[a] ==> b == a
  {
    forall b | 0 <= b < |s| && s[b] == s[a] ensures b == a {
      assert b < a ==> Before(h[s[b]], h[s[a]]);
      assert a < b ==> Before(h[s[a]], h[s[b]]);
    }
  }
}
