/**
 The deterministic exact-match evaluator: a nested greedy loop that computes a maximum matching of expectations and outputs.

 An item is its expected value, if it states one; a span is its output attribute, if it has one. Accuracy is an exact ratio.
 */
module ExactMatch {
  import opened Wrappers

  datatype Verdict = Passed | Failed

  datatype Evaluation = Evaluation(verdict: Verdict, accuracy: real, matched: nat, total: nat)

  function One(v: Option<string>): multiset<string> {
    if v.Some? then multiset{v.value} else multiset{}
  }

  /** The stated values, with their multiplicities. */
  function Values(s: seq<Option<string>>): multiset<string> {
    if s == [] then multiset{} else Values(s[..|s| - 1]) + One(s[|s| - 1])
  }

  /** The values at the positions in `used`. */
  function Used(s: seq<Option<string>>, used: set<nat>): multiset<string> {
    if s == [] then multiset{}
    else Used(s[..|s| - 1], used) + (if |s| - 1 in used then One(s[|s| - 1]) else multiset{})
  }

  /** For every value the smaller of how often it is expected and how often it is output. */
  function Best(items: seq<Option<string>>, spans: seq<Option<string>>): multiset<string> {
    Values(items) * Values(spans)
  }

  /** An assignment of spans to items: equal values, no span twice. */
  ghost predicate Matching(items: seq<Option<string>>, spans: seq<Option<string>>, m: map<nat, nat>) {
    && (forall i :: i in m ==> i < |items| && m[i] < |spans| && items[i].Some? && spans[m[i]] == items[i])
    && (forall i, j :: i in m && j in m && i != j ==> m[i] != m[j])
  }

  lemma {:induction false} UsedAdd(s: seq<Option<string>>, used: set<nat>, i: nat)
    requires i < |s| && i !in used
    ensures Used(s, used + {i}) == Used(s, used) + One(s[i])
    decreases |s|
  {
    hide One;
    var t := s[..|s| - 1];
    if i < |t| { UsedAdd(t, used, i); } else { UsedBeyond(t, used, i); }
  }

  lemma {:induction false} UsedBeyond(s: seq<Option<string>>, used: set<nat>, i: nat)
    requires i >= |s|
    ensures Used(s, used + {i}) == Used(s, used)
    decreases |s|
  {
    if s != [] { UsedBeyond(s[..|s| - 1], used, i); }
  }

  lemma {:induction false} UsedWithin(s: seq<Option<string>>, used: set<nat>)
    ensures Used(s, used) <= Values(s)
    decreases |s|
  {
    if s != [] { UsedWithin(s[..|s| - 1], used); }
  }

  /** When every occurrence of a value is used, none is left. */
  lemma {:induction false} UsedUp(s: seq<Option<string>>, used: set<nat>, v: string)
    requires forall i :: 0 <= i < |s| && s[i] == Some(v) ==> i in used
    ensures Used(s, used)[v] == Values(s)[v]
    decreases |s|
  {
    if s != [] { UsedUp(s[..|s| - 1], used, v); }
  }

  lemma {:induction false} NoneUsed(s: seq<Option<string>>)
    ensures Used(s, {}) == multiset{}
    decreases |s|
  {
    if s != [] { NoneUsed(s[..|s| - 1]); }
  }

  lemma ValuesNext(s: seq<Option<string>>, n: nat)
    requires n < |s|
    ensures Values(s[..n + 1]) == Values(s[..n]) + One(s[n])
  {
    assert s[..n + 1][..n] == s[..n];
  }

  // ---------------------------------------------------------------- the greedy loop

  /** What the greedy loop has consumed is the best possible for the items seen so far. */
  ghost predicate Greedy(items: seq<Option<string>>, n: nat, spans: seq<Option<string>>, m: map<nat, nat>) {
    n <= |items| && Matching(items, spans, m) && (forall i :: i in m ==> i < n) && Used(spans, m.Values) == Best(items[..n], spans)
  }

  lemma CommonAdd(a: multiset<string>, b: multiset<string>, v: string)
    ensures (a * b)[v] < b[v] ==> (a + multiset{v}) * b == a * b + multiset{v}
    ensures (a * b)[v] == b[v] ==> (a + multiset{v}) * b == a * b
  {
  }

  lemma AddedValue(m: map<nat, nat>, n: nat, k: nat)
    requires n !in m
    ensures m[n := k].Values == m.Values + {k} && |m[n := k]| == |m| + 1
  {
    var m' := m[n := k];
    forall x | x in m.Values ensures x in m'.Values {
      var i :| i in m && m[i] == x;
      assert m'[i] == x;
    }
    assert m'[n] == k;
  }

  lemma MatchingTakes(items: seq<Option<string>>, n: nat, spans: seq<Option<string>>, m: map<nat, nat>, k: nat)
    requires n < |items| && Matching(items, spans, m) && n !in m
    requires k < |spans| && k !in m.Values && items[n].Some? && spans[k] == items[n]
    ensures Matching(items, spans, m[n := k])
  {
  }

  lemma GreedyTakes(items: seq<Option<string>>, n: nat, spans: seq<Option<string>>, m: map<nat, nat>, k: nat)
    requires n < |items| && Greedy(items, n, spans, m)
    requires k < |spans| && k !in m.Values && items[n].Some? && spans[k] == items[n]
    ensures Greedy(items, n + 1, spans, m[n := k]) && n !in m
  {
    MatchingTakes(items, n, spans, m, k);
    hide Matching;
    var v := items[n].value;
    AddedValue(m, n, k);
    UsedAdd(spans, m.Values, k);
    UsedWithin(spans, m.Values + {k});
    ValuesNext(items, n);
    hide Used, Values;
    CommonAdd(Values(items[..n]), Values(spans), v);
  }

  lemma GreedySkips(items: seq<Option<string>>, n: nat, spans: seq<Option<string>>, m: map<nat, nat>)
    requires n < |items| && Greedy(items, n, spans, m)
    requires items[n].Some? ==> forall k :: 0 <= k < |spans| && spans[k] == items[n] ==> k in m.Values
    ensures Greedy(items, n + 1, spans, m)
  {
    hide Matching;
    ValuesNext(items, n);
    if items[n].Some? {
      UsedUp(spans, m.Values, items[n].value);
      hide Used, Values;
      CommonAdd(Values(items[..n]), Values(spans), items[n].value);
    } else {
      assert One(items[n]) == multiset{};
    }
  }

  /** The first unconsumed span with the value. */
  method FindSpan(spans: seq<Option<string>>, expected: string, consumed: set<nat>) returns (index: nat)
    ensures index <= |spans|
    ensures index < |spans| ==> index !in consumed && spans[index] == Some(expected)
    ensures forall k :: 0 <= k < index ==> k in consumed || spans[k] != Some(expected)
  {
    index := 0;
    while index < |spans|
      invariant index <= |spans|
      invariant forall k :: 0 <= k < index ==> k in consumed || spans[k] != Some(expected)
    {
      if index !in consumed && spans[index] == Some(expected) { return; }
      index := index + 1;
    }
  }

  lemma GreedyStart(items: seq<Option<string>>, spans: seq<Option<string>>)
    ensures Greedy(items, 0, spans, map[])
    ensures items == [] || spans == [] ==> |Best(items, spans)| == 0
    ensures Matching(items, spans, map[]) && Accuracy(0, |items|) == 0.0
  {
    NoneUsed(spans);
    var none: map<nat, nat> := map[];
    assert items[..0] == [] && none.Values == {};
  }

  /** The evaluation: the greedy count is the best possible, the verdict says whether every item is matched, and the assignment
      uses no span twice. */
  method Evaluate(items: seq<Option<string>>, spans: seq<Option<string>>) returns (e: Evaluation, ghost m: map<nat, nat>)
    ensures e.matched == |Best(items, spans)| == |m| && Matching(items, spans, m)
    ensures e.total == |items| && e.accuracy == Accuracy(e.matched, |items|)
    ensures e.verdict.Passed? <==>
              items != [] && spans != [] && (forall i :: 0 <= i < |items| ==> items[i].Some?) && Values(items) <= Values(spans)
  {
    hide *;
    m := map[];
    GreedyStart(items, spans);
    if items == [] || spans == [] {
      return Evaluation(Failed, 0.0, 0, |items|), m;
    }
    var matched, consumed := 0, {};
    var n := 0;
    while n < |items|
      invariant n <= |items| && Greedy(items, n, spans, m)
      invariant consumed == m.Values && matched == |m|
    {
      if items[n].Some? {
        var index := FindSpan(spans, items[n].value, consumed);
        if index < |spans| {
          GreedyTakes(items, n, spans, m, index);
          AddedValue(m, n, index);
          m := m[n := index];
          consumed := consumed + {index};
          matched := matched + 1;
        } else {
          GreedySkips(items, n, spans, m);
        }
      } else {
        GreedySkips(items, n, spans, m);
      }
      n := n + 1;
    }
    MatchedSize(items, spans, m);
    Complete(items, spans, matched);
    var accuracy := Accuracy(matched, |items|);
    e := Evaluation(if accuracy >= 1.0 then Passed else Failed, accuracy, matched, |items|);
  }

  function Accuracy(matched: nat, total: nat): real {
    matched as real / (if total > 1 then total else 1) as real
  }

  // ---------------------------------------------------------------- optimality

  lemma RemovedKey(m: map<nat, nat>, n: nat)
    requires n in m && forall i, j :: i in m && j in m && i != j ==> m[i] != m[j]
    ensures |m - {n}| == |m| - 1 && (m - {n}).Values + {m[n]} == m.Values && m[n] !in (m - {n}).Values
    ensures (m - {n}).Keys + {n} == m.Keys
  {
    var r := m - {n};
    assert r[n := m[n]] == m;
    AddedValue(r, n, m[n]);
  }

  /** A matching takes the same values from both sides, one per pair. */
  lemma {:induction false} MatchingValues(items: seq<Option<string>>, spans: seq<Option<string>>, m: map<nat, nat>)
    requires Matching(items, spans, m)
    ensures Used(items, m.Keys) == Used(spans, m.Values) && |Used(items, m.Keys)| == |m|
    decreases |m|
  {
    if m.Keys == {} {
      assert m.Values == {} && m == map[];
      NoneUsed(items);
      NoneUsed(spans);
    } else {
      var n :| n in m.Keys;
      var r := m - {n};
      RemovedKey(m, n);
      MatchingValues(items, spans, r);
      UsedAdd(items, r.Keys, n);
      UsedAdd(spans, r.Values, m[n]);
      hide Used;
    }
  }

  lemma MatchedSize(items: seq<Option<string>>, spans: seq<Option<string>>, m: map<nat, nat>)
    requires Greedy(items, |items|, spans, m)
    ensures |m| == |Best(items, spans)| && Matching(items, spans, m)
  {
    assert items[..|items|] == items;
    MatchingValues(items, spans, m);
  }

  lemma SubSize(a: multiset<string>, b: multiset<string>)
    requires a <= b
    ensures |a| <= |b|
    ensures |a| == |b| ==> a == b
  {
    assert b == a + (b - a);
  }

  /** No assignment of spans to items matches more than the greedy loop. */
  lemma GreedyIsOptimal(items: seq<Option<string>>, spans: seq<Option<string>>, m: map<nat, nat>)
    requires Matching(items, spans, m)
    ensures |m| <= |Best(items, spans)|
  {
    MatchingValues(items, spans, m);
    UsedWithin(items, m.Keys);
    UsedWithin(spans, m.Values);
    SubSize(Used(items, m.Keys), Best(items, spans));
  }

  lemma {:induction false} HowMany(s: seq<Option<string>>)
    ensures |Values(s)| <= |s|
    ensures |Values(s)| == |s| <==> forall i :: 0 <= i < |s| ==> s[i].Some?
    decreases |s|
  {
    if s != [] {
      var t, x := s[..|s| - 1], s[|s| - 1];
      HowMany(t);
      assert s == t + [x];
      assert (forall i :: 0 <= i < |s| ==> s[i].Some?) <==> (forall i :: 0 <= i < |t| ==> t[i].Some?) && x.Some?;
    }
  }

  lemma Ratio(m: nat, n: nat)
    requires m <= n && n > 0
    ensures Accuracy(m, n) >= 1.0 <==> m == n
  {
    if m < n { assert m as real / n as real < 1.0; }
  }

  lemma Complete(items: seq<Option<string>>, spans: seq<Option<string>>, matched: nat)
    requires matched == |Best(items, spans)| && items != []
    ensures Accuracy(matched, |items|) >= 1.0 <==>
              (forall i :: 0 <= i < |items| ==> items[i].Some?) && Values(items) <= Values(spans)
  {
    HowMany(items);
    assert Best(items, spans) <= Values(items);
    SubSize(Best(items, spans), Values(items));
    Ratio(matched, |items|);
    hide Values, Accuracy;
    assert Values(items) <= Values(spans) <==> Best(items, spans) == Values(items);
  }

  // ---------------------------------------------------------------- order is irrelevant

  lemma CountSnoc(t: seq<Option<string>>, x: Option<string>, v: string)
    ensures multiset(t + [x])[Some(v)] == multiset(t)[Some(v)] + One(x)[v]
  {
    assert multiset(t + [x]) == multiset(t) + multiset{x};
  }

  lemma {:induction false} CountOf(s: seq<Option<string>>, v: string)
    ensures Values(s)[v] == multiset(s)[Some(v)]
    decreases |s|
  {
    if s != [] {
      hide One;
      var t, x := s[..|s| - 1], s[|s| - 1];
      CountOf(t, v);
      assert s == t + [x];
      CountSnoc(t, x, v);
    }
  }

  lemma SameValues(s: seq<Option<string>>, t: seq<Option<string>>)
    requires multiset(s) == multiset(t)
    ensures Values(s) == Values(t)
  {
    hide Values;
    forall v ensures Values(s)[v] == Values(t)[v] {
      CountOf(s, v);
      CountOf(t, v);
    }
  }

  /** Only the values matter, not the order of items or spans. */
  lemma OrderIsIrrelevant(items: seq<Option<string>>, spans: seq<Option<string>>, items': seq<Option<string>>, spans': seq<Option<string>>)
    requires multiset(items) == multiset(items') && multiset(spans) == multiset(spans')
    ensures |Best(items, spans)| == |Best(items', spans')|
  {
    SameValues(items, items');
    SameValues(spans, spans');
  }
}
