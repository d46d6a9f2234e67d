/** The device's JSON object: a dictionary from short metric keys ("V1",
    "Wh", "OUT", ...) to numbers, in the order the keys were inserted. */
module Snapshot {
  import opened Values

  /** One key/value pair of the object. */
  type Entry = (string, int)

  predicate DistinctKeys(s: seq<Entry>) {
    forall i, j :: 0 <= i < j < |s| ==> s[i].0 != s[j].0
  }

  /** A dictionary kept as its items in insertion order; no key occurs twice. */
  type Snapshot = s: seq<Entry> | DistinctKeys(s) witness []

  function Keys(s: seq<Entry>): set<string> {
    set i | 0 <= i < |s| :: s[i].0
  }

  /** The keys of `[e] + t` are the key of `e` and the keys of `t`. */
  lemma KeysCons(e: Entry, t: seq<Entry>)
    ensures Keys([e] + t) == {e.0} + Keys(t)
  {
    var c := [e] + t;
    forall x | x in Keys(c) ensures x in {e.0} + Keys(t) {
      var i :| 0 <= i < |c| && c[i].0 == x;
      if i > 0 { assert t[i - 1].0 == x; }
    }
    forall x | x in Keys(t) ensures x in Keys(c) {
      var i :| 0 <= i < |t| && t[i].0 == x;
      assert c[i + 1].0 == x;
    }
    assert c[0].0 == e.0;
  }

  function Elems(ks: seq<string>): set<string> {
    set i | 0 <= i < |ks| :: ks[i]
  }

  lemma ElemsCons(k: string, t: seq<string>)
    ensures Elems([k] + t) == {k} + Elems(t)
  {
    var c := [k] + t;
    forall x | x in Elems(c) ensures x in {k} + Elems(t) {
      var i :| 0 <= i < |c| && c[i] == x;
      if i > 0 { assert t[i - 1] == x; }
    }
    forall x | x in Elems(t) ensures x in Elems(c) {
      var i :| 0 <= i < |t| && t[i] == x;
      assert c[i + 1] == x;
    }
    assert c[0] == k;
  }

  predicate Distinct(ks: seq<string>) {
    forall i, j :: 0 <= i < j < |ks| ==> ks[i] != ks[j]
  }

  /** `d.get(k)`: the value stored under `k`, or `None` when `k` is absent. */
  function Get(s: Snapshot, k: string): (r: Option<int>)
    ensures r.None? <==> k !in Keys(s)
    ensures forall i :: 0 <= i < |s| && s[i].0 == k ==> r == Some(s[i].1)
  {
    if |s| == 0 then None
    else if s[0].0 == k then Some(s[0].1)
    else
      var rest: Snapshot := s[1..];
      KeysCons(s[0], rest);
      assert s == [s[0]] + rest;
      Get(rest, k)
  }

  /** `d[k] = v` on a dictionary: an existing key keeps its position and
      takes the new value, a new key is appended at the end. */
  function Put(s: Snapshot, k: string, v: int): (r: Snapshot)
    ensures Keys(r) == Keys(s) + {k}
    ensures |r| == if k in Keys(s) then |s| else |s| + 1
    ensures forall i :: 0 <= i < |s| ==> r[i].0 == s[i].0
    ensures forall i :: 0 <= i < |s| && s[i].0 != k ==> r[i] == s[i]
    ensures forall i :: 0 <= i < |s| && s[i].0 == k ==> r[i] == (k, v)
    ensures k !in Keys(s) ==> r[|s|] == (k, v)
  {
    if |s| == 0 then
      KeysCons((k, v), []);
      [(k, v)] + []
    else
      var rest: Snapshot := s[1..];
      KeysCons(s[0], rest);
      assert s == [s[0]] + rest;
      if s[0].0 == k then
        KeysCons((k, v), rest);
        [(k, v)] + rest
      else
        var tail := Put(rest, k, v);
        KeysCons(s[0], tail);
        [s[0]] + tail
  }

  /** After `d[k] = v`, reading `k` gives `v` and every other key reads as before. */
  lemma PutThenGet(s: Snapshot, k: string, v: int, j: string)
    ensures Get(Put(s, k, v), j) == if j == k then Some(v) else Get(s, j)
  {
    var r := Put(s, k, v);
    if j == k {
      if k in Keys(s) {
        var i :| 0 <= i < |s| && s[i].0 == k;
        assert r[i] == (k, v);
      } else {
        assert r[|s|] == (k, v);
      }
    } else if j in Keys(s) {
      var i :| 0 <= i < |s| && s[i].0 == j;
      assert r[i] == s[i];
    }
  }

  /** Key `a` occurs in `s` before key `b`. */
  predicate Before(s: seq<Entry>, a: string, b: string) {
    exists p, q :: 0 <= p < q < |s| && s[p].0 == a && s[q].0 == b
  }

  /** The keys `ks` occur in `s` in the order they have in `ks`. */
  predicate InOrder(s: seq<Entry>, ks: seq<string>) {
    forall i, j :: 0 <= i < j < |ks| ==> Before(s, ks[i], ks[j])
  }

  /** An order of keys in `t` persists when an entry is put in front of it. */
  lemma InOrderCons(e: Entry, t: seq<Entry>, ks: seq<string>)
    requires InOrder(t, ks)
    ensures InOrder([e] + t, ks)
  {
    var c := [e] + t;
    forall i, j | 0 <= i < j < |ks| ensures Before(c, ks[i], ks[j]) {
      var p, q :| 0 <= p < q < |t| && t[p].0 == ks[i] && t[q].0 == ks[j];
      assert c[p + 1] == t[p] && c[q + 1] == t[q];
    }
  }

  /** The key of the front entry comes before every key of `t`. */
  lemma InOrderPrepend(e: Entry, t: seq<Entry>, ks: seq<string>)
    requires InOrder(t, ks)
    requires forall i :: 0 <= i < |ks| ==> ks[i] in Keys(t)
    ensures InOrder([e] + t, [e.0] + ks)
  {
    var c, r := [e] + t, [e.0] + ks;
    InOrderCons(e, t, ks);
    forall i, j | 0 <= i < j < |r| ensures Before(c, r[i], r[j]) {
      if i == 0 {
        var q :| 0 <= q < |t| && t[q].0 == ks[j - 1];
        assert c[0].0 == r[0] && c[q + 1].0 == r[j];
      } else {
        assert r[i] == ks[i - 1] && r[j] == ks[j - 1];
      }
    }
  }

  /** The keys of `s` that have an entry in `table`, in the order of `s`:
      the key test of `[... for ent in data if (d := TABLE.get(ent))]`. */
  function SelectKeys<D>(s: Snapshot, table: map<string, D>): (r: seq<string>)
    ensures Distinct(r)
    ensures Elems(r) == Keys(s) * table.Keys
    ensures forall i :: 0 <= i < |r| ==> r[i] in Keys(s) && r[i] in table
    ensures forall k :: k in Keys(s) && k in table ==> exists i :: 0 <= i < |r| && r[i] == k
    ensures |r| <= |s|
  {
    if |s| == 0 then []
    else
      var rest: Snapshot := s[1..];
      KeysCons(s[0], rest);
      assert s == [s[0]] + rest;
      var tail := SelectKeys(rest, table);
      if s[0].0 in table then
        ElemsCons(s[0].0, tail);
        [s[0].0] + tail
      else
        tail
  }

  /** The selected keys keep the order they have in the snapshot, the
      iteration order of the comprehension. */
  lemma {:induction false} SelectKeysInOrder<D>(s: Snapshot, table: map<string, D>)
    ensures InOrder(s, SelectKeys(s, table))
  {
    if |s| > 0 {
      var rest: Snapshot := s[1..];
      assert s == [s[0]] + rest;
      SelectKeysInOrder(rest, table);
      var tail := SelectKeys(rest, table);
      if s[0].0 in table {
        InOrderPrepend(s[0], rest, tail);
      } else {
        InOrderCons(s[0], rest, tail);
      }
    }
  }

  /** One entry per selected key: the number of entities built is the
      number of snapshot keys the table knows. */
  lemma SelectKeysCount<D>(s: Snapshot, table: map<string, D>)
    ensures |SelectKeys(s, table)| == |Keys(s) * table.Keys|
  {
    var r := SelectKeys(s, table);
    DistinctCard(r);
  }

  lemma {:induction false} DistinctCard(ks: seq<string>)
    requires Distinct(ks)
    ensures |Elems(ks)| == |ks|
  {
    if |ks| > 0 {
      var rest := ks[1..];
      DistinctCard(rest);
      assert ks == [ks[0]] + rest;
      ElemsCons(ks[0], rest);
      assert ks[0] !in Elems(rest);
    } else {
      assert Elems(ks) == {};
    }
  }
}
