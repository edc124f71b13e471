/**
 * Python's `defaultdict(int)` counters and `max` over dictionaries. A counter
 * fed a stream of keys holds, for each key seen, the number of times it was
 * seen, and remembers the order in which keys were first seen (a Python
 * dictionary iterates in insertion order, which decides ties in
 * `max(d, key=d.get)`).
 */
module Tally {
  import opened Wrappers

  /** Number of occurrences of `k` in `ids`. */
  function Occ(ids: seq<string>, k: string): (n: nat)
    ensures n <= |ids|
    ensures n > 0 <==> k in ids
  {
    if ids == [] then 0
    else
      assert ids == ids[..|ids| - 1] + [ids[|ids| - 1]];
      Occ(ids[..|ids| - 1], k) + (if ids[|ids| - 1] == k then 1 else 0)
  }

  /** The keys of `ids` in order of first appearance, each once. */
  function Distinct(ids: seq<string>): (d: seq<string>)
    ensures forall k :: k in d <==> k in ids
    ensures forall i, j :: 0 <= i < j < |d| ==> d[i] != d[j]
  {
    if ids == [] then []
    else
      assert ids == ids[..|ids| - 1] + [ids[|ids| - 1]];
      var p := Distinct(ids[..|ids| - 1]);
      if ids[|ids| - 1] in p then p else p + [ids[|ids| - 1]]
  }

  /** `keys`/`counts` is the dictionary a counter holds after being fed `ids`. */
  ghost predicate Tallies(keys: seq<string>, counts: map<string, nat>, ids: seq<string>) {
    && keys == Distinct(ids)
    && (forall k :: k in counts <==> k in ids)
    && (forall k :: k in counts ==> counts[k] == Occ(ids, k))
  }

  /** `d[k] += 1` on a `defaultdict(int)`. */
  function Bump(counts: map<string, nat>, k: string): map<string, nat> {
    counts[k := if k in counts then counts[k] + 1 else 1]
  }

  lemma BumpTallies(keys: seq<string>, counts: map<string, nat>, ids: seq<string>, k: string)
    requires Tallies(keys, counts, ids)
    ensures Tallies(if k in counts then keys else keys + [k], Bump(counts, k), ids + [k])
  {
    var counts' := Bump(counts, k);
    var ids' := ids + [k];
    assert (if k in counts then keys else keys + [k]) == Distinct(ids') by {
      DistinctSnoc(ids, k);
    }
    forall j
      ensures j in counts' <==> j in ids'
      ensures j in counts' ==> counts'[j] == Occ(ids', j)
    {
      OccSnoc(ids, k, j);
    }
  }

  lemma OccSnoc(ids: seq<string>, k: string, j: string)
    ensures Occ(ids + [k], j) == Occ(ids, j) + (if j == k then 1 else 0)
  {
    assert (ids + [k])[..|ids|] == ids;
  }

  lemma DistinctSnoc(ids: seq<string>, k: string)
    ensures Distinct(ids + [k]) == if k in ids then Distinct(ids) else Distinct(ids) + [k]
  {
    assert (ids + [k])[..|ids|] == ids;
  }

  lemma EmptyTallies()
    ensures Tallies([], map[], [])
  {
  }

  /** The count of `k`, 0 for a key never seen (`d.get(k, 0)`). */
  function Get(counts: map<string, nat>, k: string): nat {
    if k in counts then counts[k] else 0
  }

  // ---------------------------------------------------------------------
  // max over a sequence of keys

  /** `max(f(k) for k in ks)`, or 0 when `ks` is empty. */
  function MaxBy(ks: seq<string>, f: string -> nat): (m: nat)
    ensures forall k :: k in ks ==> f(k) <= m
    ensures ks != [] ==> exists k :: k in ks && f(k) == m
    ensures ks == [] ==> m == 0
  {
    if ks == [] then 0
    else
      assert ks == ks[..|ks| - 1] + [ks[|ks| - 1]];
      var m := MaxBy(ks[..|ks| - 1], f);
      if f(ks[|ks| - 1]) > m then f(ks[|ks| - 1]) else m
  }

  /** The first key in `ks` whose value is `m`. */
  function FirstWith(ks: seq<string>, f: string -> nat, m: nat): (r: Option<string>)
    ensures r.Some? <==> exists k :: k in ks && f(k) == m
    ensures r.Some? ==> exists i :: 0 <= i < |ks| && ks[i] == r.value && f(ks[i]) == m &&
                                    forall j :: 0 <= j < i ==> f(ks[j]) != m
  {
    if ks == [] then None
    else if f(ks[0]) == m then Some(ks[0])
    else
      var r := FirstWith(ks[1..], f, m);
      assert forall k :: k in ks ==> k == ks[0] || k in ks[1..];
      if r.Some? then
        assert exists i :: 0 <= i < |ks| && ks[i] == r.value && f(ks[i]) == m &&
                           forall j :: 0 <= j < i ==> f(ks[j]) != m by {
          var i :| 0 <= i < |ks[1..]| && ks[1..][i] == r.value && f(ks[1..][i]) == m &&
                   forall j :: 0 <= j < i ==> f(ks[1..][j]) != m;
          assert ks[i + 1] == r.value;
          forall j | 0 <= j < i + 1 ensures f(ks[j]) != m {
            if j > 0 { assert ks[j] == ks[1..][j - 1]; }
          }
        }
        r
      else r
  }

  /** `max(ks, key=f)`: the first key attaining the maximum; None for no keys. */
  function ArgMaxBy(ks: seq<string>, f: string -> nat): (r: Option<string>)
    ensures r.Some? <==> ks != []
    ensures r.Some? ==> r.value in ks && f(r.value) == MaxBy(ks, f)
    ensures r.Some? ==> exists i :: 0 <= i < |ks| && ks[i] == r.value && forall j :: 0 <= j < i ==> f(ks[j]) < f(r.value)
  {
    FirstWith(ks, f, MaxBy(ks, f))
  }

  /** Functions that agree on the keys give the same maximum. */
  lemma {:induction false} MaxByAgree(ks: seq<string>, f: string -> nat, g: string -> nat)
    requires forall k :: k in ks ==> f(k) == g(k)
    ensures MaxBy(ks, f) == MaxBy(ks, g)
  {
    if ks != [] {
      assert ks == ks[..|ks| - 1] + [ks[|ks| - 1]];
      MaxByAgree(ks[..|ks| - 1], f, g);
    }
  }

  lemma {:induction false} FirstWithAgree(ks: seq<string>, f: string -> nat, g: string -> nat, m: nat)
    requires forall k :: k in ks ==> f(k) == g(k)
    ensures FirstWith(ks, f, m) == FirstWith(ks, g, m)
  {
    if ks != [] {
      assert forall k :: k in ks[1..] ==> k in ks;
      FirstWithAgree(ks[1..], f, g, m);
    }
  }

  /** Functions that agree on the keys give the same arg-max. */
  lemma ArgMaxByAgree(ks: seq<string>, f: string -> nat, g: string -> nat)
    requires forall k :: k in ks ==> f(k) == g(k)
    ensures ArgMaxBy(ks, f) == ArgMaxBy(ks, g)
  {
    MaxByAgree(ks, f, g);
    FirstWithAgree(ks, f, g, MaxBy(ks, f));
  }
}
