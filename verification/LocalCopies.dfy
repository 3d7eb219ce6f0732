/**
  The numbering of the copies that a filter has on one host.  Instances are given by their host and
  their distinguished name, in the order of the layout.
*/
module LocalCopies {

  type Key = (string, string)      // dcmpi_host and get_distinguished_name()

  /** How often a key occurs among the first n. */
  function Occurrences(keys: seq<Key>, n: nat, key: Key): nat
    requires n <= |keys|
  {
    if n == 0 then 0 else Occurrences(keys, n - 1, key) + if keys[n - 1] == key then 1 else 0
  }

  lemma {:induction false} OccurrencesMonotone(keys: seq<Key>, m: nat, n: nat, key: Key)
    requires m <= n <= |keys|
    ensures Occurrences(keys, m, key) <= Occurrences(keys, n, key)
    decreases n
  {
    if m < n {
      OccurrencesMonotone(keys, m, n - 1, key);
    }
  }

  /** `host_to_placed_filter_counts` after the first n instances. */
  ghost predicate Counted(keys: seq<Key>, n: nat, placed: map<Key, nat>)
    requires n <= |keys|
  {
    && (forall u :: 0 <= u < n ==> keys[u] in placed)
    && (forall key :: key in placed ==> placed[key] == Occurrences(keys, n, key))
    && (forall key :: key !in placed ==> Occurrences(keys, n, key) == 0)
  }

  lemma {:induction false} CountedMore(keys: seq<Key>, n: nat, placed: map<Key, nat>)
    requires n < |keys| && Counted(keys, n, placed)
    ensures var k := if keys[n] in placed then placed[keys[n]] else 0;
            k == Occurrences(keys, n, keys[n]) && Counted(keys, n + 1, placed[keys[n] := k + 1])
  {
  }

  method CountOne(keys: seq<Key>, u: nat, placed: map<Key, nat>) returns (count: nat, after: map<Key, nat>)
    requires u < |keys| && Counted(keys, u, placed)
    ensures count == Occurrences(keys, u, keys[u]) && Counted(keys, u + 1, after)
  {
    CountedMore(keys, u, placed);
    count := 0;
    if keys[u] in placed {
      count := placed[keys[u]];
    }
    after := placed[keys[u] := count + 1];
  }

  /** `local_copy_rank` of every instance. */
  method RankCopies(keys: seq<Key>) returns (ranks: seq<nat>, placed: map<Key, nat>)
    ensures |ranks| == |keys| && forall u :: 0 <= u < |keys| ==> ranks[u] == Occurrences(keys, u, keys[u])
    ensures Counted(keys, |keys|, placed)
  {
    ranks, placed := [], map[];
    var u := 0;
    while u < |keys|
      invariant 0 <= u <= |keys| && |ranks| == u && Counted(keys, u, placed)
      invariant forall k :: 0 <= k < u ==> ranks[k] == Occurrences(keys, k, keys[k])
    {
      var count;
      count, placed := CountOne(keys, u, placed);
      ranks, u := ranks + [count], u + 1;
    }
  }

  /** And `local_num_copies`. */
  method NumberCopies(keys: seq<Key>) returns (ranks: seq<nat>, counts: seq<nat>)
    ensures |ranks| == |counts| == |keys|
    ensures forall u :: 0 <= u < |keys| ==> ranks[u] == Occurrences(keys, u, keys[u])
    ensures forall u :: 0 <= u < |keys| ==> counts[u] == Occurrences(keys, |keys|, keys[u])
  {
    var placed;
    ranks, placed := RankCopies(keys);
    counts := [];
    var u := 0;
    while u < |keys|
      invariant 0 <= u <= |keys| && |counts| == u
      invariant forall k :: 0 <= k < u ==> counts[k] == Occurrences(keys, |keys|, keys[k])
    {
      counts := counts + [placed[keys[u]]];
      u := u + 1;
    }
  }

  lemma {:induction false} RankBelow(keys: seq<Key>, u: nat, n: nat)
    requires u < n <= |keys|
    ensures Occurrences(keys, u, keys[u]) < Occurrences(keys, n, keys[u])
  {
    OccurrencesMonotone(keys, u + 1, n, keys[u]);
  }

  /** The first n instances of one key have the numbers below their count, each. */
  lemma {:induction false} RankTaken(keys: seq<Key>, n: nat, key: Key, r: nat) returns (u: nat)
    requires n <= |keys| && r < Occurrences(keys, n, key)
    ensures u < n && keys[u] == key && Occurrences(keys, u, key) == r
    decreases n
  {
    if keys[n - 1] == key && r == Occurrences(keys, n - 1, key) {
      u := n - 1;
    } else {
      u := RankTaken(keys, n - 1, key, r);
    }
  }

  /** The v-th instance has this key, and the number r among those with it. */
  predicate Numbered(keys: seq<Key>, key: Key, r: nat, v: nat) {
    v < |keys| && keys[v] == key && Occurrences(keys, v, key) == r
  }

  ghost predicate IsTaken(keys: seq<Key>, key: Key, r: nat) {
    exists v :: Numbered(keys, key, r, v)
  }

  /** The copies of one filter on one host are numbered 0 .. count - 1, each number once, in order. */
  lemma {:induction false} LocalRanksAreBijective(keys: seq<Key>, u: nat)
    requires u < |keys|
    ensures Occurrences(keys, u, keys[u]) < Occurrences(keys, |keys|, keys[u])
    ensures forall v :: u < v < |keys| && keys[v] == keys[u] ==>
              Occurrences(keys, u, keys[u]) < Occurrences(keys, v, keys[v])
    ensures forall r: nat :: r < Occurrences(keys, |keys|, keys[u]) ==> IsTaken(keys, keys[u], r)
  {
    RankBelow(keys, u, |keys|);
    forall v | u < v < |keys| && keys[v] == keys[u]
      ensures Occurrences(keys, u, keys[u]) < Occurrences(keys, v, keys[v])
    {
      RankBelow(keys, u, v);
    }
    forall r: nat | r < Occurrences(keys, |keys|, keys[u])
      ensures IsTaken(keys, keys[u], r)
    {
      var v := RankTaken(keys, |keys|, keys[u], r);
      assert Numbered(keys, keys[u], r, v);
    }
  }
}
