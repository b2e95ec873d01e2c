/**
 * Counting keys into a dictionary, the `acc[k] = (acc[k] || 0) + 1` pattern
 * the analytics and chart components run over the contacts. The keys of
 * the dictionary are kept in the order they were first added, which is
 * `Seqs.Dedup` of the keys. A JavaScript object agrees with that order for
 * every key except canonical array indices such as "2", which it lists
 * first in ascending numeric order; the model does not make that
 * exception.
 */
module Tallies {
  import Seqs

  /** How often `k` occurs in `s`. */
  function Occurrences<K(==)>(s: seq<K>, k: K): (n: nat)
    ensures n <= |s|
  {
    if |s| == 0 then 0 else Occurrences(s[..|s| - 1], k) + (if s[|s| - 1] == k then 1 else 0)
  }

  /** `acc[k] = (acc[k] || 0) + 1`: count one more `k`. */
  function Bump<K(==)>(m: map<K, nat>, k: K): (r: map<K, nat>)
    ensures r.Keys == m.Keys + {k}
    ensures r[k] == (if k in m then m[k] else 0) + 1
    ensures forall j :: j in m && j != k ==> r[j] == m[j]
  {
    m[k := (if k in m then m[k] else 0) + 1]
  }

  /** The dictionary after counting each key of `s` in turn. */
  function Tally<K(==)>(s: seq<K>): map<K, nat> {
    if |s| == 0 then map[] else Bump(Tally(s[..|s| - 1]), s[|s| - 1])
  }

  /** Counting one more key bumps that key's count, starting from 0. */
  lemma TallySnoc<K>(s: seq<K>, k: K)
    ensures Tally(s + [k]) == Bump(Tally(s), k)
  {
    assert (s + [k])[..|s|] == s;
  }

  /** The dictionary holds exactly the keys that occur, each with the number of its occurrences. */
  lemma {:induction false} TallyCounts<K>(s: seq<K>)
    ensures forall k :: k in Tally(s) <==> k in s
    ensures forall k :: k in Tally(s) ==> Tally(s)[k] == Occurrences(s, k) > 0
    decreases |s|
  {
    if |s| > 0 {
      var init, last := s[..|s| - 1], s[|s| - 1];
      assert s == init + [last];
      TallyCounts(init);
      OccurrencesMeanMember(init, last);
    }
  }

  /** The sum of `m`'s values at the keys `ks`. */
  function SumOver<K(==)>(ks: seq<K>, m: map<K, nat>): nat
    requires forall k :: k in ks ==> k in m
  {
    if |ks| == 0 then 0 else SumOver(ks[..|ks| - 1], m) + m[ks[|ks| - 1]]
  }

  /** Changing the value at a key outside `ks` changes no sum over `ks`. */
  lemma {:induction false} SumOverIgnores<K>(ks: seq<K>, m: map<K, nat>, x: K, v: nat)
    requires forall k :: k in ks ==> k in m
    requires x !in ks
    ensures SumOver(ks, m[x := v]) == SumOver(ks, m)
    decreases |ks|
  {
    if |ks| > 0 {
      assert ks == ks[..|ks| - 1] + [ks[|ks| - 1]];
      SumOverIgnores(ks[..|ks| - 1], m, x, v);
    }
  }

  /** Adding one at a key that `ks` holds once adds one to the sum. */
  lemma {:induction false} SumOverBump<K>(ks: seq<K>, m: map<K, nat>, x: K)
    requires forall k :: k in ks ==> k in m
    requires x in ks && Seqs.Distinct(ks)
    ensures SumOver(ks, m[x := m[x] + 1]) == SumOver(ks, m) + 1
    decreases |ks|
  {
    var init, last := ks[..|ks| - 1], ks[|ks| - 1];
    assert ks == init + [last];
    if last == x {
      SumOverIgnores(init, m, x, m[x] + 1);
    } else {
      assert x in init;
      SumOverBump(init, m, x);
    }
  }

  /**
   * The counts add up to the number of keys counted: summing the
   * dictionary's values over its keys, in their order, gives `|s|`.
   */
  lemma {:induction false} TallySumsToLength<K>(s: seq<K>)
    ensures forall k :: k in Seqs.Dedup(s) ==> k in Tally(s)
    ensures SumOver(Seqs.Dedup(s), Tally(s)) == |s|
    decreases |s|
  {
    Seqs.DedupIsSet(s);
    TallyCounts(s);
    if |s| > 0 {
      var init, last := s[..|s| - 1], s[|s| - 1];
      TallySumsToLength(init);
      Seqs.DedupIsSet(init);
      TallyCounts(init);
      var d, m := Seqs.Dedup(init), Tally(init);
      if last in d {
        SumOverBump(d, m, last);
      } else {
        SumOverIgnores(d, m, last, 1);
        assert Seqs.Dedup(s) == d + [last];
        assert (d + [last])[..|d|] == d;
      }
    }
  }

  /** The keys counted more than once. */
  function Repeated<K>(m: map<K, nat>): set<K> {
    set k | k in m && m[k] > 1
  }

  /** A key is repeated in the tally exactly when it occurs at least twice. */
  lemma RepeatedKeys<K>(s: seq<K>, k: K)
    ensures k in Repeated(Tally(s)) <==> Occurrences(s, k) > 1
  {
    TallyCounts(s);
    if Occurrences(s, k) > 0 {
      OccurrencesMeanMember(s, k);
    }
  }

  /** A key that occurs is a member. */
  lemma {:induction false} OccurrencesMeanMember<K>(s: seq<K>, k: K)
    ensures Occurrences(s, k) > 0 <==> k in s
    decreases |s|
  {
    if |s| > 0 {
      assert s == s[..|s| - 1] + [s[|s| - 1]];
      OccurrencesMeanMember(s[..|s| - 1], k);
    }
  }
}
