/** What the models share: an optional value, bytes, and facts about sequences and sums. */
module Common {

  datatype Option<+T> = None | Some(value: T)

  /** One octet of a file, of a captured stream or of a wire frame. */
  type Byte = x: int | 0 <= x < 256

  lemma AppendAssoc<T>(a: seq<T>, b: seq<T>, c: seq<T>)
    ensures a + (b + c) == a + b + c
  {
  }

  /** Appending nothing changes nothing. */
  lemma Alone<T>(s: seq<T>)
    ensures s + [] == [] + s == s
  {
  }

  /** The pieces of `parts` one after another. */
  function Concat<T>(parts: seq<seq<T>>): seq<T> {
    if parts == [] then [] else parts[0] + Concat(parts[1..])
  }

  lemma {:induction false} ConcatSnoc<T>(parts: seq<seq<T>>, last: seq<T>)
    ensures Concat(parts + [last]) == Concat(parts) + last
  {
    if parts == [] {
      assert Concat([last]) == last + Concat<T>([]);
    } else {
      ConcatSnoc(parts[1..], last);
      assert (parts + [last])[1..] == parts[1..] + [last];
    }
  }

  /** The sum of the values of a map. */
  ghost function Sum<K(!new)>(m: map<K, int>): int {
    if m == map[] then 0
    else
      var k :| k in m;
      m[k] + Sum(m - {k})
  }

  /** Any key may be taken out first. */
  lemma {:induction false} SumPick<K(!new)>(m: map<K, int>, k: K)
    requires k in m
    ensures Sum(m) == m[k] + Sum(m - {k})
    decreases |m|
  {
    var j :| j in m && Sum(m) == m[j] + Sum(m - {j});
    if j != k {
      SumPick(m - {j}, k);
      SumPick(m - {k}, j);
      assert m - {j} - {k} == m - {k} - {j};
    }
  }

  /** The picked amounts among the first `n`. */
  function PickedSum(amounts: seq<real>, picks: seq<bool>, n: nat): real
    requires n <= |amounts| == |picks|
  {
    if n == 0 then 0.0 else PickedSum(amounts, picks, n - 1) + if picks[n - 1] then amounts[n - 1] else 0.0
  }

  lemma {:induction false} PickedFrom(amounts: seq<real>, picks: seq<bool>, m: nat, n: nat)
    requires m <= n <= |amounts| == |picks| && forall i :: m <= i < n ==> !picks[i]
    ensures PickedSum(amounts, picks, n) == PickedSum(amounts, picks, m)
  {
    if m < n {
      PickedFrom(amounts, picks, m, n - 1);
    }
  }

  lemma {:induction false} PickedNone(amounts: seq<real>, picks: seq<bool>, n: nat)
    requires n <= |amounts| == |picks| && forall i :: 0 <= i < n ==> !picks[i]
    ensures PickedSum(amounts, picks, n) == 0.0
  {
    PickedFrom(amounts, picks, 0, n);
  }

  /** Sums over disjoint picks add up. */
  lemma {:induction false} PickedSplit(amounts: seq<real>, p: seq<bool>, q: seq<bool>, both: seq<bool>, n: nat)
    requires n <= |amounts| == |p| == |q| == |both|
    requires forall i :: 0 <= i < n ==> !(p[i] && q[i]) && (both[i] <==> p[i] || q[i])
    ensures PickedSum(amounts, both, n) == PickedSum(amounts, p, n) + PickedSum(amounts, q, n)
  {
    if n > 0 {
      PickedSplit(amounts, p, q, both, n - 1);
    }
  }
}
