/** Shared value types and finite-set counting facts. */
module Common {

  /** Instants and durations, in nanoseconds. */
  type Time = int

  const SECOND: Time := 1_000_000_000

  datatype Option<+T> = None | Some(value: T)

  datatype Result<+T, +E> = Ok(value: T) | Err(error: E)

  /** What can go wrong with one command sent to Redis: it never arrives, or it
      takes effect and the reply is lost. */
  datatype Fault = NoFault | Dropped | Unacked

  datatype Reply<+T> = Answer(value: T) | Failed

  /** The numbers 0, ..., n-1. */
  function Below(n: nat): (s: set<int>)
    ensures |s| == n
    ensures forall i :: i in s <==> 0 <= i < n
  {
    if n == 0 then {} else Below(n - 1) + {n - 1}
  }

  /** A set is no larger than a set that contains it. */
  lemma {:induction false} SubsetSize<T>(a: set<T>, b: set<T>)
    requires a <= b
    ensures |a| <= |b|
    decreases |a|
  {
    if a != {} {
      var x :| x in a;
      SubsetSize(a - {x}, b - {x});
    }
  }

  /** Two sets whose elements are paired off by `f` and `g` have the same size. */
  lemma {:induction false} PairedSize<A(!new), B(!new)>(s: set<A>, t: set<B>, f: A -> B, g: B -> A)
    requires forall a :: a in s ==> f(a) in t && g(f(a)) == a
    requires forall b :: b in t ==> g(b) in s && f(g(b)) == b
    ensures |s| == |t|
    decreases |s|
  {
    if s == {} {
      assert t == {} by {
        if b :| b in t {
          assert g(b) in s;
        }
      }
    } else {
      var a :| a in s;
      PairedSize(s - {a}, t - {f(a)}, f, g);
    }
  }

  /** A map whose values are exactly `s`, and can be traced back to their keys, has as many keys. */
  lemma BijectionSize<K(!new), V(!new)>(m: map<K, V>, s: set<V>, back: V -> K)
    requires forall k :: k in m ==> m[k] in s && back(m[k]) == k
    requires forall v :: v in s ==> back(v) in m && m[back(v)] == v
    ensures |m| == |s|
  {
    if v: V :| v in s {
      PairedSize(m.Keys, s, k => if k in m then m[k] else v, back);
    } else {
      assert m.Keys == {};
    }
  }
}
