/** Value types shared by every module, powers of two, and sums over finite sets. */
module Basics {

  datatype Option<+T> = None | Some(value: T)

  datatype Result<+T> = Ok(value: T) | Err(message: string)

  /** How a transaction's commit ends; one that reports an error may have happened all the same. */
  datatype CommitEnd = Committed | CommitLost | CommitInDoubt

  /** The value under a key, when there is one. */
  function Lookup<K, V>(m: map<K, V>, k: K): Option<V> {
    if k in m then Some(m[k]) else None
  }

  function Pow2(n: nat): (p: nat)
    ensures p >= 1
  {
    if n == 0 then 1 else 2 * Pow2(n - 1)
  }

  lemma {:induction false} Pow2Monotone(a: nat, b: nat)
    requires a <= b
    ensures Pow2(a) <= Pow2(b)
    decreases b - a
  {
    if a < b {
      Pow2Monotone(a, b - 1);
    }
  }

  /** The sum of f over a finite set, in whatever order its elements come. */
  ghost function Sum<K(!new)>(keys: set<K>, f: K -> nat): nat {
    if keys == {} then 0
    else
      var k :| k in keys;
      f(k) + Sum(keys - {k}, f)
  }

  lemma {:induction false} SumSplit<K(!new)>(keys: set<K>, f: K -> nat, k: K)
    requires k in keys
    ensures Sum(keys, f) == f(k) + Sum(keys - {k}, f)
    decreases |keys|
  {
    var first :| first in keys && Sum(keys, f) == f(first) + Sum(keys - {first}, f);
    if first != k {
      SumSplit(keys - {first}, f, k);
      SumSplit(keys - {k}, f, first);
      assert keys - {first} - {k} == keys - {k} - {first};
    }
  }

  lemma {:induction false} SumAgree<K(!new)>(keys: set<K>, f: K -> nat, g: K -> nat)
    requires forall k :: k in keys ==> f(k) == g(k)
    ensures Sum(keys, f) == Sum(keys, g)
    decreases |keys|
  {
    if keys != {} {
      var k :| k in keys;
      SumSplit(keys, f, k);
      SumSplit(keys, g, k);
      SumAgree(keys - {k}, f, g);
    }
  }

  lemma {:induction false} SumBound<K(!new)>(keys: set<K>, f: K -> nat, bound: nat)
    requires forall k :: k in keys ==> f(k) <= bound
    ensures Sum(keys, f) <= |keys| * bound
    decreases |keys|
  {
    if keys != {} {
      var k :| k in keys;
      SumSplit(keys, f, k);
      SumBound(keys - {k}, f, bound);
      Distribute(|keys - {k}|, bound);
      assert |keys| == |keys - {k}| + 1;
    }
  }

  lemma {:induction false} SumConstant<K(!new)>(keys: set<K>, f: K -> nat, value: nat)
    requires forall k :: k in keys ==> f(k) == value
    ensures Sum(keys, f) == |keys| * value
    decreases |keys|
  {
    if keys != {} {
      var k :| k in keys;
      SumSplit(keys, f, k);
      SumConstant(keys - {k}, f, value);
      Distribute(|keys - {k}|, value);
      assert |keys| == |keys - {k}| + 1;
    }
  }

  lemma Distribute(n: nat, factor: nat)
    ensures (n + 1) * factor == n * factor + factor
  {
  }

  lemma {:induction false} FactorMonotone(a: nat, b: nat, factor: nat)
    requires a <= b
    ensures a * factor <= b * factor
    decreases b - a
  {
    if a < b {
      FactorMonotone(a, b - 1, factor);
      Distribute(b - 1, factor);
    }
  }

  /** Changing f at one element changes the sum by that element's difference. */
  lemma SumUpdate<K(!new)>(keys: set<K>, f: K -> nat, g: K -> nat, k: K)
    requires k in keys
    requires forall other :: other in keys && other != k ==> f(other) == g(other)
    ensures Sum(keys, g) == Sum(keys, f) - f(k) + g(k)
  {
    SumSplit(keys, f, k);
    SumSplit(keys, g, k);
    SumAgree(keys - {k}, f, g);
  }

  /** A set mapped one to one into another is no larger. */
  lemma {:induction false} Injection<A(!new), B(!new)>(a: set<A>, b: set<B>, f: A -> B)
    requires forall x :: x in a ==> f(x) in b
    requires forall x, y :: x in a && y in a && f(x) == f(y) ==> x == y
    ensures |a| <= |b|
    decreases |a|
  {
    if x :| x in a {
      Injection(a - {x}, b - {f(x)}, f);
    }
  }

  /** A set of naturals whose images are distinct and lie in [1, limit) has fewer than limit members. */
  lemma {:induction false} Pigeonhole(s: set<nat>, image: nat -> nat, limit: nat)
    requires limit >= 1
    requires forall n :: n in s ==> 1 <= image(n) < limit
    requires forall m, n :: m in s && n in s && image(m) == image(n) ==> m == n
    ensures |s| <= limit - 1
    decreases limit
  {
    if limit == 1 {
      assert s == {};
    } else if top :| top in s && image(top) == limit - 1 {
      Pigeonhole(s - {top}, image, limit - 1);
    } else {
      Pigeonhole(s, image, limit - 1);
    }
  }
}
