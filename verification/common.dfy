/** Vocabulary shared by the models: optional values, results, and the source's 64-bit saturating counters. */
module Common {

  datatype Option<+T> = None | Some(value: T)

  datatype Result<+T, +E> = Ok(value: T) | Err(error: E)

  /** Largest value of the source's `u64` counters, byte counts and millisecond clocks. */
  const MAX_U64: nat := 0xFFFF_FFFF_FFFF_FFFF

  function Min(a: int, b: int): int {
    if a <= b then a else b
  }

  /** `u64::saturating_add` on values already in range. */
  function SatAdd(a: nat, b: nat): nat {
    Min(a + b, MAX_U64)
  }

  /** `u64::saturating_sub`. */
  function SatSub(a: nat, b: nat): nat {
    if a <= b then 0 else a - b
  }

  /** `u64::saturating_mul`. */
  function SatMul(a: nat, b: nat): nat {
    Min(a * b, MAX_U64)
  }

  function Last<T>(s: seq<T>): T
    requires s != []
  {
    s[|s| - 1]
  }

  /** The newest `n` elements, as left behind by popping the front until at most `n` remain. */
  function KeepLast<T>(s: seq<T>, n: nat): seq<T> {
    if |s| <= n then s else s[|s| - n..]
  }

  function Get<K, V>(m: map<K, V>, k: K): Option<V> {
    if k in m then Some(m[k]) else None
  }

  /** The different elements of a sequence. */
  function Elements<T(==)>(s: seq<T>): set<T> {
    set x | x in s
  }

  lemma SubsetSize<T>(a: set<T>, b: set<T>)
    requires a <= b
    ensures |a| <= |b|
  {
    assert b == a + (b - a);
  }

  lemma SomeIdIsFree(used: set<nat>)
    ensures exists w: nat :: w !in used
  {
    if used == {} {
      assert 0 !in used;
    } else {
      var big := Largest(used);
      assert big + 1 !in used;
    }
  }

  lemma {:induction false} Largest(used: set<nat>) returns (big: nat)
    requires used != {}
    ensures forall w :: w in used ==> w <= big
    decreases |used|
  {
    var w :| w in used;
    var rest := used - {w};
    big := w;
    if rest != {} {
      var other := Largest(rest);
      big := if other > w then other else w;
    }
    assert used == rest + {w};
  }
}
