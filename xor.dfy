/**
 * Zobrist hashing on 64-bit boards: a hash is the xor of the keys of what
 * it covers, and a key is xored in only when its condition holds. The laws
 * of `^` that folds of keys rely on are kept in this module, with nothing
 * else in scope, and stated on the named functions `Mix` and `Toggled` so
 * that their users reason by equality of terms alone.
 */
module Zobrist {

  /** `a ^ b`. */
  function Mix(a: bv64, b: bv64): bv64 {
    a ^ b
  }

  /** The hash with `key` xored in when `on` holds. */
  function Toggled(h: bv64, on: bool, key: bv64): bv64 {
    if on then Mix(h, key) else h
  }

  /** A key may move from one fold to another that is xored with it. */
  lemma MoveIn(a: bv64, b: bv64, on: bool, key: bv64)
    ensures Mix(a, Toggled(b, on, key)) == Mix(Toggled(a, on, key), b)
  {
    if on {
      assert a ^ (b ^ key) == (a ^ key) ^ b;
    }
  }

  lemma ZeroUnit(a: bv64)
    ensures Mix(a, 0) == a && Mix(0, a) == a
  {
  }
}
