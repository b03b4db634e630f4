// Vocabulary shared by all modules: options, results, ASCII case folding, and
// sums over finite sets.
module Prelude {

  datatype Option<+T> = None | Some(value: T)

  datatype Result<+T, +E> = Ok(value: T) | Err(error: E)

  function Min(a: int, b: int): int { if a <= b then a else b }

  function Max(a: int, b: int): int { if a >= b then a else b }

  /** `toLowerCase` on the hexadecimal strings the program compares. */
  function Lower(s: string): string
  {
    seq(|s|, i requires 0 <= i < |s| => LowerChar(s[i]))
  }

  function LowerChar(c: char): char
  {
    if 'A' <= c <= 'Z' then ((c as int) + 32) as char else c
  }

  /** The sum of `f` over a finite set of keys. */
  ghost function SumOver<K>(keys: set<K>, f: map<K, nat>): nat
    requires keys <= f.Keys
  {
    if keys == {} then 0
    else
      var k :| k in keys;
      f[k] + SumOver(keys - {k}, f)
  }

  lemma {:induction false} SumOverRemove<K>(keys: set<K>, f: map<K, nat>, x: K)
    requires keys <= f.Keys && x in keys
    ensures SumOver(keys, f) == f[x] + SumOver(keys - {x}, f)
    decreases keys
  {
    var k :| k in keys && SumOver(keys, f) == f[k] + SumOver(keys - {k}, f);
    if k != x {
      SumOverRemove(keys - {k}, f, x);
      SumOverRemove(keys - {x}, f, k);
      assert keys - {k} - {x} == keys - {x} - {k};
    }
  }

  /** Adding one key adds its value. */
  lemma {:induction false} SumOverAdd<K>(keys: set<K>, f: map<K, nat>, x: K)
    requires keys <= f.Keys && x in f && x !in keys
    ensures SumOver(keys + {x}, f) == f[x] + SumOver(keys, f)
  {
    SumOverRemove(keys + {x}, f, x);
    assert keys + {x} - {x} == keys;
  }

  /** The sum depends only on the values at the keys. */
  lemma {:induction false} SumOverAgree<K>(keys: set<K>, f: map<K, nat>, g: map<K, nat>)
    requires keys <= f.Keys && keys <= g.Keys
    requires forall k | k in keys :: f[k] == g[k]
    ensures SumOver(keys, f) == SumOver(keys, g)
    decreases keys
  {
    if keys != {} {
      var k :| k in keys && SumOver(keys, f) == f[k] + SumOver(keys - {k}, f);
      SumOverAgree(keys - {k}, f, g);
      SumOverRemove(keys, g, k);
    }
  }

  /** If `inj` sends distinct keys to distinct targets of equal value, the keys
      sum to at most the targets. */
  lemma {:induction false} SumUnderInjection<A, B>(keys: set<A>, f: map<A, nat>, targets: set<B>, g: map<B, nat>,
                                                   inj: map<A, B>)
    requires keys <= f.Keys && targets <= g.Keys && keys <= inj.Keys
    requires forall a | a in keys :: inj[a] in targets && g[inj[a]] == f[a]
    requires forall a, b | a in keys && b in keys && inj[a] == inj[b] :: a == b
    ensures SumOver(keys, f) <= SumOver(targets, g)
    decreases keys
  {
    if keys != {} {
      var a :| a in keys && SumOver(keys, f) == f[a] + SumOver(keys - {a}, f);
      SumUnderInjection(keys - {a}, f, targets - {inj[a]}, g, inj);
      SumOverRemove(targets, g, inj[a]);
    }
  }
}
