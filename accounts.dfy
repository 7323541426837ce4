/**
 * Account identifiers, token amounts, and the total of a balance table.
 */
module Accounts {

  /** An account identifier. Only equality between identifiers matters;
      the 160-bit width of an EVM address is not modelled. */
  type Addr = nat

  /** The null identifier, address(0): it never holds tokens, and burns
      are logged as transfers to it. */
  const Zero: Addr := 0

  /** A token amount: an unbounded natural (a uint256 without its upper bound). */
  type Amount = nat

  /** The entry for k, or 0 when there is none: a Solidity mapping reads 0
      for every key never written. */
  function Get<K>(m: map<K, Amount>, k: K): Amount
  {
    if k in m then m[k] else 0
  }

  /** The sum of the entries of m over the keys in ks. */
  ghost function SumOver(m: map<Addr, Amount>, ks: set<Addr>): Amount
    decreases ks
  {
    if ks == {} then 0
    else
      var k :| k in ks;
      Get(m, k) + SumOver(m, ks - {k})
  }

  /** The sum of all the balances recorded in m. */
  ghost function Sum(m: map<Addr, Amount>): Amount
  {
    SumOver(m, m.Keys)
  }

  /** Any key of ks may be summed first. */
  lemma {:induction false} SumOverRemove(m: map<Addr, Amount>, ks: set<Addr>, k: Addr)
    requires k in ks
    ensures SumOver(m, ks) == Get(m, k) + SumOver(m, ks - {k})
    decreases ks
  {
    var j :| j in ks && SumOver(m, ks) == Get(m, j) + SumOver(m, ks - {j});
    if j != k {
      SumOverRemove(m, ks - {j}, k);
      SumOverRemove(m, ks - {k}, j);
      assert ks - {j} - {k} == ks - {k} - {j};
    }
  }

  /** The sum over ks depends only on the entries of the keys in ks. */
  lemma {:induction false} SumOverFrame(m1: map<Addr, Amount>, m2: map<Addr, Amount>, ks: set<Addr>)
    requires forall k :: k in ks ==> Get(m1, k) == Get(m2, k)
    ensures SumOver(m1, ks) == SumOver(m2, ks)
    decreases ks
  {
    if ks != {} {
      var k :| k in ks;
      SumOverRemove(m1, ks, k);
      SumOverRemove(m2, ks, k);
      SumOverFrame(m1, m2, ks - {k});
    }
  }

  /** Overwriting one entry changes the total by exactly the difference. */
  lemma SumUpdate(m: map<Addr, Amount>, k: Addr, v: Amount)
    ensures Sum(m[k := v]) + Get(m, k) == Sum(m) + v
  {
    var m' := m[k := v];
    SumOverRemove(m', m'.Keys, k);
    SumOverFrame(m', m, m'.Keys - {k});
    if k in m {
      SumOverRemove(m, m.Keys, k);
      assert m'.Keys - {k} == m.Keys - {k};
    } else {
      assert m'.Keys - {k} == m.Keys;
    }
  }

  /** No single entry exceeds the total. */
  lemma GetAtMostSum(m: map<Addr, Amount>, k: Addr)
    ensures Get(m, k) <= Sum(m)
  {
    if k in m {
      SumOverRemove(m, m.Keys, k);
    }
  }
}
