/**
 * The order in which the reports walk the catalogue and the roster: an
 * ordered map visits its keys in ascending order.
 */
module Listing {

  /** Strictly ascending, hence also free of repetitions. */
  ghost predicate Ascending(ks: seq<int>) {
    forall i, j :: 0 <= i < j < |ks| ==> ks[i] < ks[j]
  }

  /** Every non-empty finite set of ids has a least element. */
  lemma {:induction false} LeastExists(keys: set<int>)
    requires keys != {}
    ensures exists m :: m in keys && forall k :: k in keys ==> m <= k
  {
    if forall k :: k !in keys {
      assert false;
    }
    var x :| x in keys;
    var rest := keys - {x};
    if rest == {} {
      assert forall k :: k in keys ==> x <= k by {
        forall k | k in keys ensures x <= k { assert k == x || k in rest; }
      }
    } else {
      LeastExists(rest);
      var m :| m in rest && forall k :: k in rest ==> m <= k;
      var least := if x < m then x else m;
      assert least in keys;
      assert forall k :: k in keys ==> least <= k by {
        forall k | k in keys ensures least <= k { if k != x { assert k in rest; } }
      }
    }
  }

  /** The keys in the order an ordered map visits them: each exactly once, ascending. */
  method KeysAscending(keys: set<int>) returns (ks: seq<int>)
    ensures Ascending(ks)
    ensures forall i :: 0 <= i < |ks| ==> ks[i] in keys
    ensures forall k :: k in keys ==> k in ks
  {
    var rest := keys;
    ks := [];
    while rest != {}
      invariant rest <= keys
      invariant Ascending(ks)
      invariant forall i :: 0 <= i < |ks| ==> ks[i] in keys && ks[i] !in rest
      invariant forall i, k :: 0 <= i < |ks| && k in rest ==> ks[i] < k
      invariant forall k :: k in keys ==> k in rest || k in ks
      decreases rest
    {
      LeastExists(rest);
      var m :| m in rest && forall k :: k in rest ==> m <= k;
      ks := ks + [m];
      rest := rest - {m};
    }
  }
}
