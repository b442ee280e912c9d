/**
 * The scope lists the collectors walk: every outer entry (a repository, or a
 * discovered (repository, workflow) pair) in order, crossed with every branch
 * in order. Nothing is deduplicated.
 */
module Scopes {

  /** One outer entry with every branch, in branch order. */
  function Row<O, S>(outer: O, branches: seq<string>, mk: (O, string) -> S): (row: seq<S>)
    ensures |row| == |branches|
    ensures forall j :: 0 <= j < |row| ==> row[j] == mk(outer, branches[j])
  {
    seq(|branches|, j requires 0 <= j < |branches| => mk(outer, branches[j]))
  }

  /** The nested `for outer { for branch { ... } }` order: outer entries outside, branches inside. */
  function Cross<O, S>(outers: seq<O>, branches: seq<string>, mk: (O, string) -> S): seq<S>
  {
    if outers == [] then [] else Row(outers[0], branches, mk) + Cross(outers[1..], branches, mk)
  }

  /**
   * The cross product has one scope per (outer, branch) pair, and the pair
   * (i, j) sits at position i * |branches| + j.
   */
  lemma {:induction false} CrossAt<O, S>(outers: seq<O>, branches: seq<string>, mk: (O, string) -> S, i: nat, j: nat)
    requires i < |outers| && j < |branches|
    ensures |Cross(outers, branches, mk)| == |outers| * |branches|
    ensures i * |branches| + j < |Cross(outers, branches, mk)|
    ensures Cross(outers, branches, mk)[i * |branches| + j] == mk(outers[i], branches[j])
  {
    var b := |branches|;
    var tail := outers[1..];
    if i == 0 {
      CrossLength(outers, branches, mk);
      assert i * b + j == j;
    } else {
      CrossAt(tail, branches, mk, i - 1, j);
      assert tail[i - 1] == outers[i];
      assert (i - 1) * b + j + b == i * b + j;
      assert |outers| * b == |tail| * b + b;
    }
  }

  lemma {:induction false} CrossLength<O, S>(outers: seq<O>, branches: seq<string>, mk: (O, string) -> S)
    ensures |Cross(outers, branches, mk)| == |outers| * |branches|
  {
    if outers != [] {
      CrossLength(outers[1..], branches, mk);
      assert |outers| * |branches| == |outers[1..]| * |branches| + |branches|;
    }
  }

  /** Unfolding the outer loop at entry i. */
  lemma CrossFrom<O, S>(outers: seq<O>, branches: seq<string>, mk: (O, string) -> S, i: nat)
    requires i < |outers|
    ensures Cross(outers[i..], branches, mk) == Row(outers[i], branches, mk) + Cross(outers[i + 1..], branches, mk)
  {
    assert outers[i..][1..] == outers[i + 1..];
  }

  /** Unfolding the inner loop at branch j. */
  lemma RowFrom<O, S>(outer: O, branches: seq<string>, mk: (O, string) -> S, j: nat)
    requires j < |branches|
    ensures Row(outer, branches[j..], mk) == [mk(outer, branches[j])] + Row(outer, branches[j + 1..], mk)
  {
  }
}
