/** The checks computeCFG makes on the graph before it returns it (src/core/cfg.cpp). */
module CfgChecks {
  import opened Source
  import opened Lowering
  import opened ShapeBase

  function Idx(v: Visitor, b: nat): int {
    if b < |v.heap| then v.heap[b].idx else -1
  }

  /** No edge from a block with several successors to one with several predecessors. */
  predicate NoCriticalEdge(v: Visitor) {
    forall k: nat {:trigger v.blocks[k]} :: k < |v.blocks| ==> FansOut(v, v.blocks[k])
  }

  predicate FansOut(v: Visitor, b: nat) {
    |Succs(v, b)| >= 2 ==> forall j {:trigger Succs(v, b)[j]} :: 0 <= j < |Succs(v, b)| ==> |Preds(v, Succs(v, b)[j])| < 2
  }

  /** Every block but the first has a predecessor before it, and its first predecessor is one. */
  predicate Follows(v: Visitor) {
    forall k: nat {:trigger v.blocks[k]} :: 1 <= k < |v.blocks| ==>
      Preds(v, v.blocks[k]) != [] && Idx(v, Preds(v, v.blocks[k])[0]) < k
  }

  predicate ChecksPass(v: Visitor) {
    v.blocks != [] && Preds(v, v.blocks[0]) == [] && NoCriticalEdge(v) && Follows(v)
  }

  method CheckFan(v: Visitor, b: nat) returns (ok: bool)
    ensures ok <==> FansOut(v, b)
  {
    ok := true;
    var succs := Succs(v, b);
    if |succs| >= 2 {
      for j := 0 to |succs|
        invariant ok <==> forall m {:trigger succs[m]} :: 0 <= m < j ==> |Preds(v, succs[m])| < 2
      {
        if |Preds(v, succs[j])| >= 2 { ok := false; }
      }
    }
  }

  method CheckFollows(v: Visitor, k: nat) returns (ok: bool)
    requires k < |v.blocks|
    ensures ok <==> Preds(v, v.blocks[k]) != [] && Idx(v, Preds(v, v.blocks[k])[0]) < k
  {
    var preds := Preds(v, v.blocks[k]);
    var good := false;
    for j := 0 to |preds|
      invariant good <==> exists m {:trigger preds[m]} :: 0 <= m < j && Idx(v, preds[m]) < k
    {
      if Idx(v, preds[j]) < k { good := true; }
    }
    ok := good && Idx(v, preds[0]) < k;
  }

  /** True when no check would stop the program. */
  method RunChecks(v: Visitor) returns (ok: bool)
    requires v.blocks != []
    ensures ok <==> ChecksPass(v)
  {
    hide FansOut;
    ok := Preds(v, v.blocks[0]) == [];
    for i := 0 to |v.blocks|
      invariant ok <==> Preds(v, v.blocks[0]) == [] && forall k: nat {:trigger v.blocks[k]} :: k < i ==> FansOut(v, v.blocks[k])
    {
      var fan := CheckFan(v, v.blocks[i]);
      ok := ok && fan;
    }
    for i := 1 to |v.blocks|
      invariant ok <==>
        && Preds(v, v.blocks[0]) == [] && NoCriticalEdge(v)
        && forall k: nat {:trigger v.blocks[k]} :: 1 <= k < i ==> Preds(v, v.blocks[k]) != [] && Idx(v, Preds(v, v.blocks[k])[0]) < k
    {
      var follows := CheckFollows(v, i);
      ok := ok && follows;
    }
  }
}
