/** The module-level `reset` helper (graphgallery/nn/models/torch_keras.py,
    lines 201-211) that `TorchKeras.reset_parameter` applies to the model:
    a one-level walk that calls `reset_parameters` on the direct children of
    a module, or on the module itself when it has no children.  The calls go
    into framework code, so the walk is modelled by the sequence of modules
    on which `reset_parameters` is called, in call order. */
module Reset {
  import opened Py

  /** A network module: whether it has a `reset_parameters` method, and its
      direct children (`nn.children()`). */
  datatype Module = Module(hasReset: bool, children: seq<Module>)

  /** The positions among `items` of those that have `reset_parameters`,
      in increasing order. */
  function ResettableAt(items: seq<Module>): (idx: seq<nat>)
    ensures forall k :: 0 <= k < |idx| ==> idx[k] < |items| && items[idx[k]].hasReset
    ensures forall k, l :: 0 <= k < l < |idx| ==> idx[k] < idx[l]
    ensures forall i :: 0 <= i < |items| && items[i].hasReset ==> i in idx
    decreases |items|
  {
    if items == [] then []
    else
      var n := |items| - 1;
      var prev := ResettableAt(items[..n]);
      assert forall k :: 0 <= k < |prev| ==> items[..n][prev[k]] == items[prev[k]];
      prev + (if items[n].hasReset then [n] else [])
  }

  /** `_reset` over `items` in order: the ones that have `reset_parameters`. */
  function Resettable(items: seq<Module>): (r: seq<Module>)
    ensures |r| <= |items|
    ensures forall x :: x in r ==> x in items && x.hasReset
    ensures forall i :: 0 <= i < |items| && items[i].hasReset ==> items[i] in r
    decreases |items|
  {
    if items == [] then []
    else
      var last := items[|items| - 1];
      Resettable(items[..|items| - 1]) + (if last.hasReset then [last] else [])
  }

  /** The calls follow the items' order, one per item that has
      `reset_parameters`: the k-th call is on the item at the k-th position
      `ResettableAt` lists. */
  lemma {:induction false} ResettableOrder(items: seq<Module>)
    ensures |Resettable(items)| == |ResettableAt(items)|
    ensures forall k :: 0 <= k < |Resettable(items)| ==> Resettable(items)[k] == items[ResettableAt(items)[k]]
    decreases |items|
  {
    if items != [] {
      var n := |items| - 1;
      ResettableOrder(items[..n]);
      var idx := ResettableAt(items[..n]);
      forall k | 0 <= k < |idx| ensures items[..n][idx[k]] == items[idx[k]] {
      }
    }
  }

  /** The modules `reset(nn)` calls `reset_parameters` on: nothing for
      `None`; for a module with children, those children that have the method;
      for a module without children, the module itself if it has it. */
  function ResetTargets(nn: Option<Module>): (r: seq<Module>)
    ensures nn.None? ==> r == []
    ensures forall x :: x in r ==> x.hasReset
    ensures nn.Some? && |nn.value.children| > 0 ==> r == Resettable(nn.value.children)
    ensures nn.Some? && nn.value.children == [] ==> r == if nn.value.hasReset then [nn.value] else []
  {
    match nn
    case None => []
    case Some(m) =>
      if |m.children| > 0 then Resettable(m.children)
      else
        assert [m][..0] == [];
        Resettable([m])
  }

  /** `reset(nn)`: the loop over the children, returning the modules reset. */
  method ResetModule(nn: Option<Module>) returns (calls: seq<Module>)
    ensures calls == ResetTargets(nn)
  {
    calls := [];
    if nn.Some? {
      var m := nn.value;
      if |m.children| > 0 {
        for i := 0 to |m.children|
          invariant calls == Resettable(m.children[..i])
        {
          if m.children[i].hasReset {
            calls := calls + [m.children[i]];
          }
          assert m.children[..i + 1][..i] == m.children[..i];
        }
        assert m.children[..|m.children|] == m.children;
      } else if m.hasReset {
        calls := [m];
      }
    }
  }

  /** A `None` module resets nothing. */
  lemma ResetNone()
    ensures ResetTargets(None) == []
  {
  }

  /** A module with children resets exactly those direct children that have
      `reset_parameters`, in their order and once per occurrence, and never
      itself. */
  lemma ResetParent(m: Module)
    requires |m.children| > 0
    ensures forall x :: x in ResetTargets(Some(m)) ==> x in m.children && x.hasReset
    ensures forall i :: 0 <= i < |m.children| && m.children[i].hasReset ==> m.children[i] in ResetTargets(Some(m))
    ensures |ResetTargets(Some(m))| == |ResettableAt(m.children)|
    ensures forall k :: 0 <= k < |ResetTargets(Some(m))| ==>
      ResetTargets(Some(m))[k] == m.children[ResettableAt(m.children)[k]]
    ensures m !in ResetTargets(Some(m))
  {
    ResettableOrder(m.children);
    forall x | x in ResetTargets(Some(m)) ensures x != m {
      assert x in m.children;
    }
  }

  /** A grandchild is reset only when it is also a direct child: the walk
      does not descend. */
  lemma ResetSkipsGrandchildren(m: Module, c: Module, g: Module)
    requires c in m.children && g in c.children && g !in m.children
    ensures g !in ResetTargets(Some(m))
  {
    ResetParent(m);
  }

  /** A module without children resets itself when it has the method. */
  lemma ResetLeaf(m: Module)
    requires m.children == []
    ensures ResetTargets(Some(m)) == if m.hasReset then [m] else []
  {
  }
}
