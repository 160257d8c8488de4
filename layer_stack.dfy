/** `LayerStack`: one ordered list split by `layer_index` into layers
    (before the index) and overlays (from the index on). The hooks a layer
    offers (`on_attach`, `on_detach`, `destroy`) do nothing in the base
    class; the stack records each call it makes to them, in order. */
module LayerStacks {

  class Layer {
    const debugName: string

    /** `Layer(name="Layer")`. */
    constructor (name: string := "Layer")
      ensures debugName == name
    {
      debugName := name;
    }
  }

  /** A call the stack makes on one of its items. */
  datatype LayerCall = OnAttach(layer: Layer) | OnDetach(layer: Layer) | OnDestroy(layer: Layer)

  /** `list.insert(i, x)`: a negative index counts from the end, and an index
      outside the list is clamped to its nearest end. */
  function Insert<T>(s: seq<T>, i: int, x: T): (r: seq<T>)
    ensures |r| == |s| + 1
    ensures 0 <= i <= |s| ==> r[..i] == s[..i] && r[i] == x && r[i + 1..] == s[i..]
    ensures -|s| <= i < 0 ==> r[..|s| + i] == s[..|s| + i] && r[|s| + i] == x && r[|s| + i + 1..] == s[|s| + i..]
    ensures i > |s| ==> r == s + [x]
    ensures i < -|s| ==> r == [x] + s
  {
    var p := if i < 0 then (if i + |s| < 0 then 0 else i + |s|) else (if i > |s| then |s| else i);
    s[..p] + [x] + s[p..]
  }

  /** `del s[i]`: the items after `i` move down by one. */
  function RemoveAt<T>(s: seq<T>, i: nat): (r: seq<T>)
    requires i < |s|
    ensures |r| == |s| - 1
    ensures forall k :: 0 <= k < i ==> r[k] == s[k]
    ensures forall k :: i <= k < |r| ==> r[k] == s[k + 1]
  {
    s[..i] + s[i + 1..]
  }

  /** `list.index(x)`: the position of the first occurrence of `x`; `|s|`
      stands for the `ValueError` raised when there is none. */
  function IndexOf<T(==)>(s: seq<T>, x: T): (i: nat)
    ensures i <= |s|
    ensures i < |s| ==> s[i] == x
    ensures forall k :: 0 <= k < i ==> s[k] != x
  {
    if |s| == 0 then 0 else if s[0] == x then 0 else 1 + IndexOf(s[1..], x)
  }

  /** `s[::-1]`. */
  function Reverse<T>(s: seq<T>): (r: seq<T>)
    ensures |r| == |s|
    ensures forall k :: 0 <= k < |s| ==> r[k] == s[|s| - 1 - k]
  {
    if |s| == 0 then [] else [s[|s| - 1]] + Reverse(s[..|s| - 1])
  }

  /** Reversing twice gives the list back. */
  lemma ReverseReverse<T>(s: seq<T>)
    ensures Reverse(Reverse(s)) == s
  {
    assert forall k :: 0 <= k < |s| ==> Reverse(Reverse(s))[k] == s[k];
  }

  /** The calls `destroy` makes on the first `n` items. */
  function DestroyCalls(s: seq<Layer>, n: nat): seq<LayerCall>
    requires n <= |s|
  {
    if n == 0 then [] else DestroyCalls(s, n - 1) + [OnDetach(s[n - 1]), OnDestroy(s[n - 1])]
  }

  /** `destroy` detaches and then destroys every item, in list order. */
  lemma {:induction false} DestroyCallsShape(s: seq<Layer>, n: nat, k: nat)
    requires n <= |s| && k < n
    ensures |DestroyCalls(s, n)| == 2 * n
    ensures DestroyCalls(s, n)[2 * k] == OnDetach(s[k])
    ensures DestroyCalls(s, n)[2 * k + 1] == OnDestroy(s[k])
  {
    if k < n - 1 {
      DestroyCallsShape(s, n - 1, k);
    } else if n > 1 {
      DestroyCallsLength(s, n - 1);
    }
  }

  lemma {:induction false} DestroyCallsLength(s: seq<Layer>, n: nat)
    requires n <= |s|
    ensures |DestroyCalls(s, n)| == 2 * n
  {
    if n > 0 {
      DestroyCallsLength(s, n - 1);
    }
  }

  /** The split the stack intends: the index lies within the list. */
  predicate InBounds<T>(layers: seq<T>, layerIndex: int)
  {
    0 <= layerIndex <= |layers|
  }

  /** Within bounds, `push_layer` puts the new layer last among the layers,
      in front of every overlay, and the index moves past it. */
  lemma PushLayerInFront<T>(layers: seq<T>, layerIndex: int, x: T)
    requires InBounds(layers, layerIndex)
    ensures InBounds(Insert(layers, layerIndex, x), layerIndex + 1)
    ensures Insert(layers, layerIndex, x)[..layerIndex + 1] == layers[..layerIndex] + [x]
    ensures Insert(layers, layerIndex, x)[layerIndex + 1..] == layers[layerIndex..]
  {
    var r := Insert(layers, layerIndex, x);
    assert r[..layerIndex + 1] == r[..layerIndex] + [r[layerIndex]];
  }

  /** Within bounds, `push_overlay` keeps the layers and the index. */
  lemma PushOverlayKeepsLayers<T>(layers: seq<T>, layerIndex: int, x: T)
    requires InBounds(layers, layerIndex)
    ensures InBounds(layers + [x], layerIndex)
    ensures (layers + [x])[..layerIndex] == layers[..layerIndex]
  {
  }

  /** A removal `pop_overlay` accepts keeps the index within bounds. */
  lemma PopOverlayKeepsBounds<T>(layers: seq<T>, layerIndex: int, x: T)
    requires InBounds(layers, layerIndex)
    requires layerIndex <= IndexOf(layers, x) < |layers|
    ensures InBounds(RemoveAt(layers, IndexOf(layers, x)), layerIndex)
  {
  }

  /** A removal `pop_layer` accepts leaves the index out of bounds exactly
      when it removed the item at position 0 with the index at 0: the stack
      held no layers and the first overlay was taken as one. Any item at
      the index itself is an overlay. */
  lemma PopLayerBounds<T>(layers: seq<T>, layerIndex: int, x: T)
    requires InBounds(layers, layerIndex)
    requires IndexOf(layers, x) < |layers| && IndexOf(layers, x) <= layerIndex
    ensures !InBounds(RemoveAt(layers, IndexOf(layers, x)), layerIndex - 1)
            <==> IndexOf(layers, x) == 0 && layerIndex == 0
    ensures layerIndex - 1 >= -1
  {
  }

  /** With the guard `pop_layer` evidently intends (only items before the
      index are layers), a removal keeps the index within bounds and leaves
      the overlays as they were. */
  lemma PopLayerCorrectedKeepsBounds<T>(layers: seq<T>, layerIndex: int, x: T)
    requires InBounds(layers, layerIndex)
    requires IndexOf(layers, x) < layerIndex
    ensures InBounds(RemoveAt(layers, IndexOf(layers, x)), layerIndex - 1)
    ensures RemoveAt(layers, IndexOf(layers, x))[layerIndex - 1..] == layers[layerIndex..]
  {
    var r := RemoveAt(layers, IndexOf(layers, x));
    assert forall k :: layerIndex - 1 <= k < |r| ==> r[k] == layers[k + 1];
  }

  class LayerStack {
    var layers: seq<Layer>
    var layerIndex: int
    var calls: seq<LayerCall>

    constructor ()
      ensures layers == [] && layerIndex == 0 && calls == []
    {
      layers := [];
      layerIndex := 0;
      calls := [];
    }

    /** `reversed(stack)`: the items from last to first. Forward iteration
        is `layers` itself. */
    function Reversed(): (r: seq<Layer>)
      reads this
      ensures |r| == |layers|
      ensures forall k :: 0 <= k < |layers| ==> r[k] == layers[|layers| - 1 - k]
    {
      Reverse(layers)
    }

    /** `push_layer`: insert at the index (with `list.insert`'s handling of
        an index outside the list), move the index on, attach once. */
    method PushLayer(layer: Layer)
      modifies this
      ensures layers == Insert(old(layers), old(layerIndex), layer)
      ensures layerIndex == old(layerIndex) + 1
      ensures calls == old(calls) + [OnAttach(layer)]
    {
      layers := Insert(layers, layerIndex, layer);
      layerIndex := layerIndex + 1;
      calls := calls + [OnAttach(layer)];
    }

    /** `push_overlay`: append, keep the index, attach once. */
    method PushOverlay(overlay: Layer)
      modifies this
      ensures layers == old(layers) + [overlay]
      ensures layerIndex == old(layerIndex)
      ensures calls == old(calls) + [OnAttach(overlay)]
    {
      layers := layers + [overlay];
      calls := calls + [OnAttach(overlay)];
    }

    /** `pop_layer`: the first occurrence is removed only when it exists and
        lies at or before the index; then the index drops by one and the
        item is detached. Otherwise nothing changes. */
    method PopLayer(layer: Layer)
      modifies this
      ensures var i := IndexOf(old(layers), layer);
              if i == |old(layers)| || i > old(layerIndex) then
                layers == old(layers) && layerIndex == old(layerIndex) && calls == old(calls)
              else
                layers == RemoveAt(old(layers), i) && layerIndex == old(layerIndex) - 1
                && calls == old(calls) + [OnDetach(layer)]
    {
      var index := IndexOf(layers, layer);
      if index == |layers| || index > layerIndex {
        return;
      }
      layers := RemoveAt(layers, index);
      layerIndex := layerIndex - 1;
      calls := calls + [OnDetach(layer)];
    }

    /** `pop_layer` with the guard it evidently intends: an item at or after
        the index is an overlay and is left alone. */
    method PopLayerCorrected(layer: Layer)
      modifies this
      ensures var i := IndexOf(old(layers), layer);
              if i == |old(layers)| || i >= old(layerIndex) then
                layers == old(layers) && layerIndex == old(layerIndex) && calls == old(calls)
              else
                layers == RemoveAt(old(layers), i) && layerIndex == old(layerIndex) - 1
                && calls == old(calls) + [OnDetach(layer)]
      ensures InBounds(old(layers), old(layerIndex)) ==> InBounds(layers, layerIndex)
    {
      var index := IndexOf(layers, layer);
      if index == |layers| || index >= layerIndex {
        return;
      }
      if InBounds(layers, layerIndex) {
        PopLayerCorrectedKeepsBounds(layers, layerIndex, layer);
      }
      layers := RemoveAt(layers, index);
      layerIndex := layerIndex - 1;
      calls := calls + [OnDetach(layer)];
    }

    /** `pop_overlay`: the first occurrence is removed only when it exists and
        lies at or after the index; the index is kept. */
    method PopOverlay(overlay: Layer)
      modifies this
      ensures var i := IndexOf(old(layers), overlay);
              if i == |old(layers)| || i < old(layerIndex) then
                layers == old(layers) && layerIndex == old(layerIndex) && calls == old(calls)
              else
                layers == RemoveAt(old(layers), i) && layerIndex == old(layerIndex)
                && calls == old(calls) + [OnDetach(overlay)]
    {
      var index := IndexOf(layers, overlay);
      if index == |layers| || index < layerIndex {
        return;
      }
      layers := RemoveAt(layers, index);
      calls := calls + [OnDetach(overlay)];
    }

    /** `destroy`: detach then destroy each item in order; the list stays. */
    method Destroy()
      modifies this`calls
      ensures calls == old(calls) + DestroyCalls(layers, |layers|)
    {
      var i := 0;
      while i < |layers|
        invariant 0 <= i <= |layers|
        invariant calls == old(calls) + DestroyCalls(layers, i)
      {
        calls := calls + [OnDetach(layers[i]), OnDestroy(layers[i])];
        i := i + 1;
      }
    }
  }

  /** Popping the only overlay with `pop_layer` empties the stack and sets
      the index to -1. */
  method PopSoleOverlayAsLayer() returns (layerIndex: int, count: nat)
    ensures layerIndex == -1 && count == 0
  {
    var stack := new LayerStack();
    var overlay := new Layer();
    stack.PushOverlay(overlay);
    stack.PopLayer(overlay);
    layerIndex := stack.layerIndex;
    count := |stack.layers|;
  }

  /** With the corrected guard, the same request leaves the overlay in
      place and the index at 0. */
  method PopSoleOverlayCorrected() returns (layerIndex: int, count: nat)
    ensures layerIndex == 0 && count == 1
  {
    var stack := new LayerStack();
    var overlay := new Layer();
    stack.PushOverlay(overlay);
    stack.PopLayerCorrected(overlay);
    layerIndex := stack.layerIndex;
    count := |stack.layers|;
  }
}
