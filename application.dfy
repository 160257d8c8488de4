/** The event routing of `Application`: close and resize events go to the
    application's own handlers first, then the event is offered to the
    layers from the top of the stack down until one marks it handled. What
    a layer's `on_event` does is not part of this code; it is given as a
    function saying whether the layer marks the event handled. The
    renderer's resize entry point is external and is recorded as a log. */
module Applications {
  import opened Events
  import LS = LayerStacks

  /** The layers offered an event, in the order given, up to and including
      the first one that marks it handled. */
  function Offered(layers: seq<LS.Layer>, data: EventData, respond: (LS.Layer, EventData) -> bool)
    : seq<LS.Layer>
  {
    if |layers| == 0 then []
    else if respond(layers[0], data) then [layers[0]]
    else [layers[0]] + Offered(layers[1..], data, respond)
  }

  /** The offered layers are a prefix of the layers, and none of them but
      the last handled the event. */
  lemma {:induction false} OfferedIsPrefix(layers: seq<LS.Layer>, data: EventData,
                                           respond: (LS.Layer, EventData) -> bool)
    ensures var o := Offered(layers, data, respond);
            && |o| <= |layers| && o == layers[..|o|]
            && (forall k :: 0 <= k < |o| - 1 ==> !respond(o[k], data))
  {
    if |layers| > 0 && !respond(layers[0], data) {
      var tail := layers[1..];
      OfferedIsPrefix(tail, data, respond);
      var ot := Offered(tail, data, respond);
      assert Offered(layers, data, respond) == [layers[0]] + ot;
      assert layers[..|ot| + 1] == [layers[0]] + tail[..|ot|];
    }
  }

  /** Offering stops at the first layer that handles the event: the last
      layer offered handled it exactly when some layer would have. */
  lemma {:induction false} OfferedStopsAtFirstHandler(layers: seq<LS.Layer>, data: EventData,
                                                      respond: (LS.Layer, EventData) -> bool)
    ensures var o := Offered(layers, data, respond);
            (exists k :: 0 <= k < |layers| && respond(layers[k], data))
            <==> |o| > 0 && respond(o[|o| - 1], data)
  {
    if |layers| > 0 && !respond(layers[0], data) {
      var tail := layers[1..];
      OfferedStopsAtFirstHandler(tail, data, respond);
      var o := Offered(layers, data, respond);
      var ot := Offered(tail, data, respond);
      assert o == [layers[0]] + ot;
      assert (|o| > 0 && respond(o[|o| - 1], data)) == (|ot| > 0 && respond(ot[|ot| - 1], data));
      if exists k :: 0 <= k < |layers| && respond(layers[k], data) {
        var k :| 0 <= k < |layers| && respond(layers[k], data);
        assert tail[k - 1] == layers[k];
      }
      if exists k :: 0 <= k < |tail| && respond(tail[k], data) {
        var k :| 0 <= k < |tail| && respond(tail[k], data);
        assert layers[k + 1] == tail[k];
      }
    }
  }

  /** When no layer handles the event, every layer is offered it. */
  lemma {:induction false} OfferedAllWhenUnhandled(layers: seq<LS.Layer>, data: EventData,
                                                   respond: (LS.Layer, EventData) -> bool)
    requires forall k :: 0 <= k < |layers| ==> !respond(layers[k], data)
    ensures Offered(layers, data, respond) == layers
  {
    if |layers| > 0 {
      var tail := layers[1..];
      assert forall k :: 0 <= k < |tail| ==> tail[k] == layers[k + 1];
      OfferedAllWhenUnhandled(tail, data, respond);
      assert layers == [layers[0]] + tail;
    }
  }

  /** One step of offering: after the layers before `i`, layer `i` is
      offered next, and the layers after it only when it does not handle
      the event. */
  lemma OfferedStep(layers: seq<LS.Layer>, i: nat, data: EventData, respond: (LS.Layer, EventData) -> bool)
    requires i < |layers|
    ensures respond(layers[i], data) ==> layers[..i] + Offered(layers[i..], data, respond) == layers[..i + 1]
    ensures !respond(layers[i], data) ==>
              layers[..i] + Offered(layers[i..], data, respond)
              == layers[..i + 1] + Offered(layers[i + 1..], data, respond)
  {
    var rest := layers[i..];
    assert rest[0] == layers[i] && rest[1..] == layers[i + 1..];
    assert layers[..i + 1] == layers[..i] + [layers[i]];
  }

  /** The loop of `on_event` for an event not yet handled: each layer in
      turn is offered the event until one marks it handled. The result is
      the layers offered and the final flag. */
  method OfferInTurn(layers: seq<LS.Layer>, data: EventData, respond: (LS.Layer, EventData) -> bool)
    returns (offered: seq<LS.Layer>, handled: bool)
    ensures offered == Offered(layers, data, respond)
    ensures handled == (|offered| > 0 && respond(offered[|offered| - 1], data))
  {
    handled := false;
    var i := 0;
    while i < |layers| && !handled
      invariant 0 <= i <= |layers|
      invariant handled == (i > 0 && respond(layers[i - 1], data))
      invariant handled ==> Offered(layers, data, respond) == layers[..i]
      invariant !handled ==> Offered(layers, data, respond) == layers[..i] + Offered(layers[i..], data, respond)
    {
      OfferedStep(layers, i, data, respond);
      handled := respond(layers[i], data);
      i := i + 1;
    }
    offered := layers[..i];
    if !handled {
      assert layers[..i] + Offered(layers[i..], data, respond) == layers[..i];
    }
  }

  /** The `handled` flag the application's dispatches leave behind: the
      close handler answers true, the resize handler false, and any other
      event keeps its flag. */
  function HandledAfterDispatch(data: EventData, handled: bool): bool
  {
    if data.WindowCloseEvent? then true
    else if data.WindowResizeEvent? then false
    else handled
  }

  class Application {
    var running: bool
    var minimized: bool
    const layerStack: LS.LayerStack
    /** The `Renderer.on_window_resize(width, height)` calls, in order. */
    var rendererResizes: seq<(int, int)>

    /** The routing state the constructor sets up. */
    constructor (layerStack: LS.LayerStack)
      ensures running && !minimized && this.layerStack == layerStack && rendererResizes == []
    {
      running := true;
      minimized := false;
      this.layerStack := layerStack;
      rendererResizes := [];
    }

    /** `on_window_close`: stop running and mark the event handled. */
    method OnWindowClose() returns (handled: bool)
      modifies this`running
      ensures !running && handled
    {
      running := false;
      return true;
    }

    /** `on_window_resize`: a zero dimension minimizes and does not reach the
        renderer; otherwise the window is restored and the renderer resized.
        The event is never marked handled. */
    method OnWindowResize(width: int, height: int) returns (handled: bool)
      modifies this`minimized, this`rendererResizes
      ensures !handled
      ensures width == 0 || height == 0 ==> minimized && rendererResizes == old(rendererResizes)
      ensures width != 0 && height != 0 ==>
                !minimized && rendererResizes == old(rendererResizes) + [(width, height)]
    {
      if width == 0 || height == 0 {
        minimized := true;
        return false;
      }
      minimized := false;
      rendererResizes := rendererResizes + [(width, height)];
      return false;
    }

    /** The loop of `on_event`, on the event object: it is offered to
        nobody once handled. */
    method OfferToLayers(event: Event, layers: seq<LS.Layer>, respond: (LS.Layer, EventData) -> bool)
      returns (offered: seq<LS.Layer>)
      modifies event`handled
      ensures offered == (if old(event.handled) then [] else Offered(layers, event.data, respond))
      ensures event.handled == (old(event.handled) || (|offered| > 0 && respond(offered[|offered| - 1], event.data)))
    {
      if event.handled {
        return [];
      }
      var handled;
      offered, handled := OfferInTurn(layers, event.data, respond);
      event.handled := handled;
    }

    /** `on_event`. The two dispatches are written out, because their
        handlers change the application: on a type match the handler runs
        and its answer is stored in `handled`. Then the layers are offered the
        event from last to first, checking `handled` before each one. The
        result is the layers that were offered it. */
    method OnEvent(event: Event, respond: (LS.Layer, EventData) -> bool) returns (offered: seq<LS.Layer>)
      modifies this`running, this`minimized, this`rendererResizes, event`handled
      ensures var h := HandledAfterDispatch(event.data, old(event.handled));
              && offered == (if h then [] else Offered(LS.Reverse(layerStack.layers), event.data, respond))
              && event.handled == (h || (|offered| > 0 && respond(offered[|offered| - 1], event.data)))
      ensures event.data.WindowCloseEvent? ==> !running && event.handled && offered == []
      ensures !event.data.WindowCloseEvent? ==> running == old(running)
      ensures event.data.WindowResizeEvent? ==>
                var w, ht := event.data.width, event.data.height;
                if w == 0 || ht == 0 then minimized && rendererResizes == old(rendererResizes)
                else !minimized && rendererResizes == old(rendererResizes) + [(w, ht)]
      ensures !event.data.WindowResizeEvent? ==>
                minimized == old(minimized) && rendererResizes == old(rendererResizes)
    {
      if event.GetEventType() == WindowClose {
        event.handled := OnWindowClose();
      }
      if event.GetEventType() == WindowResize {
        event.handled := OnWindowResize(event.data.width, event.data.height);
      }
      offered := OfferToLayers(event, layerStack.Reversed(), respond);
    }
  }
}
