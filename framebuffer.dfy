/** `OpenGLFramebuffer`: a framebuffer with one colour and one depth-stencil
    attachment sized by a specification it shares with its creator. The
    driver is not modelled: the handles it generates are parameters, and
    the deletions and allocations are recorded in a call log. */
module Framebuffers {

  /** `OpenGLFramebuffer.MAX_FRAMEBUFFER_SIZE`. */
  const MaxFramebufferSize: int := 8192

  /** `FramebufferSpecification`. */
  class FramebufferSpecification {
    var width: int
    var height: int
    var samples: int
    var swapChainTarget: bool

    constructor (width: int := 0, height: int := 0, samples: int := 1, swapChainTarget: bool := false)
      ensures this.width == width && this.height == height
      ensures this.samples == samples && this.swapChainTarget == swapChainTarget
    {
      this.width := width;
      this.height := height;
      this.samples := samples;
      this.swapChainTarget := swapChainTarget;
    }
  }

  datatype FramebufferCall =
    | Cleanup(framebuffer: nat, color: nat, depth: nat)
    | Allocate(framebuffer: nat, color: nat, depth: nat, width: int, height: int)

  /** The sizes `resize` goes on with: both non-zero and neither above the
      maximum. Negative sizes are not excluded. */
  predicate ResizeAccepted(width: int, height: int)
  {
    !(width == 0 || height == 0 || width > MaxFramebufferSize || height > MaxFramebufferSize)
  }

  /** A negative size passes the guard. */
  lemma NegativeSizesAccepted(width: int, height: int)
    requires width < 0 && height < 0
    ensures ResizeAccepted(width, height)
  {
  }

  /** The guard accepts exactly the non-zero sizes up to the maximum. */
  lemma ResizeAcceptedBounds(width: int, height: int)
    ensures ResizeAccepted(width, height)
            <==> width != 0 && height != 0 && width <= 8192 && height <= 8192
    ensures ResizeAccepted(8192, 8192) && !ResizeAccepted(8193, 1) && !ResizeAccepted(1, 0)
  {
  }

  /** The deletions `invalidate` makes: none while the framebuffer handle is
      still 0. */
  function Freed(framebuffer: nat, color: nat, depth: nat): seq<FramebufferCall>
  {
    if framebuffer != 0 then [Cleanup(framebuffer, color, depth)] else []
  }

  class OpenGLFramebuffer {
    /** `_sepcification`: the caller's object itself, not a copy. */
    const specification: FramebufferSpecification
    var rendererId: nat
    var colorAttachment: nat
    var depthAttachment: nat
    var calls: seq<FramebufferCall>

    /** The handles start at 0 and the first `invalidate` then runs, which
        frees nothing. */
    constructor (specification: FramebufferSpecification, framebuffer: nat, color: nat, depth: nat)
      ensures this.specification == specification
      ensures rendererId == framebuffer && colorAttachment == color && depthAttachment == depth
      ensures calls == [Allocate(framebuffer, color, depth, specification.width, specification.height)]
    {
      this.specification := specification;
      rendererId := 0;
      colorAttachment := 0;
      depthAttachment := 0;
      calls := [];
      new;
      Invalidate(framebuffer, color, depth);
    }

    /** `invalidate`: the old handles are freed only when the framebuffer
        handle is non-zero; then new ones, given by the driver, are
        allocated at the specification's size. */
    method Invalidate(framebuffer: nat, color: nat, depth: nat)
      modifies this`rendererId, this`colorAttachment, this`depthAttachment, this`calls
      ensures rendererId == framebuffer && colorAttachment == color && depthAttachment == depth
      ensures calls == old(calls) + Freed(old(rendererId), old(colorAttachment), old(depthAttachment))
                       + [Allocate(framebuffer, color, depth, specification.width, specification.height)]
    {
      if rendererId != 0 {
        calls := calls + [Cleanup(rendererId, colorAttachment, depthAttachment)];
      }
      rendererId := framebuffer;
      colorAttachment := color;
      depthAttachment := depth;
      calls := calls + [Allocate(framebuffer, color, depth, specification.width, specification.height)];
    }

    /** `resize(width, height)`: a rejected size changes nothing (only a
        message is printed); otherwise the shared specification takes the
        new size and the attachments are reallocated. */
    method Resize(width: int, height: int, framebuffer: nat, color: nat, depth: nat)
      modifies specification, this`rendererId, this`colorAttachment, this`depthAttachment, this`calls
      ensures !ResizeAccepted(width, height) ==>
                unchanged(specification) && unchanged(this)
      ensures ResizeAccepted(width, height) ==>
                specification.width == width && specification.height == height
                && specification.samples == old(specification.samples)
                && specification.swapChainTarget == old(specification.swapChainTarget)
                && rendererId == framebuffer && colorAttachment == color && depthAttachment == depth
                && calls == old(calls) + Freed(old(rendererId), old(colorAttachment), old(depthAttachment))
                            + [Allocate(framebuffer, color, depth, width, height)]
    {
      if width == 0 || height == 0 || width > MaxFramebufferSize || height > MaxFramebufferSize {
        return;
      }
      specification.width := width;
      specification.height := height;
      Invalidate(framebuffer, color, depth);
    }
  }

  /** The specification is shared: resizing the framebuffer resizes the
      creator's specification object. */
  method ResizeChangesCallersSpecification() returns (width: int, height: int)
    ensures width == 1280 && height == 720
  {
    var spec := new FramebufferSpecification(640, 480);
    var framebuffer := new OpenGLFramebuffer(spec, 1, 2, 3);
    framebuffer.Resize(1280, 720, 4, 5, 6);
    width := spec.width;
    height := spec.height;
  }

  /** A rejected resize leaves the previous size in place. */
  method OversizeIgnored() returns (width: int, height: int, calls: nat)
    ensures width == 640 && height == 480 && calls == 1
  {
    var spec := new FramebufferSpecification(640, 480);
    var framebuffer := new OpenGLFramebuffer(spec, 1, 2, 3);
    framebuffer.Resize(8193, 720, 4, 5, 6);
    width := spec.width;
    height := spec.height;
    calls := |framebuffer.calls|;
  }
}
