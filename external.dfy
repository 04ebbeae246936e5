/**
 * The window's collaborators, reduced to what the window relies on: the
 * shared viewport (only its options), the buffer handle, and a canvas that
 * records which node drew, in which order, with which options.
 */
module External {
  import opened Coord
  import opened Opt
  import opened Tree

  /** A non-owning handle to a text buffer, identified by the buffer it points to. */
  datatype BufferWk = BufferWk(bufferId: nat)

  /** The shared, lock-protected viewport; a write is a plain field update. */
  class Viewport {
    var options: ViewportOptions

    constructor (options: ViewportOptions)
      ensures this.options == options
    {
      this.options := options;
    }

    /** Takes the new options; the layout recomputation that follows is not modelled. */
    method SetOptions(options: ViewportOptions)
      modifies this
      ensures this.options == options
    {
      this.options := options;
    }
  }

  /** What one node's draw leaves on the canvas. */
  datatype DrawCall =
    | RootContainerDrawn(id: InodeId, actualShape: U16Rect)
    | ContentDrawn(id: InodeId, actualShape: U16Rect, buffer: BufferWk, options: ViewportOptions)
  {
    function Id(): InodeId {
      match this
      case RootContainerDrawn(id, _) => id
      case ContentDrawn(id, _, _, _) => id
    }
  }

  /** The draw target, as the sequence of draws it has received. */
  class Canvas {
    var log: seq<DrawCall>

    constructor ()
      ensures log == []
    {
      log := [];
    }

    method Record(call: DrawCall)
      modifies this
      ensures log == old(log) + [call]
    {
      log := log + [call];
    }
  }
}
