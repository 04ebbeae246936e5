/**
 * The window widget: a root container with one content child in an indexed
 * tree, a buffer handle, local options, and the viewport it shares with the
 * content node. The window keeps the viewport's options equal to the
 * projection of its own options.
 */
module Widget {
  import opened Coord
  import opened Tree
  import opened Opt
  import opened External

  /** The root container of a window's tree. */
  datatype WindowRootContainer = WindowRootContainer(base: InodeBase)
  {
    static function New(id: InodeId, shape: IRect, actualShape: U16Rect): WindowRootContainer {
      WindowRootContainer(InodeBase.New(id, shape, actualShape))
    }

    function Rendered(): DrawCall {
      RootContainerDrawn(base.id, base.actualShape)
    }

    method Draw(canvas: Canvas)
      modifies canvas
      ensures canvas.log == old(canvas.log) + [Rendered()]
    {
      canvas.Record(Rendered());
    }
  }

  /** The content node: it shows the buffer through the shared viewport. */
  datatype WindowContent = WindowContent(base: InodeBase, buffer: BufferWk, viewport: Viewport)
  {
    static function New(id: InodeId, shape: IRect, actualShape: U16Rect, buffer: BufferWk, viewport: Viewport): WindowContent {
      WindowContent(InodeBase.New(id, shape, actualShape), buffer, viewport)
    }

    /** The rows this node paints, laid out with viewport options `vp`. */
    function Rendered(vp: ViewportOptions): DrawCall {
      ContentDrawn(base.id, base.actualShape, buffer, vp)
    }

    /** Reads the viewport's current options (the read lock) and paints. */
    method Draw(canvas: Canvas)
      modifies canvas
      ensures canvas.log == old(canvas.log) + [Rendered(viewport.options)]
    {
      canvas.Record(Rendered(viewport.options));
    }
  }

  /** The node fields a setter can change. */
  datatype Field = DepthField | ZindexField | ShapeField | ActualShapeField | EnabledField | VisibleField

  /** A node of a window's tree: one of the two widget kinds. */
  datatype WindowNode = Root(root: WindowRootContainer) | Content(content: WindowContent)
  {
    function Base(): InodeBase {
      match this
      case Root(r) => r.base
      case Content(c) => c.base
    }

    /** The same widget with its shared fields replaced. */
    function WithBase(b: InodeBase): WindowNode {
      match this
      case Root(r) => Root(r.(base := b))
      case Content(c) => Content(c.(base := b))
    }

    // The node contract, answered by the wrapped widget.

    function Id(): (i: InodeId)
      ensures Root? ==> i == root.base.id
      ensures Content? ==> i == content.base.id
    {
      Base().id
    }

    function Depth(): (v: nat)
      ensures Root? ==> v == root.base.depth
      ensures Content? ==> v == content.base.depth
    {
      Base().depth
    }

    function Zindex(): (v: nat)
      ensures Root? ==> v == root.base.zindex
      ensures Content? ==> v == content.base.zindex
    {
      Base().zindex
    }

    function Shape(): (v: IRect)
      ensures Root? ==> v == root.base.shape
      ensures Content? ==> v == content.base.shape
    {
      Base().shape
    }

    function ActualShape(): (v: U16Rect)
      ensures Root? ==> v == root.base.actualShape
      ensures Content? ==> v == content.base.actualShape
    {
      Base().actualShape
    }

    function Enabled(): (v: bool)
      ensures Root? ==> v == root.base.enabled
      ensures Content? ==> v == content.base.enabled
    {
      Base().enabled
    }

    function Visible(): (v: bool)
      ensures Root? ==> v == root.base.visible
      ensures Content? ==> v == content.base.visible
    {
      Base().visible
    }

    function SetDepth(depth: nat): (r: WindowNode)
      ensures r.Depth() == depth && OnlyChanged(this, r, DepthField)
    {
      WithBase(Base().(depth := depth))
    }

    function SetZindex(zindex: nat): (r: WindowNode)
      ensures r.Zindex() == zindex && OnlyChanged(this, r, ZindexField)
    {
      WithBase(Base().(zindex := zindex))
    }

    function SetShape(shape: IRect): (r: WindowNode)
      ensures r.Shape() == shape && OnlyChanged(this, r, ShapeField)
    {
      WithBase(Base().(shape := shape))
    }

    function SetActualShape(actualShape: U16Rect): (r: WindowNode)
      ensures r.ActualShape() == actualShape && OnlyChanged(this, r, ActualShapeField)
    {
      WithBase(Base().(actualShape := actualShape))
    }

    function SetEnabled(enabled: bool): (r: WindowNode)
      ensures r.Enabled() == enabled && OnlyChanged(this, r, EnabledField)
    {
      WithBase(Base().(enabled := enabled))
    }

    function SetVisible(visible: bool): (r: WindowNode)
      ensures r.Visible() == visible && OnlyChanged(this, r, VisibleField)
    {
      WithBase(Base().(visible := visible))
    }

    /** What this node's draw records, with the content laid out by `vp`. */
    function Rendered(vp: ViewportOptions): (call: DrawCall)
      ensures call.Id() == Id()
      ensures call.ContentDrawn? <==> Content?
      ensures Content? ==> call.options == vp && call.buffer == content.buffer
      ensures call.actualShape == ActualShape()
    {
      match this
      case Root(r) => r.Rendered()
      case Content(c) => c.Rendered(vp)
    }

    method Draw(canvas: Canvas)
      modifies canvas
      ensures Root? ==> canvas.log == old(canvas.log) + [root.Rendered()]
      ensures Content? ==> canvas.log == old(canvas.log) + [content.Rendered(content.viewport.options)]
    {
      match this
      case Root(r) => r.Draw(canvas);
      case Content(c) => c.Draw(canvas);
    }
  }

  /**
   * `b` is `a` after a setter of field `f`: same kind, same id, every other
   * shared field and everything outside the shared fields unchanged.
   */
  predicate OnlyChanged(a: WindowNode, b: WindowNode, f: Field) {
    && (a.Root? <==> b.Root?)
    && a.Id() == b.Id()
    && (f != DepthField ==> a.Depth() == b.Depth())
    && (f != ZindexField ==> a.Zindex() == b.Zindex())
    && (f != ShapeField ==> a.Shape() == b.Shape())
    && (f != ActualShapeField ==> a.ActualShape() == b.ActualShape())
    && (f != EnabledField ==> a.Enabled() == b.Enabled())
    && (f != VisibleField ==> a.Visible() == b.Visible())
    && b.WithBase(a.Base()) == a
  }

  /** The draws of the nodes `ids`, in that order, the content laid out by `vp`. */
  function Renders(nodes: map<InodeId, WindowNode>, ids: seq<InodeId>, vp: ViewportOptions): seq<DrawCall>
    requires forall id :: id in ids ==> id in nodes
  {
    if ids == [] then []
    else
      var last := ids[|ids| - 1];
      assert last in ids;
      Renders(nodes, ids[..|ids| - 1], vp) + [nodes[last].Rendered(vp)]
  }

  /** The i-th draw is the draw of the i-th node visited. */
  lemma {:induction false} RendersFollowOrder(nodes: map<InodeId, WindowNode>, ids: seq<InodeId>, vp: ViewportOptions)
    requires forall id :: id in ids ==> id in nodes
    ensures |Renders(nodes, ids, vp)| == |ids|
    ensures forall i :: 0 <= i < |ids| ==> Renders(nodes, ids, vp)[i] == nodes[ids[i]].Rendered(vp)
  {
    if ids != [] {
      var init := ids[..|ids| - 1];
      assert forall id :: id in init ==> id in ids;
      RendersFollowOrder(nodes, init, vp);
    }
  }

  /** Every node is stored under its own id. */
  ghost predicate KeyedById(t: Itree<WindowNode>) {
    forall id :: id in t.nodes ==> t.nodes[id].Id() == id
  }

  /**
   * Drawing a tree in iteration order draws every node exactly once, the
   * root first and every parent before its children.
   */
  lemma DrawVisitsEachNodeOnce(t: Itree<WindowNode>, vp: ViewportOptions)
    requires t.Valid() && KeyedById(t)
    ensures forall id :: id in t.order ==> id in t.nodes
    ensures VisitsEachOnce(t, Renders(t.nodes, t.order, vp))
  {
    var log := Renders(t.nodes, t.order, vp);
    RendersFollowOrder(t.nodes, t.order, vp);
    assert forall i :: 0 <= i < |log| ==> log[i].Id() == t.order[i];
    LogInTreeOrder(t, log);
  }

  /** `log` draws each node of `t` once, the root first and every parent before its children. */
  ghost predicate VisitsEachOnce(t: Itree<WindowNode>, log: seq<DrawCall>) {
    && |log| == |t.order|
    && |log| > 0 && log[0].Id() == t.root
    && (forall id :: id in t.nodes ==> exists i :: 0 <= i < |log| && log[i].Id() == id)
    && (forall i :: 0 <= i < |log| ==> log[i].Id() in t.nodes)
    && (forall i, j :: 0 <= i < j < |log| ==> log[i].Id() != log[j].Id())
    && (forall i, j ::
          0 <= i < |log| && 0 <= j < |log| && log[j].Id() in t.parent && t.parent[log[j].Id()] == log[i].Id() ==> i < j)
  }

  /** A log whose ids follow the iteration order inherits the order's properties. */
  lemma LogInTreeOrder(t: Itree<WindowNode>, log: seq<DrawCall>)
    requires t.Valid()
    requires |log| == |t.order| && forall i :: 0 <= i < |log| ==> log[i].Id() == t.order[i]
    ensures VisitsEachOnce(t, log)
  {
  }

  /** The window: its tree, its buffer, its options and the viewport it shares. */
  class Window {
    var base: Itree<WindowNode>
    const contentId: InodeId
    const buffer: BufferWk
    var options: WindowLocalOptions
    const viewport: Viewport

    ghost function Repr(): set<object>
      reads this
    {
      {this, options, viewport}
    }

    /**
     * The tree holds the root container and, as its only child, the content
     * node, which shares this window's buffer and viewport; the viewport's
     * options are the projection of the window's options.
     */
    ghost predicate Valid()
      reads Repr()
    {
      && base.Valid()
      && base.root != contentId
      && base.nodes.Keys == {base.root, contentId}
      && base.order == [base.root, contentId]
      && base.parent == map[contentId := base.root]
      && KeyedById(base)
      && base.nodes[base.root].Root?
      && base.nodes[contentId].Content?
      && base.nodes[contentId].content.viewport == viewport
      && base.nodes[contentId].content.buffer == buffer
      && viewport.options == ViewportOptions.From(options)
    }

    /**
     * Builds the root container, a viewport from the options, and the
     * content node under the root. The node ids and the actual shape come
     * from the node constructors, which are outside this model.
     */
    constructor (shape: IRect, buffer: BufferWk, localOptions: WindowLocalOptions,
                 rootId: InodeId, contentId: InodeId, actualShape: U16Rect)
      requires rootId != contentId
      ensures Valid()
      ensures fresh(options) && fresh(viewport)
      ensures options.wrap == localOptions.wrap && options.lineBreak == localOptions.lineBreak
      ensures viewport.options.wrap == localOptions.wrap && viewport.options.lineBreak == localOptions.lineBreak
      ensures Id() == rootId && this.contentId == contentId && this.buffer == buffer
      ensures Shape() == shape && ContentNode().Shape() == shape
      ensures ActualShape() == actualShape && ContentNode().ActualShape() == actualShape
      ensures contentId in base.parent && base.parent[contentId] == rootId
    {
      var opts := localOptions.Clone();
      var rootNode := Root(WindowRootContainer.New(rootId, shape, actualShape));
      var viewportOptions := ViewportOptions(opts.wrap, opts.lineBreak);
      var vp := new Viewport(viewportOptions);
      var tree := Itree.New(rootId, rootNode);
      var contentNode := Content(WindowContent.New(contentId, shape, actualShape, buffer, vp));
      tree := tree.BoundedInsert(rootId, contentId, contentNode);
      this.base := tree;
      this.contentId := contentId;
      this.buffer := buffer;
      this.options := opts;
      this.viewport := vp;
    }

    function RootNode(): WindowNode
      requires Valid()
      reads Repr()
    {
      base.nodes[base.root]
    }

    function ContentNode(): WindowNode
      requires Valid()
      reads Repr()
    {
      base.nodes[contentId]
    }

    // The node contract, answered by the root node.

    /** The window is identified by its root node, not by its content node. */
    function Id(): (id: InodeId)
      requires Valid()
      reads Repr()
      ensures id == RootNode().Id() && id != contentId
    {
      base.root
    }

    /** The root container's depth; the content node is not consulted. */
    function Depth(): (v: nat)
      requires Valid()
      reads Repr()
      ensures v == RootNode().root.base.depth
    {
      RootNode().Depth()
    }

    /** The root container's zindex; the content node is not consulted. */
    function Zindex(): (v: nat)
      requires Valid()
      reads Repr()
      ensures v == RootNode().root.base.zindex
    {
      RootNode().Zindex()
    }

    /** The root container's shape; the content node is not consulted. */
    function Shape(): (v: IRect)
      requires Valid()
      reads Repr()
      ensures v == RootNode().root.base.shape
    {
      RootNode().Shape()
    }

    /** The root container's actualShape; the content node is not consulted. */
    function ActualShape(): (v: U16Rect)
      requires Valid()
      reads Repr()
      ensures v == RootNode().root.base.actualShape
    {
      RootNode().ActualShape()
    }

    /** The root container's enabled; the content node is not consulted. */
    function Enabled(): (v: bool)
      requires Valid()
      reads Repr()
      ensures v == RootNode().root.base.enabled
    {
      RootNode().Enabled()
    }

    /** The root container's visible; the content node is not consulted. */
    function Visible(): (v: bool)
      requires Valid()
      reads Repr()
      ensures v == RootNode().root.base.visible
    {
      RootNode().Visible()
    }

    /** The tree is `prev` with field `f` of the root node changed and nothing else. */
    ghost predicate RootOnlyChanged(prev: Itree<WindowNode>, f: Field)
      reads this
    {
      && base.root == prev.root
      && base.parent == prev.parent
      && base.order == prev.order
      && base.nodes.Keys == prev.nodes.Keys
      && base.root in base.nodes && contentId in base.nodes
      && base.nodes[contentId] == prev.nodes[contentId]
      && OnlyChanged(prev.nodes[prev.root], base.nodes[base.root], f)
    }

    method SetDepth(depth: nat)
      requires Valid()
      modifies this
      ensures Valid() && options == old(options)
      ensures Depth() == depth
      ensures RootOnlyChanged(old(base), DepthField)
    {
      base := base.UpdateNode(base.root, RootNode().SetDepth(depth));
    }

    method SetZindex(zindex: nat)
      requires Valid()
      modifies this
      ensures Valid() && options == old(options)
      ensures Zindex() == zindex
      ensures RootOnlyChanged(old(base), ZindexField)
    {
      base := base.UpdateNode(base.root, RootNode().SetZindex(zindex));
    }

    /** Only the root's logical shape changes: no child is re-clipped and the viewport is not resized. */
    method SetShape(shape: IRect)
      requires Valid()
      modifies this
      ensures Valid() && options == old(options)
      ensures Shape() == shape
      ensures RootOnlyChanged(old(base), ShapeField)
    {
      base := base.UpdateNode(base.root, RootNode().SetShape(shape));
    }

    method SetActualShape(actualShape: U16Rect)
      requires Valid()
      modifies this
      ensures Valid() && options == old(options)
      ensures ActualShape() == actualShape
      ensures RootOnlyChanged(old(base), ActualShapeField)
    {
      base := base.UpdateNode(base.root, RootNode().SetActualShape(actualShape));
    }

    method SetEnabled(enabled: bool)
      requires Valid()
      modifies this
      ensures Valid() && options == old(options)
      ensures Enabled() == enabled
      ensures RootOnlyChanged(old(base), EnabledField)
    {
      base := base.UpdateNode(base.root, RootNode().SetEnabled(enabled));
    }

    method SetVisible(visible: bool)
      requires Valid()
      modifies this
      ensures Valid() && options == old(options)
      ensures Visible() == visible
      ensures RootOnlyChanged(old(base), VisibleField)
    {
      base := base.UpdateNode(base.root, RootNode().SetVisible(visible));
    }

    /** Draws every node of the tree in iteration order. */
    method Draw(canvas: Canvas)
      requires Valid()
      modifies canvas
      ensures canvas.log == old(canvas.log) + Renders(base.nodes, base.order, viewport.options)
    {
      var order := base.order;
      var i := 0;
      while i < |order|
        invariant 0 <= i <= |order|
        invariant canvas.log == old(canvas.log) + Renders(base.nodes, order[..i], viewport.options)
      {
        var node := base.nodes[order[i]];
        node.Draw(canvas);
        assert order[..i + 1][..i] == order[..i];
        i := i + 1;
      }
      assert order[..|order|] == order;
    }

    // Options.

    /** The window's options; the viewport holds their projection. */
    function Options(): (o: WindowLocalOptions)
      requires Valid()
      reads Repr()
      ensures ViewportOptions.From(o) == viewport.options
    {
      options
    }

    /** Replaces the options by a copy of `o` and pushes their projection into the viewport. */
    method SetOptions(o: WindowLocalOptions)
      requires Valid()
      modifies this, viewport
      ensures Valid()
      ensures fresh(options)
      ensures options.wrap == o.wrap && options.lineBreak == o.lineBreak
      ensures base == old(base)
    {
      options := o.Clone();
      viewport.SetOptions(ViewportOptions.From(options));
    }

    /** The 'wrap' option, as the viewport sees it too. */
    function Wrap(): (value: bool)
      requires Valid()
      reads Repr()
      ensures value == viewport.options.wrap
    {
      options.wrap
    }

    method SetWrap(value: bool)
      requires Valid()
      modifies options, viewport
      ensures Valid() && unchanged(this)
      ensures Wrap() == value && LineBreak() == old(LineBreak())
    {
      options.SetWrap(value);
      viewport.SetOptions(ViewportOptions.From(options));
    }

    /** The 'linebreak' option, as the viewport sees it too. */
    function LineBreak(): (value: bool)
      requires Valid()
      reads Repr()
      ensures value == viewport.options.lineBreak
    {
      options.lineBreak
    }

    method SetLineBreak(value: bool)
      requires Valid()
      modifies options, viewport
      ensures Valid() && unchanged(this)
      ensures LineBreak() == value && Wrap() == old(Wrap())
    {
      options.SetLineBreak(value);
      viewport.SetOptions(ViewportOptions.From(options));
    }

    /** The shared viewport: the object the content node draws from, not a copy. */
    method ViewportHandle() returns (v: Viewport)
      requires Valid()
      ensures v == viewport && v == ContentNode().content.viewport
      ensures v.options == ViewportOptions.From(options)
    {
      v := viewport;
    }

    /** The buffer handle, the same one the content node holds. */
    method BufferHandle() returns (b: BufferWk)
      requires Valid()
      ensures b == buffer && b == ContentNode().content.buffer
    {
      b := buffer;
    }
  }

  /**
   * A window draws its root container and then its content, and the content
   * is laid out with the window's own options.
   */
  lemma WindowDrawsRootThenContent(w: Window)
    requires w.Valid()
    ensures Renders(w.base.nodes, w.base.order, w.viewport.options) ==
      [ RootContainerDrawn(w.Id(), w.ActualShape()),
        ContentDrawn(w.contentId, w.ContentNode().ActualShape(), w.buffer, ViewportOptions.From(w.options)) ]
  {
    RendersFollowOrder(w.base.nodes, w.base.order, w.viewport.options);
  }

  /**
   * Turning 'wrap' on and then off leaves the viewport with the options of a
   * record built directly with `wrap(false)` and the window's 'linebreak'.
   */
  method ToggleWrapOnWindow(w: Window) returns (built: WindowLocalOptions)
    requires w.Valid()
    modifies w.options, w.viewport
    ensures w.Valid() && fresh(built)
    ensures !built.wrap && built.lineBreak == old(w.options.lineBreak)
    ensures w.viewport.options == ViewportOptions.From(built)
  {
    w.SetWrap(true);
    w.SetWrap(false);
    var b := WindowLocalOptions.Builder();
    var b1 := b.Wrap(false);
    var b2 := b1.LineBreak(w.LineBreak());
    built := b2.Build();
  }
}
