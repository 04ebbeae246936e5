# Window options and window state of the rsvim editor, in Dafny

This project models the option and state layer of rsvim's window widget.

- `opt.dfy` (module `Opt`) models the window-local options. The record `WindowLocalOptions` holds two flags: 'wrap' (Vim's `'wrap'`, default on) and 'linebreak' (Vim's `'linebreak'`, default off). It comes with its chaining builder `WindowOptionsBuilder` and with `ViewportOptions`, the projection the viewport consumes. The record and the builder are updated in place, so both are classes. `ViewportOptions` is a plain copyable value, so it is a datatype.
- `widget.dfy` (module `Widget`) models the `Window` object and the two-variant `WindowNode`.
  - A window owns an indexed tree of two nodes: a root container, and a content node as its only child.
  - It holds a buffer handle, its own options, and a viewport that it shares with the content node.
  - `Window.Valid()` is the window's invariant. It says the tree has that shape, the content node holds the window's own viewport and buffer, and the viewport's options equal `ViewportOptions.From(options)`. The constructor establishes it, and every option setter and every node-contract setter preserves it.
  - The node contract (id, depth, z-index, shape, actual shape, enabled, visible) is answered by the root node alone. The window's getters return the root container's own fields. The getters on `WindowNode` return the wrapped widget's fields. The setters' contracts state what those getters return afterwards.
  - `Window.Draw` walks the tree in iteration order and draws each node.
- `tree.dfy` (module `Tree`) models the part of the indexed tree the window uses. It is a map from node id to node, a root id, parent edges, and the iteration order. `Itree.Valid()` says the order lists every node once, root first, parents before children.
- `external.dfy` (module `External`) models the collaborators, reduced to what the window relies on:
  - the viewport, of which only the options are modelled;
  - the buffer handle, identified by the buffer it points to;
  - a canvas that records, in order, which node drew, with its actual shape and, for the content node, the buffer and viewport options it drew with.
- `coord.dfy` (module `Coord`) holds the rectangle types.

Setting a node-contract value on the window writes only the root node, as the code does. In particular, `Window.SetShape` re-clips no child and recomputes no viewport. The viewport keeps its size, as in the code (rsvim_core/src/ui/widget/window.rs:119-125).

## Model

| member | source | states |
|---|---|---|
| `Opt.WindowLocalOptions.Builder` | rsvim_core/src/ui/widget/window/opt.rs:19-21 | returns a new builder holding the default flags: wrap on, linebreak off |
| `Opt.WindowLocalOptions.Default` | rsvim_core/src/ui/widget/window/opt.rs:12-16 | the default record, built by a default builder, has wrap on and linebreak off |
| `Opt.WindowLocalOptions.Clone` | rsvim_core/src/ui/widget/window/opt.rs:5-10 | the copy is a new object with the same two flags, so later changes to either object do not reach the other |
| `Opt.WindowLocalOptions.SetWrap` | rsvim_core/src/ui/widget/window/opt.rs:29-31 | afterwards wrap is the given value and linebreak is unchanged |
| `Opt.WindowLocalOptions.SetLineBreak` | rsvim_core/src/ui/widget/window/opt.rs:39-41 | afterwards linebreak is the given value and wrap is unchanged |
| `Opt.WindowOptionsBuilder.Default` | rsvim_core/src/ui/widget/window/opt.rs:67-74 | a new builder starts with wrap on and linebreak off |
| `Opt.WindowOptionsBuilder.Wrap` | rsvim_core/src/ui/widget/window/opt.rs:51-54 | sets only the builder's wrap flag and returns the same builder, for chaining |
| `Opt.WindowOptionsBuilder.LineBreak` | rsvim_core/src/ui/widget/window/opt.rs:55-58 | sets only the builder's linebreak flag and returns the same builder, for chaining |
| `Opt.WindowOptionsBuilder.Build` | rsvim_core/src/ui/widget/window/opt.rs:59-64 | returns a new record whose two flags are exactly the builder's |
| `Opt.ViewportOptions.From` | rsvim_core/src/ui/widget/window/opt.rs:109-116 | the viewport options carry the record's wrap and linebreak, field for field |
| `Opt.BuildScenario` | rsvim_core/src/ui/widget/window/opt.rs:122-132 | building after `wrap(true).line_break(true)` gives both flags on; building a fresh builder gives wrap on and linebreak off |
| `Opt.ToggleWrapLastWriteWins` | rsvim_core/src/ui/widget/window/opt.rs:25-31 | after setting wrap on and then off, the record projects to the same viewport options as one built with `wrap(false)` and the record's own linebreak |
| `Tree.Itree.New` | rsvim_core/src/ui/widget/window.rs:68 | the new tree is valid and holds only the root node, under the root id |
| `Tree.Itree.BoundedInsert` | rsvim_core/src/ui/widget/window.rs:74 | the tree stays valid; the node is stored under its id with the given parent; every earlier node and edge is kept; iteration visits the new node after all earlier ones |
| `Tree.Itree.UpdateNode` | rsvim_core/src/ui/widget/window.rs:95-100 | replaces one node in place; the tree stays valid; ids, edges, iteration order and every other node are unchanged |
| `External.Viewport.constructor` | rsvim_core/src/ui/widget/window.rs:65-66 | the new viewport holds exactly the options it is built from |
| `External.Viewport.SetOptions` | rsvim_core/src/ui/widget/window.rs:184 | the write under the viewport's lock replaces its options by the given ones |
| `Widget.WindowNode.Id` | rsvim_core/src/ui/widget/window.rs:249-251 | the node's id is that of the wrapped root container or content widget, whichever variant it is |
| `Widget.WindowNode.Depth` | rsvim_core/src/ui/widget/window.rs:253-255 | the node's depth is that of the wrapped root container or content widget, whichever variant it is |
| `Widget.WindowNode.Zindex` | rsvim_core/src/ui/widget/window.rs:261-263 | the node's z-index is that of the wrapped root container or content widget, whichever variant it is |
| `Widget.WindowNode.Shape` | rsvim_core/src/ui/widget/window.rs:269-271 | the node's logical shape is that of the wrapped root container or content widget, whichever variant it is |
| `Widget.WindowNode.ActualShape` | rsvim_core/src/ui/widget/window.rs:277-279 | the node's actual shape is that of the wrapped root container or content widget, whichever variant it is |
| `Widget.WindowNode.Enabled` | rsvim_core/src/ui/widget/window.rs:285-287 | the node's enabled flag is that of the wrapped root container or content widget, whichever variant it is |
| `Widget.WindowNode.Visible` | rsvim_core/src/ui/widget/window.rs:293-295 | the node's visible flag is that of the wrapped root container or content widget, whichever variant it is |
| `Widget.WindowRootContainer.Draw` | rsvim_core/src/ui/widget/window.rs:306 | the root container adds exactly one draw, its own, to the canvas |
| `Widget.WindowContent.Draw` | rsvim_core/src/ui/widget/window.rs:307 | the content node adds exactly one draw, made with the options its viewport holds at that moment and its buffer |
| `Widget.WindowNode.SetDepth` | rsvim_core/src/ui/widget/window.rs:257-259 | the node reports the new depth; it keeps its variant, its id and every other field |
| `Widget.WindowNode.SetZindex` | rsvim_core/src/ui/widget/window.rs:265-267 | the node reports the new z-index; it keeps its variant, its id and every other field |
| `Widget.WindowNode.SetShape` | rsvim_core/src/ui/widget/window.rs:273-275 | the node reports the new shape; it keeps its variant, its id and every other field |
| `Widget.WindowNode.SetActualShape` | rsvim_core/src/ui/widget/window.rs:281-283 | the node reports the new actual shape; it keeps its variant, its id and every other field |
| `Widget.WindowNode.SetEnabled` | rsvim_core/src/ui/widget/window.rs:289-291 | the node reports the new enabled flag; it keeps its variant, its id and every other field |
| `Widget.WindowNode.SetVisible` | rsvim_core/src/ui/widget/window.rs:297-299 | the node reports the new visible flag; it keeps its variant, its id and every other field |
| `Widget.WindowNode.Rendered` | rsvim_core/src/ui/widget/window.rs:302-309 | a node's draw is recorded under its own id and actual shape; it is a content draw exactly when the node is the content variant, and then it uses the given viewport options and the node's buffer |
| `Widget.WindowNode.Draw` | rsvim_core/src/ui/widget/window.rs:304-309 | the draw goes to the wrapped widget; the content node draws with the options its viewport holds at that moment |
| `Widget.RendersFollowOrder` | rsvim_core/src/ui/widget/window.rs:165-170 | drawing nodes in a given order yields one draw per node, and the i-th draw is that of the i-th node |
| `Widget.LogInTreeOrder` | rsvim_core/src/ui/widget/window.rs:166-169 | a draw log that follows a valid tree's iteration order covers every node once, root first, with parents before children |
| `Widget.DrawVisitsEachNodeOnce` | rsvim_core/src/ui/widget/window.rs:165-170 | drawing a valid tree draws each of its nodes exactly once, the root first and every parent before its children |
| `Widget.Window.constructor` | rsvim_core/src/ui/widget/window.rs:53-83 | the window holds a fresh copy of the given options and a fresh viewport whose options carry the same two flags; the root's id is the window's id; both nodes get the given shape and actual shape; the content node is the root's child and its id is recorded; the invariant holds |
| `Widget.Window.Id` | rsvim_core/src/ui/widget/window.rs:87-89 | the window's id is its root node's id, never the content node's |
| `Widget.Window.Depth` | rsvim_core/src/ui/widget/window.rs:91-93 | the window's depth is the root container's own, not the content node's |
| `Widget.Window.Zindex` | rsvim_core/src/ui/widget/window.rs:103-105 | the window's z-index is the root container's own, not the content node's |
| `Widget.Window.Shape` | rsvim_core/src/ui/widget/window.rs:115-117 | the window's logical shape is the root container's own, not the content node's |
| `Widget.Window.ActualShape` | rsvim_core/src/ui/widget/window.rs:127-129 | the window's actual shape is the root container's own, not the content node's |
| `Widget.Window.Enabled` | rsvim_core/src/ui/widget/window.rs:139-141 | the window's enabled flag is the root container's own, not the content node's |
| `Widget.Window.Visible` | rsvim_core/src/ui/widget/window.rs:151-153 | the window's visible flag is the root container's own, not the content node's |
| `Widget.Window.SetDepth` | rsvim_core/src/ui/widget/window.rs:95-101 | the window reports the new depth; only that field of the root node changes, and the content node, the tree's shape and the options do not |
| `Widget.Window.SetZindex` | rsvim_core/src/ui/widget/window.rs:107-113 | the window reports the new z-index; only that field of the root node changes |
| `Widget.Window.SetShape` | rsvim_core/src/ui/widget/window.rs:119-125 | the window reports the new shape; only the root's shape changes, so the content node is neither moved nor re-clipped |
| `Widget.Window.SetActualShape` | rsvim_core/src/ui/widget/window.rs:131-137 | the window reports the new actual shape; only that field of the root node changes |
| `Widget.Window.SetEnabled` | rsvim_core/src/ui/widget/window.rs:143-149 | the window reports the new enabled flag; only that field of the root node changes |
| `Widget.Window.SetVisible` | rsvim_core/src/ui/widget/window.rs:155-161 | the window reports the new visible flag; only that field of the root node changes |
| `Widget.Window.Draw` | rsvim_core/src/ui/widget/window.rs:165-170 | the canvas receives exactly the draws of the tree's nodes, in iteration order |
| `Widget.Window.Options` | rsvim_core/src/ui/widget/window.rs:176-178 | the options the window reports project to exactly the options its viewport holds |
| `Widget.Window.SetOptions` | rsvim_core/src/ui/widget/window.rs:181-185 | the window now holds a fresh copy of the given options, field for field; the viewport holds their projection; the tree is unchanged |
| `Widget.Window.Wrap` | rsvim_core/src/ui/widget/window.rs:187-189 | the window's wrap flag is the one its viewport lays out by |
| `Widget.Window.SetWrap` | rsvim_core/src/ui/widget/window.rs:191-195 | afterwards wrap is the given value and linebreak is unchanged, in the window and in the viewport; the tree, the buffer and the viewport handle are unchanged |
| `Widget.Window.LineBreak` | rsvim_core/src/ui/widget/window.rs:197-199 | the window's linebreak flag is the one its viewport lays out by |
| `Widget.Window.SetLineBreak` | rsvim_core/src/ui/widget/window.rs:201-205 | afterwards linebreak is the given value and wrap is unchanged, in the window and in the viewport; the tree, the buffer and the viewport handle are unchanged |
| `Widget.Window.ViewportHandle` | rsvim_core/src/ui/widget/window.rs:208-210 | the handle is the very viewport the content node draws from, and it holds the projection of the window's options |
| `Widget.Window.BufferHandle` | rsvim_core/src/ui/widget/window.rs:213-215 | the handle is the window's buffer handle, the same one the content node holds |
| `Widget.WindowDrawsRootThenContent` | rsvim_core/src/ui/widget/window.rs:164-170 | a window draws its root container and then its content, and the content is laid out with the projection of the window's own options |
| `Widget.ToggleWrapOnWindow` | rsvim_core/src/ui/widget/window.rs:191-195 | setting wrap on and then off on a window leaves its viewport with the options of a record built with `wrap(false)` and the window's linebreak |

## Left out

- Viewport layout: the line, row and cursor viewports and how they are computed are not part of this model. The viewport keeps only its options. The buffer and the actual shape that `Viewport::new` also takes are not stored.
- Drawing cells: what the root container and the content node actually paint is outside this model. The canvas records one draw per node: which node drew, its actual shape and, for the content, the buffer and options it drew with. The in-tree drawing scenario (`draw_after_init1`) depends on the layout and on the canvas, so it is not modelled.
- Widget.Window.constructor: states the ids, shapes and actual shapes of both nodes, but not their initial depth, z-index or flags, because `InodeBase::new` sets those and is not part of this model.
- Node construction: `InodeBase` and the widget constructors are not part of this model. The process-wide id counter becomes the constructor parameters `rootId` and `contentId`. They are required to differ, because ids are never handed out twice. The actual shape that construction derives from the logical shape becomes the parameter `actualShape`. The model sets the initial depth, z-index and flags to 0, 0, on and on; no contract relies on them.
- Tree internals: re-clipping a child's actual shape on insertion and the bounds check of `bounded_insert` are not modelled. Iteration order is modelled as insertion order. For a window's tree this visits the root before the content, as any parent-before-child traversal does, because the content node is the root's only child.
- `Widget.Window.constructor`, `Widget.Window.SetOptions`, `Widget.Window.SetWrap`, `Widget.Window.SetLineBreak`: the shared `Arc`/`Weak` ownership and the `RwLock` taken by `wlock!` are not modelled. The write is a plain field update, so lock poisoning and concurrent readers are out of scope. A weak handle is modelled as a plain reference; a failed upgrade is not modelled.
- Widget.Window.Options: returns the window's own options object. The source hands out a shared borrow, which callers cannot mutate; the model does not exclude a caller mutating the object, and a caller that does so can no longer show `Window.Valid()`.
- Integer widths: depth and z-index are `usize` in the source and `nat` here. The setters only store them, so no overflow can arise.
- `WindowGlobalOptions` and its builder are empty structs with no state, and are not modelled.
- The root container of the whole UI tree (`RootContainer` in root.rs) is only a constructor over `InodeBase` plus generated accessors. It is not modelled.
- The JavaScript `Rsvim.opt` wrapper (rsvim_core/src/js/runtime/01__rsvim.js) only forwards to native functions after a dynamic type check. It is not modelled.
