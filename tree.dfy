/**
 * The indexed widget tree, seen from the window: a table of nodes keyed by
 * their ids, a root, a parent edge for every other node, and the order in
 * which iteration visits the nodes.
 */
module Tree {
  import opened Coord

  /** Process-unique handle of a widget node. */
  type InodeId = int

  /** The fields every widget node carries, whatever its kind. */
  datatype InodeBase = InodeBase(
    id: InodeId,
    depth: nat,
    zindex: nat,
    shape: IRect,
    actualShape: U16Rect,
    enabled: bool,
    visible: bool)
  {
    /** A new node base with the given id, logical shape and actual shape. */
    static function New(id: InodeId, shape: IRect, actualShape: U16Rect): InodeBase {
      InodeBase(id, 0, 0, shape, actualShape, true, true)
    }
  }

  /**
   * `order` is the sequence the tree's iterator yields. A node is always
   * inserted below a node already present, so appending it keeps every
   * parent ahead of its children.
   */
  datatype Itree<T> = Itree(
    nodes: map<InodeId, T>,
    root: InodeId,
    parent: map<InodeId, InodeId>,
    order: seq<InodeId>)
  {
    ghost predicate Valid() {
      && root in nodes
      && |order| > 0 && order[0] == root
      && (forall i, j :: 0 <= i < j < |order| ==> order[i] != order[j])
      && (forall id :: id in nodes <==> id in order)
      && parent.Keys == nodes.Keys - {root}
      && (forall id :: id in parent ==> parent[id] in nodes)
      && ParentsFirst()
    }

    /** Iteration visits every parent before any of its children. */
    ghost predicate ParentsFirst() {
      forall i, j ::
        0 <= i < |order| && 0 <= j < |order| && order[j] in parent && parent[order[j]] == order[i] ==> i < j
    }

    /** A tree holding only its root node. */
    static function New(rootId: InodeId, rootNode: T): (t: Itree<T>)
      ensures t.Valid()
      ensures t.root == rootId && rootId in t.nodes && t.nodes[rootId] == rootNode
      ensures t.nodes.Keys == {rootId} && t.order == [rootId]
    {
      Itree(map[rootId := rootNode], rootId, map[], [rootId])
    }

    /**
     * Inserts `node` under `parentId`. Ids are handed out once per process,
     * so the new id is never already in the tree.
     */
    function BoundedInsert(parentId: InodeId, id: InodeId, node: T): (t: Itree<T>)
      requires Valid() && parentId in nodes && id !in nodes
      ensures t.Valid()
      ensures t.root == root
      ensures t.nodes.Keys == nodes.Keys + {id}
      ensures id in t.nodes && t.nodes[id] == node
      ensures id in t.parent && t.parent[id] == parentId
      ensures forall k :: k in nodes ==> k in t.nodes && t.nodes[k] == nodes[k]
      ensures forall k :: k in parent ==> k in t.parent && t.parent[k] == parent[k]
      ensures t.order == order + [id]
    {
      var t := Itree(nodes[id := node], root, parent[id := parentId], order + [id]);
      assert t.ParentsFirst() by {
        forall i, j | 0 <= i < |t.order| && 0 <= j < |t.order| && t.order[j] in t.parent && t.parent[t.order[j]] == t.order[i]
          ensures i < j
        {
          if j == |order| {
            assert t.order[i] == parentId;
            assert i != |order| by { assert t.order[|order|] == id; }
          } else {
            assert t.order[j] == order[j] && order[j] != id;
            assert order[j] in parent && t.parent[order[j]] == parent[order[j]];
            assert parent[order[j]] in nodes;
            assert i != |order| by { assert t.order[|order|] == id; }
            assert t.order[i] == order[i];
          }
        }
      }
      t
    }

    /** Replaces the node stored under `id`; the shape of the tree is untouched. */
    function UpdateNode(id: InodeId, node: T): (t: Itree<T>)
      requires Valid() && id in nodes
      ensures t.Valid()
      ensures t.root == root && t.parent == parent && t.order == order
      ensures t.nodes.Keys == nodes.Keys
      ensures t.nodes[id] == node
      ensures forall k :: k in nodes && k != id ==> t.nodes[k] == nodes[k]
    {
      this.(nodes := nodes[id := node])
    }
  }
}
