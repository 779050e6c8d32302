/**
 * The workspace editor's operations on the program forest: adding a new
 * block at the top level or under a parent, changing a block's value, and
 * removing a block with its subtree. Each is a recursive map or filter over
 * the forest that leaves every other node, and the order of the nodes, as
 * it was.
 */
module Editor {
  import opened Types

  /** Some node of the forest, at any depth, carries the id. */
  predicate HasId(list: seq<Block>, id: string) {
    exists i :: 0 <= i < |list| && (list[i].id == id || HasId(list[i].children, id))
  }

  /** Some node with the id other lies outside every subtree whose root carries the id. */
  predicate Kept(list: seq<Block>, id: string, other: string) {
    && list != []
    && ((list[0].id != id && (list[0].id == other || Kept(list[0].children, id, other)))
        || Kept(list[1..], id, other))
  }

  /** The number of nodes of the forest. */
  function Count(list: seq<Block>): nat {
    if list == [] then 0 else 1 + Count(list[0].children) + Count(list[1..])
  }

  /** The first node with the id in depth-first order. */
  function Find(list: seq<Block>, id: string): Option<Block> {
    if list == [] then None
    else if list[0].id == id then Some(list[0])
    else match Find(list[0].children, id)
      case Some(b) => Some(b)
      case None => Find(list[1..], id)
  }

  /** The forest with every value erased: its ids, tags and structure only. */
  function Shape(list: seq<Block>): seq<Block> {
    if list == [] then []
    else [list[0].(value := Absent, children := Shape(list[0].children))] + Shape(list[1..])
  }

  // ---------------------------------------------------------------- add

  /** The value a freshly added block of each type starts with. */
  function DefaultValue(kind: BlockType): (v: Value)
    ensures kind == Repeat ==> v == Num(4)
    ensures IsMove(kind) ==> v == Num(10)
    ensures kind == Speak ==> v == Str("Hello! \U{1F680}")
    ensures kind == IfEdge ==> v == Str("any")
    ensures kind in {MoveForward, IfElseTouching} ==> v == Absent
  {
    if kind == Repeat then Num(4)
    else if IsMove(kind) then Num(10)
    else if kind == Speak then Str("Hello! \U{1F680}")
    else if kind == IfEdge then Str("any")
    else Absent
  }

  function NewBlock(kind: BlockType, id: string): Block {
    Block(id, kind, DefaultValue(kind), [])
  }

  /**
   * Appends the new block last to the children of every node whose id is
   * the parent id; the subtree of such a node is not searched further.
   */
  function AddChild(list: seq<Block>, parentId: string, nb: Block): (r: seq<Block>)
    ensures |r| == |list|
  {
    if list == [] then []
    else
      var b := list[0];
      var b' := if b.id == parentId then b.(children := b.children + [nb])
                else b.(children := AddChild(b.children, parentId, nb));
      [b'] + AddChild(list[1..], parentId, nb)
  }

  /** A block added without a parent (or with an empty parent id) goes last at the top level. */
  function AddBlock(list: seq<Block>, kind: BlockType, parentId: Option<string>, id: string): seq<Block> {
    var nb := NewBlock(kind, id);
    if parentId == None || parentId == Some("") then list + [nb]
    else AddChild(list, parentId.value, nb)
  }

  // ---------------------------------------------------------------- update

  /** Sets the value of every node with the id that is not below another such node. */
  function UpdateValue(list: seq<Block>, id: string, v: Value): seq<Block> {
    if list == [] then []
    else
      var b := list[0];
      var b' := if b.id == id then b.(value := v) else b.(children := UpdateValue(b.children, id, v));
      [b'] + UpdateValue(list[1..], id, v)
  }

  // ---------------------------------------------------------------- remove

  /** Drops every node with the id, at any depth, together with its subtree. */
  function Remove(list: seq<Block>, id: string): seq<Block> {
    if list == [] then []
    else
      var rest := Remove(list[1..], id);
      if list[0].id == id then rest
      else [list[0].(children := Remove(list[0].children, id))] + rest
  }

  // ---------------------------------------------------------------- lemmas

  lemma HasIdCons(b: Block, tail: seq<Block>, id: string)
    ensures HasId([b] + tail, id) <==> b.id == id || HasId(b.children, id) || HasId(tail, id)
  {
    var list := [b] + tail;
    assert list[0] == b;
    if HasId(tail, id) {
      var i :| 0 <= i < |tail| && (tail[i].id == id || HasId(tail[i].children, id));
      assert list[i + 1] == tail[i];
    }
    if HasId(list, id) {
      var i :| 0 <= i < |list| && (list[i].id == id || HasId(list[i].children, id));
      if i > 0 { assert tail[i - 1] == list[i]; }
    }
  }

  lemma HasIdSplit(list: seq<Block>, id: string)
    requires list != []
    ensures HasId(list, id) <==> list[0].id == id || HasId(list[0].children, id) || HasId(list[1..], id)
  {
    assert list == [list[0]] + list[1..];
    HasIdCons(list[0], list[1..], id);
  }

  /** After removal no node with the id is left, at any depth. */
  lemma {:induction false} RemoveErases(list: seq<Block>, id: string)
    ensures !HasId(Remove(list, id), id)
  {
    if list != [] {
      RemoveErases(list[1..], id);
      RemoveErases(list[0].children, id);
      if list[0].id != id {
        HasIdCons(list[0].(children := Remove(list[0].children, id)), Remove(list[1..], id), id);
      }
    }
  }

  /** Removing an id the forest does not hold changes nothing. */
  lemma {:induction false} RemoveAbsent(list: seq<Block>, id: string)
    requires !HasId(list, id)
    ensures Remove(list, id) == list
  {
    if list != [] {
      HasIdSplit(list, id);
      RemoveAbsent(list[1..], id);
      RemoveAbsent(list[0].children, id);
      assert list == [list[0]] + list[1..];
    }
  }

  /** Removing twice is removing once. */
  lemma RemoveIdempotent(list: seq<Block>, id: string)
    ensures Remove(Remove(list, id), id) == Remove(list, id)
  {
    RemoveErases(list, id);
    RemoveAbsent(Remove(list, id), id);
  }

  /**
   * Removal keeps exactly the nodes outside the removed subtrees, never adds
   * one, and shrinks the forest exactly when the id was present.
   */
  lemma {:induction false} RemoveKeepsOthers(list: seq<Block>, id: string, other: string)
    ensures HasId(Remove(list, id), other) <==> Kept(list, id, other)
    ensures HasId(Remove(list, id), other) ==> HasId(list, other) && other != id
    ensures Count(Remove(list, id)) <= Count(list)
    ensures Count(Remove(list, id)) < Count(list) <==> HasId(list, id)
  {
    if list != [] {
      RemoveKeepsOthers(list[1..], id, other);
      RemoveKeepsOthers(list[0].children, id, other);
      RemoveErases(list, id);
      HasIdSplit(list, other);
      HasIdSplit(list, id);
      if list[0].id != id {
        HasIdCons(list[0].(children := Remove(list[0].children, id)), Remove(list[1..], id), other);
      }
    }
  }

  /** Removing two ids in either order gives the same forest. */
  lemma {:induction false} RemoveCommutes(list: seq<Block>, a: string, b: string)
    ensures Remove(Remove(list, a), b) == Remove(Remove(list, b), a)
  {
    if list != [] {
      RemoveCommutes(list[1..], a, b);
      RemoveCommutes(list[0].children, a, b);
    }
  }

  /** An update changes values only: ids, tags, structure and order stay as they were. */
  lemma {:induction false} UpdateKeepsShape(list: seq<Block>, id: string, v: Value)
    ensures Shape(UpdateValue(list, id, v)) == Shape(list)
    ensures |UpdateValue(list, id, v)| == |list|
  {
    if list != [] {
      UpdateKeepsShape(list[1..], id, v);
      UpdateKeepsShape(list[0].children, id, v);
    }
  }

  /** Updating an id the forest does not hold changes nothing. */
  lemma {:induction false} UpdateAbsent(list: seq<Block>, id: string, v: Value)
    requires !HasId(list, id)
    ensures UpdateValue(list, id, v) == list
  {
    if list != [] {
      HasIdSplit(list, id);
      UpdateAbsent(list[1..], id, v);
      UpdateAbsent(list[0].children, id, v);
      assert list == [list[0]] + list[1..];
    }
  }

  /** The id is found exactly when the forest holds it. */
  lemma {:induction false} FindIffHasId(list: seq<Block>, id: string)
    ensures Find(list, id).Some? <==> HasId(list, id)
    ensures Find(list, id).Some? ==> Find(list, id).value.id == id
  {
    if list != [] {
      HasIdSplit(list, id);
      FindIffHasId(list[0].children, id);
      FindIffHasId(list[1..], id);
    }
  }

  /** After an update the first node with the id is the one it was, carrying the new value. */
  lemma {:induction false} UpdateThenFind(list: seq<Block>, id: string, v: Value)
    ensures Find(UpdateValue(list, id, v), id) ==
      match Find(list, id)
      case None => None
      case Some(b) => Some(b.(value := v))
  {
    if list != [] {
      UpdateThenFind(list[0].children, id, v);
      UpdateThenFind(list[1..], id, v);
    }
  }

  /** An update leaves every other id where it was, with its tag and value. */
  lemma {:induction false} UpdateKeepsOthers(list: seq<Block>, id: string, other: string, v: Value)
    requires other != id
    ensures Find(UpdateValue(list, id, v), other).Some? <==> Find(list, other).Some?
    ensures Find(list, other).Some? ==>
      var b, b' := Find(list, other).value, Find(UpdateValue(list, id, v), other).value;
      b'.id == b.id && b'.kind == b.kind && b'.value == b.value
  {
    if list != [] {
      UpdateKeepsOthers(list[0].children, id, other, v);
      UpdateKeepsOthers(list[1..], id, other, v);
    }
  }

  /** A top-level parent gets the new block appended last to its children; other top-level nodes keep id, tag and value. */
  lemma {:induction false} AddChildAtTop(list: seq<Block>, parentId: string, nb: Block, i: nat)
    requires i < |list|
    ensures list[i].id == parentId ==>
      AddChild(list, parentId, nb)[i] == list[i].(children := list[i].children + [nb])
    ensures list[i].id != parentId ==>
      var b := AddChild(list, parentId, nb)[i];
      b.id == list[i].id && b.kind == list[i].kind && b.value == list[i].value
  {
    if i > 0 {
      AddChildAtTop(list[1..], parentId, nb, i - 1);
    }
  }

  /** The first node with the parent id, at any depth, gets the new block appended last to its children. */
  lemma {:induction false} AddChildFind(list: seq<Block>, parentId: string, nb: Block)
    ensures Find(AddChild(list, parentId, nb), parentId) ==
      match Find(list, parentId)
      case None => None
      case Some(b) => Some(b.(children := b.children + [nb]))
  {
    if list != [] {
      AddChildFind(list[0].children, parentId, nb);
      AddChildFind(list[1..], parentId, nb);
    }
  }

  /** Adding under a parent the forest does not hold changes nothing. */
  lemma {:induction false} AddChildAbsent(list: seq<Block>, parentId: string, nb: Block)
    requires !HasId(list, parentId)
    ensures AddChild(list, parentId, nb) == list
  {
    if list != [] {
      HasIdSplit(list, parentId);
      AddChildAbsent(list[1..], parentId, nb);
      AddChildAbsent(list[0].children, parentId, nb);
      assert list == [list[0]] + list[1..];
    }
  }

  /** Adding under a parent the forest holds places the new block in it. */
  lemma {:induction false} AddChildPlaces(list: seq<Block>, parentId: string, nb: Block)
    requires HasId(list, parentId)
    ensures HasId(AddChild(list, parentId, nb), nb.id)
  {
    HasIdSplit(list, parentId);
    var r := AddChild(list, parentId, nb);
    var b := list[0];
    var b' := if b.id == parentId then b.(children := b.children + [nb])
              else b.(children := AddChild(b.children, parentId, nb));
    assert r == [b'] + AddChild(list[1..], parentId, nb);
    if b.id == parentId {
      assert b'.children[|b.children|] == nb;
      assert HasId(b'.children, nb.id);
    } else if HasId(b.children, parentId) {
      AddChildPlaces(b.children, parentId, nb);
    } else {
      AddChildPlaces(list[1..], parentId, nb);
    }
    HasIdCons(b', AddChild(list[1..], parentId, nb), nb.id);
  }

  /** Removing a freshly added leaf by its id gives back the forest it was added to. */
  lemma {:induction false} AddChildThenRemove(list: seq<Block>, parentId: string, nb: Block)
    requires !HasId(list, nb.id)
    requires nb.children == []
    ensures Remove(AddChild(list, parentId, nb), nb.id) == list
  {
    if list != [] {
      HasIdSplit(list, nb.id);
      AddChildThenRemove(list[1..], parentId, nb);
      var b := list[0];
      var b' := if b.id == parentId then b.(children := b.children + [nb])
                else b.(children := AddChild(b.children, parentId, nb));
      var r := AddChild(list, parentId, nb);
      assert r == [b'] + AddChild(list[1..], parentId, nb);
      assert r[0] == b' && r[1..] == AddChild(list[1..], parentId, nb);
      if b.id == parentId {
        RemoveAbsent(b.children, nb.id);
        RemoveAppend(b.children, [nb], nb.id);
        assert Remove([nb], nb.id) == [];
      } else {
        AddChildThenRemove(b.children, parentId, nb);
      }
      assert Remove(b'.children, nb.id) == b.children;
      assert Remove(r, nb.id) == [b'.(children := Remove(b'.children, nb.id))] + Remove(r[1..], nb.id);
      assert list == [list[0]] + list[1..];
    }
  }

  lemma {:induction false} RemoveAppend(a: seq<Block>, b: seq<Block>, id: string)
    ensures Remove(a + b, id) == Remove(a, id) + Remove(b, id)
  {
    if a != [] {
      assert (a + b)[0] == a[0] && (a + b)[1..] == a[1..] + b;
      RemoveAppend(a[1..], b, id);
    } else {
      assert a + b == b;
    }
  }

  /** Adding a block with a fresh id and removing it again is the identity, wherever it was added. */
  lemma AddThenRemove(list: seq<Block>, kind: BlockType, parentId: Option<string>, id: string)
    requires !HasId(list, id)
    ensures Remove(AddBlock(list, kind, parentId, id), id) == list
  {
    var nb := NewBlock(kind, id);
    if parentId == None || parentId == Some("") {
      RemoveAppend(list, [nb], id);
      RemoveAbsent(list, id);
    } else {
      AddChildThenRemove(list, parentId.value, nb);
    }
  }
}
