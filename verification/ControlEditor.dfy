/**
 * SVirtualControlEditor: the designer's widget for one virtual control. It
 * keeps the control's data, its position on the designer canvas and a map
 * from child names to the editors of its children; moving or renaming a
 * parent updates its children.
 *
 * FName keys compare without regard to case, so the children map is keyed
 * by the case-folded name. Painting, hover effects and the Slate slot
 * offset (SetOffset) are not modelled.
 */
module ControlEditor {
  import opened Common
  import opened VirtualControlTypes
  import TouchDesignerViewport

  /** The key a child's name has in the children map. */
  function Key(name: string): string
  {
    FoldCase(name)
  }

  /** The map with the entry under `from` moved to `to`. */
  function RenameKey<V>(m: map<string, V>, from: string, to: string): (r: map<string, V>)
    requires from in m
    ensures to in r && r[to] == m[from]
    ensures from != to ==> from !in r
    ensures r.Keys == m.Keys - {from} + {to}
    ensures forall k :: k in m && k != from && k != to ==> r[k] == m[k]
  {
    (m - {from})[to := m[from]]
  }

  /** Renaming a child to a free name and back restores the map. */
  lemma RenameKeyBack<V>(m: map<string, V>, from: string, to: string)
    requires from in m && (to !in m || to == from)
    ensures RenameKey(RenameKey(m, from, to), to, from) == m
  {
    var r := RenameKey(RenameKey(m, from, to), to, from);
    assert r.Keys == m.Keys;
    forall k | k in m
      ensures r[k] == m[k]
    {
    }
  }

  /** AcceptLayer: the loop of FVisualLayer::Accept, written again in the editor widget. */
  method AcceptLayer(layerType: bv32, test: seq<LayerFlag>) returns (r: bool)
    ensures r == Accept(layerType, test)
    ensures r <==> layerType != 0 && forall i :: 0 <= i < |test| ==> HasFlag(layerType, test[i])
  {
    AcceptIff(layerType, test);
    if layerType == 0 {
      return false;
    }
    var i := 0;
    while i < |test|
      invariant 0 <= i <= |test|
      invariant forall j :: 0 <= j < i ==> HasFlag(layerType, test[j])
    {
      if layerType & FlagValue(test[i]) == 0 {
        return false;
      }
      i := i + 1;
    }
    return true;
  }

  /**
   * The position SetPositionInCanvas chooses: a normalized input is scaled
   * by the canvas size, and a constrained control is clamped to the canvas.
   */
  function PlacedPosition(input: Vec2, isNormalized: bool, constrained: bool, canvas: Vec2): (r: Vec2)
    requires canvas.x >= 0.0 && canvas.y >= 0.0
    ensures constrained ==> 0.0 <= r.x <= canvas.x && 0.0 <= r.y <= canvas.y
    ensures !isNormalized && !constrained ==> r == input
    ensures !isNormalized && constrained && 0.0 <= input.x <= canvas.x && 0.0 <= input.y <= canvas.y ==> r == input
  {
    var raw := if isNormalized then Vec2(Mul(input.x, canvas.x), Mul(input.y, canvas.y)) else input;
    if constrained then Vec2(Clamp(raw.x, 0.0, canvas.x), Clamp(raw.y, 0.0, canvas.y)) else raw
  }

  /**
   * On the designer canvas, placing a normalized position inside the unit
   * square gives the viewport's NormalizedToCanvasSpace, constrained or not.
   */
  lemma NormalizedPlacementMatchesViewport(input: Vec2, size: IntVec, constrained: bool)
    requires size.x >= 0 && size.y >= 0
    requires TouchDesignerViewport.InUnitSquare(input)
    ensures PlacedPosition(input, true, constrained, TouchDesignerViewport.AsVector(size)) ==
      TouchDesignerViewport.NormalizedToCanvasSpace(input, size)
  {
    MulFraction(input.x, size.x as real);
    MulFraction(input.y, size.y as real);
  }

  class VirtualControlEditor {
    var data: VirtualControl
    var position: Vec2
    var parentPosition: Vec2
    var normalizedPosition: Vec2
    var isConstrained: bool
    var scaleFactor: real
    var canvasSize: Vec2
    var isSelected: bool
    var children: map<string, VirtualControlEditor>

    /** Construct: no children, not selected, at the start position in normalized space. */
    constructor(controlData: VirtualControl, constrained: bool, scale: real, canvas: Vec2, startPosition: Vec2)
      ensures data == controlData && isConstrained == constrained && scaleFactor == scale && canvasSize == canvas
      ensures normalizedPosition == startPosition && position == Zero2
      ensures children == map[] && !isSelected
    {
      data := controlData;
      isConstrained := constrained;
      scaleFactor := scale;
      canvasSize := canvas;
      normalizedPosition := startPosition;
      position := Zero2;
      parentPosition := Zero2;
      isSelected := false;
      children := map[];
    }

    /** IsParent. */
    predicate IsParent()
      reads this
    {
      |children| > 0
    }

    /** GetPositionInCanvas. */
    function GetPositionInCanvas(): Vec2
      reads this
    {
      position
    }

    /** MoveChild: a child sits at its parent's position plus its offset, scaled. */
    method MoveChild(parentAbsolutePosition: Vec2)
      modifies this`position, this`parentPosition
      ensures parentPosition == parentAbsolutePosition
      ensures position == parentAbsolutePosition.Plus(data.link.parentOffset.Scale(scaleFactor))
    {
      parentPosition := parentAbsolutePosition;
      position := parentAbsolutePosition.Plus(data.link.parentOffset.Scale(scaleFactor));
    }

    /**
     * SetPositionInCanvas: places the control, moves every child along
     * when asked, and returns the new position.
     */
    method SetPositionInCanvas(input: Vec2, isNormalized: bool, includeChild: bool) returns (r: Vec2)
      requires canvasSize.x >= 0.0 && canvasSize.y >= 0.0
      requires this !in children.Values
      modifies this`position, children.Values
      ensures r == position == PlacedPosition(input, isNormalized, isConstrained, canvasSize)
      ensures includeChild ==> forall c :: c in children.Values ==>
        c.parentPosition == r && c.position == r.Plus(c.data.link.parentOffset.Scale(c.scaleFactor))
      ensures !includeChild ==> forall c :: c in children.Values ==>
        c.parentPosition == old(c.parentPosition) && c.position == old(c.position)
      ensures forall c :: c in children.Values ==> c.data == old(c.data) && c.scaleFactor == old(c.scaleFactor)
    {
      position := PlacedPosition(input, isNormalized, isConstrained, canvasSize);
      if includeChild {
        var remaining := children.Values;
        while remaining != {}
          invariant remaining <= children.Values
          invariant position == PlacedPosition(input, isNormalized, isConstrained, canvasSize)
          invariant forall c :: c in children.Values ==> c.data == old(c.data) && c.scaleFactor == old(c.scaleFactor)
          invariant forall c :: c in remaining ==> c.parentPosition == old(c.parentPosition) && c.position == old(c.position)
          invariant forall c :: c in children.Values && c !in remaining ==>
            c.parentPosition == position && c.position == position.Plus(c.data.link.parentOffset.Scale(c.scaleFactor))
          decreases remaining
        {
          var c :| c in remaining;
          c.MoveChild(position);
          remaining := remaining - {c};
        }
      }
      r := position;
    }

    /** SetOffsetFromParent: stores the offset; the Position field is left as it was. */
    method SetOffsetFromParent(offsetFromParent: Vec2)
      modifies this`data
      ensures data == old(data).(link := old(data).link.(parentOffset := offsetFromParent))
    {
      data := data.(link := data.link.(parentOffset := offsetFromParent));
    }

    /** SetParentName. */
    method SetParentName(newParentName: string)
      modifies this`data
      ensures data == old(data).(link := old(data).link.(parentName := newParentName))
    {
      data := data.(link := data.link.(parentName := newParentName));
    }

    /** SetIsChild. */
    method SetIsChild(isChild: bool)
      modifies this`data
      ensures data == old(data).(link := old(data).link.(isChild := isChild))
    {
      data := data.(link := data.link.(isChild := isChild));
    }

    /** SetControlName: renames the control and points every child at the new name. */
    method SetControlName(newName: string)
      requires this !in children.Values
      modifies this`data, children.Values
      ensures data == old(data).(controlName := newName)
      ensures forall c :: c in children.Values ==>
        c.data == old(c.data).(link := old(c.data).link.(parentName := newName))
      ensures forall c :: c in children.Values ==> c.position == old(c.position)
    {
      data := data.(controlName := newName);
      var remaining := children.Values;
      while remaining != {}
        invariant remaining <= children.Values
        invariant data == old(data).(controlName := newName)
        invariant forall c :: c in children.Values ==> c.position == old(c.position)
        invariant forall c :: c in remaining ==> c.data == old(c.data)
        invariant forall c :: c in children.Values && c !in remaining ==>
          c.data == old(c.data).(link := old(c.data).link.(parentName := newName))
        decreases remaining
      {
        var c :| c in remaining;
        c.SetParentName(newName);
        remaining := remaining - {c};
      }
    }

    /** AddChild: adds or replaces the entry for the name; always true. */
    method AddChild(childName: string, child: VirtualControlEditor) returns (r: bool)
      modifies this`children
      ensures r
      ensures children == old(children)[Key(childName) := child]
    {
      children := children[Key(childName) := child];
      r := true;
    }

    /** RemoveChild: the child must be present (FindAndRemoveChecked); always true. */
    method RemoveChild(childName: string) returns (r: bool)
      requires Key(childName) in children
      modifies this`children
      ensures r
      ensures children == old(children) - {Key(childName)}
      ensures |children| == |old(children)| - 1
    {
      children := children - {Key(childName)};
      r := true;
    }

    /** RenameChild: the same child editor, now under the new name. */
    method RenameChild(childName: string, newChildName: string)
      requires Key(childName) in children
      modifies this`children
      ensures children == RenameKey(old(children), Key(childName), Key(newChildName))
      ensures children[Key(newChildName)] == old(children)[Key(childName)]
    {
      var child := children[Key(childName)];
      children := (children - {Key(childName)})[Key(newChildName) := child];
    }
  }
}
