/**
 * The lazy variant's drag controller: a single, process-wide drag flag and
 * previous position; a move turns whichever model is registered as active at
 * that moment.
 */
module BMRotation {
  import opened Common
  import BM

  const Sensitivity: real := 0.01

  datatype Drag = Drag(isDragging: bool, prev: Point)

  const Initial: Drag := Drag(false, Point(0.0, 0.0))

  /** `start`: a press or touch (its first touch) starts a drag from its position. */
  function Start(d: Drag, at: Point): (r: Drag)
    ensures r.isDragging && r.prev == at
  {
    Drag(true, at)
  }

  /**
   * `move`: while dragging and with a model registered, the registered model
   * turns by 0.01 rad per pixel (horizontal motion about y, vertical about x)
   * and the previous position advances to the pointer; otherwise nothing
   * changes, not even the previous position.
   */
  function Move(d: Drag, s: BM.State, at: Point): (r: (Drag, BM.State))
    requires BM.Wf(s)
    ensures BM.Wf(r.1)
    ensures !d.isDragging || s.activeModel.None? ==> r == (d, s)
    ensures d.isDragging && s.activeModel.Some? ==>
              var a := s.activeModel.value;
              && r.0 == Drag(true, at)
              && r.1.cache.Keys == s.cache.Keys
              && r.1.cache[a].rotY == s.cache[a].rotY + (at.x - d.prev.x) * Sensitivity
              && r.1.cache[a].rotX == s.cache[a].rotX + (at.y - d.prev.y) * Sensitivity
              && r.1.cache[a].(rotX := s.cache[a].rotX, rotY := s.cache[a].rotY) == s.cache[a]
              && (forall q :: q in s.cache && q != a ==> r.1.cache[q] == s.cache[q])
              && r.1.anchors == s.anchors && r.1.activeModel == s.activeModel && r.1.activeMixer == s.activeMixer
              && r.1.activeNarration == s.activeNarration && r.1.activeSFX == s.activeSFX
  {
    if !d.isDragging || s.activeModel.None? then (d, s)
    else
      var dx := at.x - d.prev.x;
      var dy := at.y - d.prev.y;
      (d.(prev := at), BM.Rotate(s, dx * Sensitivity, dy * Sensitivity))
  }

  /** Rotating the registered model keeps the book's invariant. */
  lemma MoveKeepsInv(d: Drag, s: BM.State, at: Point)
    requires BM.Inv(s)
    ensures BM.Inv(Move(d, s, at).1)
  {
    if d.isDragging && s.activeModel.Some? {
      BM.RotateKeepsInv(s, (at.x - d.prev.x) * Sensitivity, (at.y - d.prev.y) * Sensitivity);
    }
  }

  /** `end`: the drag stops; the previous position is kept. */
  function End(d: Drag): (r: Drag)
    ensures !r.isDragging && r.prev == d.prev
  {
    d.(isDragging := false)
  }

  /** After `end`, moves change nothing until the next `start`. */
  lemma NoRotationAfterEnd(d: Drag, s: BM.State, at: Point)
    requires BM.Wf(s)
    ensures Move(End(d), s, at) == (End(d), s)
  {
  }

  /** Two moves in a drag add up: the model turns by the total pointer travel. */
  lemma MovesAccumulate(d: Drag, s: BM.State, at1: Point, at2: Point)
    requires BM.Wf(s) && d.isDragging && s.activeModel.Some?
    ensures var (d1, s1) := Move(d, s, at1);
            var (d2, s2) := Move(d1, s1, at2);
            var a := s.activeModel.value;
            s2.cache[a].rotY == s.cache[a].rotY + (at2.x - d.prev.x) * Sensitivity
            && s2.cache[a].rotX == s.cache[a].rotX + (at2.y - d.prev.y) * Sensitivity
  {
  }

  /** The module-level drag variables of `enableRotation`. */
  class Rotation {
    var isDragging: bool
    var prev: Point

    function View(): Drag
      reads this
    {
      Drag(isDragging, prev)
    }

    constructor ()
      ensures View() == Initial
    {
      isDragging := false;
      prev := Point(0.0, 0.0);
    }

    method HandleStart(at: Point)
      modifies this
      ensures View() == Start(old(View()), at)
    {
      isDragging := true;
      prev := prev.(x := at.x);
      prev := prev.(y := at.y);
    }

    method HandleMove(book: BM.Book, at: Point)
      requires book.Valid()
      modifies this, book
      ensures book.Valid()
      ensures (View(), book.View()) == Move(old(View()), old(book.View()), at)
    {
      if !isDragging || book.activeModel.None? {
        return;
      }
      ghost var s := book.View();
      var a := book.activeModel.value;
      var dx := at.x - prev.x;
      var dy := at.y - prev.y;
      var m := book.cache[a];
      book.cache := book.cache[a := m.(rotY := m.rotY + dx * Sensitivity)];
      m := book.cache[a];
      book.cache := book.cache[a := m.(rotX := m.rotX + dy * Sensitivity)];
      prev := at;
      assert book.View() == BM.Rotate(s, dx * Sensitivity, dy * Sensitivity);
      BM.RotateKeepsInv(s, dx * Sensitivity, dy * Sensitivity);
    }

    method HandleEnd()
      modifies this
      ensures View() == End(old(View()))
    {
      isDragging := false;
    }
  }
}
