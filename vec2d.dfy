/** The two-slot vector: x lives in slot 0 and y in slot 1 of a fixed-size
    buffer. */
module Vec2DModel {

  class Vec2D {
    const slots: array<real>

    ghost predicate Valid()
      reads this
    {
      slots.Length == 2
    }

    constructor (x: real, y: real)
      ensures Valid() && fresh(slots)
      ensures slots[0] == x && slots[1] == y
    {
      var a := new real[2];
      a[0], a[1] := x, y;
      slots := a;
    }

    function X(): real
      requires Valid()
      reads this, slots
    {
      slots[0]
    }

    function Y(): real
      requires Valid()
      reads this, slots
    {
      slots[1]
    }

    /** The x setter writes slot 0 only. */
    method SetX(value: real)
      requires Valid()
      modifies slots
      ensures Valid()
      ensures X() == value && Y() == old(Y())
    {
      slots[0] := value;
    }

    /** The y setter writes slot 1 only. */
    method SetY(value: real)
      requires Valid()
      modifies slots
      ensures Valid()
      ensures Y() == value && X() == old(X())
    {
      slots[1] := value;
    }

    /** A copy with the same coordinates and a new identity. */
    method Clone() returns (c: Vec2D)
      requires Valid()
      ensures c.Valid() && fresh(c) && fresh(c.slots)
      ensures c.X() == X() && c.Y() == Y()
      ensures c != this && c.slots != slots
    {
      c := new Vec2D(slots[0], slots[1]);
    }
  }
}
