/** A mutable integer point. */
module Points {

  /** A C# `int`. */
  type Int32 = x: int | -0x8000_0000 <= x < 0x8000_0000

  /** `PxPoint`: publicly settable X and Y. */
  class PxPoint {
    var x: Int32
    var y: Int32

    /** `new PxPoint()`: both coordinates keep their default, zero. */
    constructor ()
      ensures x == 0 && y == 0
    {
      x := 0;
      y := 0;
    }

    /** `new PxPoint(x, y)`: stores exactly the given coordinates. */
    constructor FromCoordinates(x: Int32, y: Int32)
      ensures this.x == x && this.y == y
    {
      this.x := x;
      this.y := y;
    }

    /** The `X` setter. */
    method SetX(value: Int32)
      modifies this
      ensures x == value && y == old(y)
    {
      x := value;
    }

    /** The `Y` setter. */
    method SetY(value: Int32)
      modifies this
      ensures y == value && x == old(x)
    {
      y := value;
    }

    /** `Clone()`: a new point with the same coordinates. */
    method Clone() returns (p: PxPoint)
      ensures fresh(p)
      ensures p.x == x && p.y == y
    {
      p := new PxPoint.FromCoordinates(x, y);
    }
  }

  /** A clone is a separate object: moving it leaves the original where it was. */
  method MoveClone(original: PxPoint, x: Int32, y: Int32) returns (moved: PxPoint)
    ensures fresh(moved) && moved != original
    ensures moved.x == x && moved.y == y
    ensures original.x == old(original.x) && original.y == old(original.y)
  {
    moved := original.Clone();
    moved.SetX(x);
    moved.SetY(y);
  }
}
