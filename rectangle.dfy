/** The Liskov-substitution example: a rectangle whose two sides are set
    independently of each other. */
module Rectangles {

  class Rectangle {
    var width: int
    var height: int

    constructor (width: int, height: int)
      ensures this.width == width && this.height == height
    {
      this.width := width;
      this.height := height;
    }

    /** Changes the width and nothing else; the area follows the new width. */
    method SetWidth(width: int)
      modifies this
      ensures this.width == width && height == old(height)
      ensures Area() == width * old(height)
    {
      this.width := width;
    }

    /** Changes the height and nothing else; the area follows the new height. */
    method SetHeight(height: int)
      modifies this
      ensures this.height == height && width == old(width)
      ensures Area() == old(width) * height
    {
      this.height := height;
    }

    function Area(): (area: int)
      reads this
      ensures area == 0 <==> width == 0 || height == 0
      ensures width > 0 && height > 0 ==> area >= width && area >= height
    {
      width * height
    }
  }

  /** Widening by one adds one height's worth of area; this is the
      expectation a substitute for Rectangle would have to keep. */
  method IncreaseRectangleWidth(rectangle: Rectangle)
    modifies rectangle
    ensures rectangle.width == old(rectangle.width) + 1
    ensures rectangle.height == old(rectangle.height)
    ensures rectangle.Area() == old(rectangle.Area()) + rectangle.height
  {
    rectangle.SetWidth(rectangle.width + 1);
  }

  /** A 10 by 2 rectangle widened by one has area 22. */
  method WidenedRectangleArea() returns (area: int)
    ensures area == 22
  {
    var rectangle1 := new Rectangle(10, 2);
    IncreaseRectangleWidth(rectangle1);
    area := rectangle1.Area();
  }
}
