/**
 * Shapes that are made by copying a registered prototype. Circle and
 * Rectangle share a colour and a position; a circle has a radius, a rectangle
 * a width and a height. Both subclasses are one class here, told apart by the
 * constant kind; the dimensions a kind does not have stay 0. A colour never
 * set is null, None here.
 */
module PrototypePattern {
  import opened Wrappers

  datatype Kind = Circle | Rectangle

  /** Every field of a shape at one moment. */
  datatype Looks = Looks(kind: Kind, color: Option<string>, x: int, y: int, radius: int, width: int, height: int)

  /** A shape made with the no-argument constructor, or copied from null. */
  function Blank(kind: Kind): (r: Looks)
    ensures r.kind == kind && r.color == None && r.x == 0 && r.y == 0
    ensures r.radius == 0 && r.width == 0 && r.height == 0
  {
    Looks(kind, None, 0, 0, 0, 0, 0)
  }

  class Shape {
    const kind: Kind
    var color: Option<string>
    var x: int
    var y: int
    var radius: int
    var width: int
    var height: int

    function State(): Looks
      reads this
    {
      Looks(kind, color, x, y, radius, width, height)
    }

    /** new Circle() or new Rectangle(). */
    constructor (kind: Kind)
      ensures State() == Blank(kind)
    {
      this.kind := kind;
      color := None;
      x, y := 0, 0;
      radius, width, height := 0, 0, 0;
    }

    /**
     * The copy constructors Circle(Circle) and Rectangle(Rectangle): every
     * field of a non-null source, or the blank shape for null.
     */
    constructor Copy(kind: Kind, source: Shape?)
      requires source != null ==> source.kind == kind
      ensures source != null ==> State() == source.State()
      ensures source == null ==> State() == Blank(kind)
    {
      this.kind := kind;
      if source != null {
        color := source.color;
        x, y := source.x, source.y;
        radius, width, height := source.radius, source.width, source.height;
      } else {
        color := None;
        x, y := 0, 0;
        radius, width, height := 0, 0, 0;
      }
    }

    /** clone: a new shape of the same kind with the same fields. */
    method Clone() returns (c: Shape)
      ensures fresh(c) && c.State() == State()
    {
      c := new Shape.Copy(kind, this);
    }

    method SetColor(color: string)
      modifies this
      ensures State() == old(State()).(color := Some(color))
    {
      this.color := Some(color);
    }

    method SetPosition(x: int, y: int)
      modifies this
      ensures State() == old(State()).(x := x, y := y)
    {
      this.x, this.y := x, y;
    }

    /** setRadius exists on circles only. */
    method SetRadius(radius: int)
      requires kind == Circle
      modifies this
      ensures State() == old(State()).(radius := radius)
    {
      this.radius := radius;
    }

    /** setSize exists on rectangles only. */
    method SetSize(width: int, height: int)
      requires kind == Rectangle
      modifies this
      ensures State() == old(State()).(width := width, height := height)
    {
      this.width, this.height := width, height;
    }
  }

  /** The registry: prototypes by key. A key may be registered with null. */
  class ShapeRegistry {
    var prototypes: map<string, Shape?>

    constructor ()
      ensures prototypes == map[]
    {
      prototypes := map[];
    }

    /** registerPrototype: the key now maps to this prototype, replacing any earlier one. */
    method RegisterPrototype(key: string, prototype: Shape?)
      modifies this
      ensures prototypes == old(prototypes)[key := prototype]
    {
      prototypes := prototypes[key := prototype];
    }

    /**
     * createShape: a fresh clone of the prototype under the key, never the
     * prototype itself; an error when the key is unknown or holds null.
     */
    method CreateShape(key: string) returns (r: Result<Shape, string>)
      ensures r.Ok? <==> key in prototypes && prototypes[key] != null
      ensures r.Ok? ==> fresh(r.value) && r.value.State() == prototypes[key].State()
      ensures r.Err? ==> r.error == "Prototype not found: " + key
    {
      var prototype: Shape? := if key in prototypes then prototypes[key] else null;
      if prototype != null {
        var c := prototype.Clone();
        return Ok(c);
      }
      r := Err("Prototype not found: " + key);
    }
  }

  /** The demonstration's three keys are distinct. */
  lemma DemoKeys()
    ensures "blue-circle" != "red-rectangle"
    ensures "green-triangle" != "blue-circle" && "green-triangle" != "red-rectangle"
  {
    assert "blue-circle"[0] != "red-rectangle"[0];
    assert "green-triangle"[0] != "blue-circle"[0] && "green-triangle"[0] != "red-rectangle"[0];
  }

  /** The demonstration's registry: a blue circle and a red rectangle. */
  method DemoRegistry() returns (registry: ShapeRegistry, blueCircle: Shape, redRectangle: Shape)
    ensures fresh(registry) && fresh(blueCircle) && fresh(redRectangle)
    ensures blueCircle.State() == Looks(Circle, Some("Blue"), 10, 20, 15, 0, 0)
    ensures redRectangle.State() == Looks(Rectangle, Some("Red"), 30, 40, 0, 100, 50)
    ensures registry.prototypes == map["blue-circle" := blueCircle, "red-rectangle" := redRectangle]
  {
    registry := new ShapeRegistry();

    blueCircle := new Shape(Circle);
    blueCircle.SetColor("Blue");
    blueCircle.SetPosition(10, 20);
    blueCircle.SetRadius(15);
    registry.RegisterPrototype("blue-circle", blueCircle);

    redRectangle := new Shape(Rectangle);
    redRectangle.SetColor("Red");
    redRectangle.SetPosition(30, 40);
    redRectangle.SetSize(100, 50);
    registry.RegisterPrototype("red-rectangle", redRectangle);
  }

  /**
   * The demonstration's three copies, each made from a registered prototype
   * and then changed. Nothing existing is modified: only the fresh clones are.
   */
  method DemoCopies(registry: ShapeRegistry, blueCircle: Shape, redRectangle: Shape)
    returns (copy1: Looks, copy2: Looks, copy3: Looks)
    requires registry.prototypes == map["blue-circle" := blueCircle, "red-rectangle" := redRectangle]
    requires blueCircle.State() == Looks(Circle, Some("Blue"), 10, 20, 15, 0, 0)
    requires redRectangle.State() == Looks(Rectangle, Some("Red"), 30, 40, 0, 100, 50)
    ensures copy1 == Looks(Circle, Some("Blue"), 50, 60, 25, 0, 0)
    ensures copy2 == Looks(Circle, Some("Green"), 70, 80, 15, 0, 0)
    ensures copy3 == Looks(Rectangle, Some("Yellow"), 30, 40, 0, 150, 75)
  {
    DemoKeys();
    var r1 := registry.CreateShape("blue-circle");
    var clonedCircle1 := r1.value;
    clonedCircle1.SetPosition(50, 60);
    clonedCircle1.SetRadius(25);
    copy1 := clonedCircle1.State();

    var r2 := registry.CreateShape("blue-circle");
    var clonedCircle2 := r2.value;
    clonedCircle2.SetColor("Green");
    clonedCircle2.SetPosition(70, 80);
    copy2 := clonedCircle2.State();

    var r3 := registry.CreateShape("red-rectangle");
    var clonedRectangle := r3.value;
    clonedRectangle.SetColor("Yellow");
    clonedRectangle.SetSize(150, 75);
    copy3 := clonedRectangle.State();
  }

  /**
   * The demonstration: three shapes are made from the registered prototypes
   * and changed. The prototypes keep their fields throughout, and an unknown
   * key is refused.
   */
  method PrototypeScenario() returns (circle: Looks, rectangle: Looks, copy1: Looks, copy2: Looks,
                                     copy3: Looks, unknown: bool)
    ensures circle == Looks(Circle, Some("Blue"), 10, 20, 15, 0, 0)
    ensures rectangle == Looks(Rectangle, Some("Red"), 30, 40, 0, 100, 50)
    ensures copy1 == Looks(Circle, Some("Blue"), 50, 60, 25, 0, 0)
    ensures copy2 == Looks(Circle, Some("Green"), 70, 80, 15, 0, 0)
    ensures copy3 == Looks(Rectangle, Some("Yellow"), 30, 40, 0, 150, 75)
    ensures unknown
  {
    var registry, blueCircle, redRectangle := DemoRegistry();
    copy1, copy2, copy3 := DemoCopies(registry, blueCircle, redRectangle);
    DemoKeys();
    var r4 := registry.CreateShape("green-triangle");
    unknown := r4.Err?;
    circle, rectangle := blueCircle.State(), redRectangle.State();
  }
}
