/** The closed shape model: a discriminated union of a rectangle and a circle, its list of
    designators, and the two ways of dispatching on it (a switch and a visitor). */
module Polymorphics {

  /** The enum EPolymorphicShape, members in declaration order. */
  datatype Designator = Rectangle | Circle

  /** The number TypeScript gives each enum member: its position in the declaration. */
  function Ordinal(d: Designator): nat
  {
    match d
    case Rectangle => 0
    case Circle => 1
  }

  /** CPolymorphicShape: the enum's keys in an iterable list. */
  const Designators: seq<Designator> := [Rectangle, Circle]

  /** The list names every enum member exactly once, each at the position it is declared at. */
  lemma DesignatorsListEnum()
    ensures forall d: Designator :: Ordinal(d) < |Designators| && Designators[Ordinal(d)] == d
    ensures forall i :: 0 <= i < |Designators| ==> Ordinal(Designators[i]) == i
    ensures forall d: Designator :: multiset(Designators)[d] == 1
  {
    forall d: Designator ensures multiset(Designators)[d] == 1 {
      assert Designators == [Rectangle] + [Circle];
      assert multiset(Designators) == multiset([Rectangle]) + multiset([Circle]);
      match d {
        case Rectangle => assert multiset([Circle])[d] == 0;
        case Circle => assert multiset([Rectangle])[d] == 0;
      }
    }
  }

  /** SPolymorphicShapeRectangle's own fields. */
  datatype RectangleShape = RectangleShape(halfWidth: real, halfHeight: real)

  /** SPolymorphicShapeCircle's own fields. */
  datatype CircleShape = CircleShape(radius: real)

  /** UPolymorphicShape: a shape is exactly one of the two variants, and carries only that
      variant's fields. */
  datatype Shape = RectangleVariant(rectangle: RectangleShape) | CircleVariant(circle: CircleShape)
  {
    /** The `shapeDesignator` field. */
    function ShapeDesignator(): Designator
    {
      match this
      case RectangleVariant(_) => Rectangle
      case CircleVariant(_) => Circle
    }
  }

  /** VPolymorphicShape<T>: one callback per variant, each given the narrowed shape. */
  datatype Visitor<T> = Visitor(visitSquare: RectangleShape -> T, visitCircle: CircleShape -> T)

  /** `accept`: hand the shape to the callback matching its designator and return that
      callback's result. */
  function Accept<T>(shape: Shape, visitor: Visitor<T>): (r: T)
    ensures shape.ShapeDesignator() == Rectangle ==> r == visitor.visitSquare(shape.rectangle)
    ensures shape.ShapeDesignator() == Circle ==> r == visitor.visitCircle(shape.circle)
  {
    match shape
    case RectangleVariant(rect) => visitor.visitSquare(rect)
    case CircleVariant(circ) => visitor.visitCircle(circ)
  }

  /** A visitor whose callbacks only report which of them ran. */
  function Recorder(): Visitor<Designator>
  {
    Visitor(_ => Rectangle, _ => Circle)
  }

  /** `accept` runs the callback of the shape's own variant and no other. */
  lemma AcceptRunsMatchingCallback(shape: Shape)
    ensures Accept(shape, Recorder()) == shape.ShapeDesignator()
  {
  }

  /** Only the callback for the shape's own variant matters: two visitors that agree on it give
      the same result, whatever their other callback does. */
  lemma AcceptIgnoresOtherCallback<T>(shape: Shape, v: Visitor<T>, w: Visitor<T>)
    requires shape.RectangleVariant? ==> v.visitSquare == w.visitSquare
    requires shape.CircleVariant? ==> v.visitCircle == w.visitCircle
    ensures Accept(shape, v) == Accept(shape, w)
  {
  }

  /** getWidthX2: twice what the shape's own `getWidth()` returns. `getWidth` is declared but
      not implemented by the source, so it is a parameter here. */
  function GetWidthX2(shape: Shape, getWidth: Shape -> real): (r: real)
    ensures r / 2.0 == getWidth(shape)
  {
    getWidth(shape) * 2.0
  }

  /** One logged info line, as structured data rather than the rendered template. */
  datatype InfoLine = WidthHeight(width: real, height: real) | Radius(radius: real)

  /** printInfo: the switch on the designator; its log. */
  function PrintInfo(shape: Shape): (log: seq<InfoLine>)
    ensures |log| == 1
    ensures log[0].WidthHeight? <==> shape.ShapeDesignator() == Rectangle
  {
    match shape.ShapeDesignator()
    case Rectangle =>
      [WidthHeight(shape.rectangle.halfWidth * 2.0, shape.rectangle.halfHeight * 2.0)]
    case Circle =>
      [Radius(shape.circle.radius)]
  }

  /** The shape a logged info line describes: full sizes halved back, the radius as logged. */
  function DescribedShape(line: InfoLine): Shape
  {
    match line
    case WidthHeight(w, h) => RectangleVariant(RectangleShape(w / 2.0, h / 2.0))
    case Radius(r) => CircleVariant(CircleShape(r))
  }

  /** A rectangle logs its full width and height (twice the halves); a circle logs its radius
      unchanged. */
  lemma PrintInfoSizes(shape: Shape)
    ensures shape.RectangleVariant? ==>
      PrintInfo(shape)[0].width == 2.0 * shape.rectangle.halfWidth &&
      PrintInfo(shape)[0].height == 2.0 * shape.rectangle.halfHeight
    ensures shape.CircleVariant? ==> PrintInfo(shape)[0].radius == shape.circle.radius
  {
  }

  /** The logged line determines the shape: no two shapes print the same info. */
  lemma PrintInfoDescribesShape(shape: Shape)
    ensures DescribedShape(PrintInfo(shape)[0]) == shape
  {
  }

  /** The inline callback record of printInfoUsingPrintingVisitor. */
  function PrintingVisitor(): Visitor<seq<InfoLine>>
  {
    Visitor(
      (rect: RectangleShape) => [WidthHeight(rect.halfWidth * 2.0, rect.halfHeight * 2.0)],
      (circ: CircleShape) => [Radius(circ.radius)])
  }

  /** printInfoUsingPrintingVisitor: the same log as the switch, for every shape. */
  function PrintInfoUsingPrintingVisitor(shape: Shape): (log: seq<InfoLine>)
    ensures log == PrintInfo(shape)
  {
    Accept(shape, PrintingVisitor())
  }

  /** The two worked examples: a 2 by 3 half-size rectangle logs 4 by 6; a circle of radius 5
      logs radius 5. */
  lemma PrintInfoExamples()
    ensures PrintInfo(RectangleVariant(RectangleShape(2.0, 3.0))) == [WidthHeight(4.0, 6.0)]
    ensures PrintInfo(CircleVariant(CircleShape(5.0))) == [Radius(5.0)]
  {
  }
}
