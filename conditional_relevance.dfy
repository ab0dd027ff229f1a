/** Conditional relevance: a behaviour selected by a flag versus two named behaviours, and a
    record whose fields matter only for some tag values versus a tagged union whose variants
    carry exactly the fields they need. */
module ConditionalRelevance {
  import opened Effects

  /** What the secret variant appends to the colour. */
  const SecretSuffix: string := ".secret"

  /** declarativeMethodA: logs the colour as given. */
  function DeclarativeMethodA(favoriteColor: string): (log: seq<string>)
    ensures |log| == 1 && log[0] == favoriteColor
  {
    [favoriteColor]
  }

  /** declarativeMethodAWithSecret: logs one line made of the colour followed by ".secret". */
  function DeclarativeMethodAWithSecret(favoriteColor: string): (log: seq<string>)
    ensures |log| == 1 && |log[0]| == |favoriteColor| + |SecretSuffix|
    ensures log[0][..|favoriteColor|] == favoriteColor && log[0][|favoriteColor|..] == SecretSuffix
  {
    [favoriteColor + SecretSuffix]
  }

  /** opaqueMethodsAAndAWithSecret: the flag picks one of the two behaviours above; `x` is
      never read. */
  function OpaqueMethodsAAndAWithSecret(favoriteColor: string, selector: bool, x: real): (log: seq<string>)
    ensures selector ==> log == DeclarativeMethodAWithSecret(favoriteColor)
    ensures !selector ==> log == DeclarativeMethodA(favoriteColor)
  {
    if selector then [favoriteColor + SecretSuffix] else [favoriteColor]
  }

  /** The unused parameter never changes the output. */
  lemma OpaqueMethodsIgnoreX(favoriteColor: string, selector: bool, x: real, y: real)
    ensures OpaqueMethodsAAndAWithSecret(favoriteColor, selector, x)
         == OpaqueMethodsAAndAWithSecret(favoriteColor, selector, y)
  {
  }

  /** The enum ShapeOrColor. */
  datatype ShapeOrColor = Shape | Color

  /** The nested `shapeDefinition` object. */
  datatype ShapeDefinition = ShapeDefinition(coolnessOfTheShape: real)

  /** FavoriteColorOrFavoriteShapeAsOpaquePolymorphism: a tag and three optional fields, each
      relevant to one tag only. */
  datatype OpaqueRecord = OpaqueRecord(
    shapeOrColor: ShapeOrColor,
    color: Option<string>,
    shapeName: Option<string>,
    shapeDefinition: Option<ShapeDefinition>)

  /** A value handed to `console.log` by the processors: a number or a string. */
  datatype Logged = Num(n: real) | Text(s: string)

  const ShapeDefinitionRequired: string := "shapeDefinition required for favorite shape"
  const ColorRequired: string := "color required for favorite color"

  /** JavaScript truthiness of an optional string: present and not empty. */
  predicate Truthy(s: Option<string>)
  {
    s.Some? && s.value != ""
  }

  /** methodProcessingOpaquePolymorphic: checks at run time that the field the tag needs is
      there and throws when it is not. A present `shapeDefinition` is an object, so it is
      always truthy. */
  function MethodProcessingOpaquePolymorphic(o: OpaqueRecord): (trace: seq<Event<Logged>>)
    ensures |trace| == 1
    ensures trace[0].Throw? <==>
      (o.shapeOrColor == Shape && o.shapeDefinition.None?) || (o.shapeOrColor == Color && !Truthy(o.color))
    ensures trace[0].Throw? ==>
      trace[0].message == if o.shapeOrColor == Shape then ShapeDefinitionRequired else ColorRequired
    ensures trace[0].Log? && o.shapeOrColor == Shape ==>
      trace[0].line == Num(o.shapeDefinition.value.coolnessOfTheShape)
    ensures trace[0].Log? && o.shapeOrColor == Color ==> trace[0].line == Text(o.color.value)
  {
    match o.shapeOrColor
    case Shape =>
      if o.shapeDefinition.None? then [Throw(ShapeDefinitionRequired)]
      else [Log(Num(o.shapeDefinition.value.coolnessOfTheShape))]
    case Color =>
      if !Truthy(o.color) then [Throw(ColorRequired)]
      else [Log(Text(o.color.value))]
  }

  /** The opaque processor reads only the fields relevant to the tag: never `shapeName`,
      never `color` for a shape, never the shape fields for a colour. */
  lemma OpaqueReadsOnlyRelevantFields(o: OpaqueRecord, color: Option<string>, name: Option<string>, def: Option<ShapeDefinition>)
    ensures MethodProcessingOpaquePolymorphic(o.(shapeName := name)) == MethodProcessingOpaquePolymorphic(o)
    ensures o.shapeOrColor == Shape ==>
      MethodProcessingOpaquePolymorphic(o.(color := color)) == MethodProcessingOpaquePolymorphic(o)
    ensures o.shapeOrColor == Color ==>
      MethodProcessingOpaquePolymorphic(o.(shapeDefinition := def)) == MethodProcessingOpaquePolymorphic(o)
  {
  }

  /** The module-level call: a shape tag and a name but no definition. */
  const ModuleExample: OpaqueRecord := OpaqueRecord(Shape, None, Some("square"), None)

  /** That call throws. */
  lemma ModuleExampleThrows()
    ensures MethodProcessingOpaquePolymorphic(ModuleExample) == [Throw(ShapeDefinitionRequired)]
  {
  }

  /** FavoriteColorOrFavoriteShapeAsDeclarativePolymorphism: each variant carries, as required
      fields, exactly what its tag needs. */
  datatype DeclarativeRecord =
    | FavoriteColor(color: string)
    | FavoriteShape(shapeName: string, shapeDefinition: ShapeDefinition)

  /** methodProcessingDeclarativePolymorphic: never throws; logs the coolness of a shape or the
      colour. */
  function MethodProcessingDeclarativePolymorphic(d: DeclarativeRecord): (trace: seq<Event<Logged>>)
    ensures |trace| == 1 && trace[0].Log?
    ensures d.FavoriteShape? ==> trace[0].line == Num(d.shapeDefinition.coolnessOfTheShape)
    ensures d.FavoriteColor? ==> trace[0].line == Text(d.color)
  {
    match d
    case FavoriteShape(_, def) => [Log(Num(def.coolnessOfTheShape))]
    case FavoriteColor(c) => [Log(Text(c))]
  }

  /** A declarative value seen through the opaque type: same tag, same fields, the other
      variant's fields absent. */
  function Embed(d: DeclarativeRecord): OpaqueRecord
  {
    match d
    case FavoriteColor(c) => OpaqueRecord(Color, Some(c), None, None)
    case FavoriteShape(n, def) => OpaqueRecord(Shape, None, Some(n), Some(def))
  }

  /** On every value the declarative type admits, the opaque processor behaves the same, except
      for an empty colour, which its truthiness test rejects. */
  lemma EmbeddedAgreesExceptEmptyColor(d: DeclarativeRecord)
    ensures MethodProcessingOpaquePolymorphic(Embed(d)) ==
      if d == FavoriteColor("") then [Throw(ColorRequired)] else MethodProcessingDeclarativePolymorphic(d)
  {
  }

  /** A witness that the processors are not equivalent on the shared values: the empty colour,
      the one exception EmbeddedAgreesExceptEmptyColor allows. */
  lemma EmbeddedCanDisagree()
    ensures exists d: DeclarativeRecord ::
      MethodProcessingOpaquePolymorphic(Embed(d)) != MethodProcessingDeclarativePolymorphic(d)
  {
    var empty := FavoriteColor("");
    EmbeddedAgreesExceptEmptyColor(empty);
    assert MethodProcessingOpaquePolymorphic(Embed(empty)) != MethodProcessingDeclarativePolymorphic(empty);
  }

  /** Conversely, whatever the opaque processor logs without throwing, the declarative one logs
      for some declarative value: its checks recover the declarative type. */
  lemma OpaqueSuccessIsDeclarative(o: OpaqueRecord)
    requires MethodProcessingOpaquePolymorphic(o)[0].Log?
    ensures exists d: DeclarativeRecord ::
      MethodProcessingDeclarativePolymorphic(d) == MethodProcessingOpaquePolymorphic(o)
  {
    var d := match o.shapeOrColor
      case Shape => FavoriteShape("", o.shapeDefinition.value)
      case Color => FavoriteColor(o.color.value);
    assert MethodProcessingDeclarativePolymorphic(d) == MethodProcessingOpaquePolymorphic(o);
  }
}
