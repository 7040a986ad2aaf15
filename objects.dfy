/**
 * The scene-object data model of the ray-marching renderer: the tag of every
 * object kind, the colour quadruple and the object record with its 28
 * parameter slots, child links and stack-order annotations.
 */
module Objects {

  /** A single-precision float of the source. Values are only copied, never
      computed on, so they are modelled as exact reals. */
  type Float = real

  datatype Option<T> = None | Some(value: T)

  /** A `glm::vec3`, taken as a plain triple. */
  datatype Vec3 = Vec3(x: Float, y: Float, z: Float)

  /** Number of values of the object-kind enumeration. */
  const OBJECT_TYPE_COUNT: nat := 12
  /** Number of parameter slots every object carries. */
  const PARAM_SLOTS: nat := 28

  /** The object kinds, in the order of their declaration: the position in
      this list is the tag written on the wire. */
  datatype ObjectType =
    | Sphere | Cone | Cylinder | Cuboid | Tetrahedron
    | Intersection | Union | Difference
    | Plane | MengerSponge | Mandelbulb | JuliaSet3D

  /** The five primitives that precede the operators in the enumeration. */
  predicate IsBasicPrimitive(t: ObjectType) {
    t.Sphere? || t.Cone? || t.Cylinder? || t.Cuboid? || t.Tetrahedron?
  }

  /** The boolean operators, the only kinds that combine two children. */
  predicate IsOperator(t: ObjectType) {
    t.Intersection? || t.Union? || t.Difference?
  }

  /** The ordinal of a kind in the enumeration, which is its wire tag. */
  function Tag(t: ObjectType): (n: nat)
    ensures n < OBJECT_TYPE_COUNT
    ensures IsBasicPrimitive(t) <==> n < 5
    ensures IsOperator(t) <==> 5 <= n <= 7
  {
    match t
    case Sphere => 0
    case Cone => 1
    case Cylinder => 2
    case Cuboid => 3
    case Tetrahedron => 4
    case Intersection => 5
    case Union => 6
    case Difference => 7
    case Plane => 8
    case MengerSponge => 9
    case Mandelbulb => 10
    case JuliaSet3D => 11
  }

  /** The kind whose ordinal is `n`, if there is one. */
  function FromTag(n: int): (r: Option<ObjectType>)
    ensures r.Some? <==> 0 <= n < OBJECT_TYPE_COUNT
    ensures r.Some? ==> Tag(r.value) == n
  {
    if n == 0 then Some(Sphere)
    else if n == 1 then Some(Cone)
    else if n == 2 then Some(Cylinder)
    else if n == 3 then Some(Cuboid)
    else if n == 4 then Some(Tetrahedron)
    else if n == 5 then Some(Intersection)
    else if n == 6 then Some(Union)
    else if n == 7 then Some(Difference)
    else if n == 8 then Some(Plane)
    else if n == 9 then Some(MengerSponge)
    else if n == 10 then Some(Mandelbulb)
    else if n == 11 then Some(JuliaSet3D)
    else None
  }

  /** The ordinals fixed by the declaration order. */
  lemma TagValues()
    ensures Tag(Sphere) == 0 && Tag(Cone) == 1 && Tag(Cylinder) == 2
    ensures Tag(Cuboid) == 3 && Tag(Tetrahedron) == 4
    ensures Tag(Intersection) == 5 && Tag(Union) == 6 && Tag(Difference) == 7
    ensures Tag(Plane) == 8 && Tag(MengerSponge) == 9
    ensures Tag(Mandelbulb) == 10 && Tag(JuliaSet3D) == 11
  {
  }

  /** Every kind is recovered from its tag. */
  lemma TagRoundTrip(t: ObjectType)
    ensures FromTag(Tag(t)) == Some(t)
  {
  }

  /** No two kinds share a tag. */
  lemma TagsDistinct(s: ObjectType, t: ObjectType)
    ensures Tag(s) == Tag(t) <==> s == t
  {
  }

  /** A colour: red, green, blue and alpha. */
  datatype Color = Color(r: Float, g: Float, b: Float, a: Float)

  /** The components of a colour in their declaration order. */
  function Components(c: Color): (s: seq<Float>)
    ensures |s| == 4
  {
    [c.r, c.g, c.b, c.a]
  }

  /** The colour whose components, in order, are `s`. */
  function ColorOf(s: seq<Float>): (c: Color)
    requires |s| == 4
    ensures Components(c) == s
  {
    Color(s[0], s[1], s[2], s[3])
  }

  /** A colour is exactly its four components, in the order r, g, b, a:
      reading the components back gives the same colour. */
  lemma ColorRoundTrip(c: Color)
    ensures ColorOf(Components(c)) == c
  {
  }

  /** `n` zero-valued floats. */
  function Zeros(n: nat): (s: seq<Float>)
    ensures |s| == n && forall i :: 0 <= i < n ==> s[i] == 0.0
  {
    seq(n, _ => 0.0)
  }

  /** The parameter slots of an object built from the initializer list
      `args`: the list in order, then zeros up to 28 slots. */
  function Slots(args: seq<Float>): (s: seq<Float>)
    requires |args| <= PARAM_SLOTS
    ensures |s| == PARAM_SLOTS
    ensures s[..|args|] == args
    ensures forall i :: |args| <= i < PARAM_SLOTS ==> s[i] == 0.0
  {
    args + Zeros(PARAM_SLOTS - |args|)
  }

  /** The arguments of the object constructor: a kind, a colour and the
      initializer list of parameters. */
  datatype Initializer = Initializer(kind: ObjectType, color: Color, args: seq<Float>)

  /**
   * A scene object: a primitive or an operator node of the CSG tree. Its
   * fields are changed in place after construction (by the transforms and
   * the tree analysis, which are not part of this model).
   */
  class Object {
    var kind: ObjectType
    var color: Color
    /** The fixed-size parameter block; its meaning depends on `kind`. */
    const posArgs: array<Float>
    var left: Object?
    var right: Object?
    /** Non-owning back-link to the operator that holds this object. */
    var parent: Object?
    /** Stack-order annotations, meaningful only after the tree analysis. */
    var maxStackLength: int
    var firstLeft: bool

    /** Every object has exactly 28 parameter slots. */
    ghost predicate Valid()
      reads this
    {
      posArgs.Length == PARAM_SLOTS
    }

    /** The parameters as a sequence. */
    function Params(): (s: seq<Float>)
      reads this, posArgs
      requires Valid()
      ensures |s| == PARAM_SLOTS
    {
      posArgs[..]
    }

    /**
     * Builds an object of the given kind and colour. The slots start at
     * zero (the field's default initializer), and children that are not
     * supplied are null, so a leaf is built by omitting them.
     * Assumed, since dev/objects.cpp does not define the body: the
     * initializer list is copied into the slots in order, so it may not be
     * longer than the 28 slots it is copied into.
     */
    constructor (kind: ObjectType, color: Color, args: seq<Float>,
                 left: Object? := null, right: Object? := null)
      requires |args| <= PARAM_SLOTS
      ensures Valid() && fresh(posArgs)
      ensures this.kind == kind && this.color == color
      ensures Params() == Slots(args)
      ensures this.left == left && this.right == right && parent == null
      ensures maxStackLength == 0 && firstLeft
    {
      var slots := new Float[PARAM_SLOTS](_ => 0.0);
      for i := 0 to |args|
        invariant slots[..i] == args[..i]
        invariant forall j :: i <= j < PARAM_SLOTS ==> slots[j] == 0.0
      {
        slots[i] := args[i];
      }
      this.kind := kind;
      this.color := color;
      posArgs := slots;
      this.left := left;
      this.right := right;
      parent := null;
      maxStackLength := 0;
      firstLeft := true;
      new;
      assert slots[..] == Slots(args);
    }
  }
}
