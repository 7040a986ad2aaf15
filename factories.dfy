/**
 * The factories of the five basic primitives. Each builds the constructor
 * arguments of a leaf object and so fixes the order of that kind's
 * parameters; the lemmas say where each argument lands in the record.
 */
module Factories {
  import opened Objects
  import opened Packing

  /** The point stored in three consecutive slots starting at `i`. */
  function PointAt(s: seq<Float>, i: nat): (p: Vec3)
    requires i + 3 <= |s|
    ensures [p.x, p.y, p.z] == s[i..i + 3]
  {
    Vec3(s[i], s[i + 1], s[i + 2])
  }

  /** The coordinates of a point, in the order x, y, z. */
  function Coords(p: Vec3): (s: seq<Float>)
    ensures |s| == 3 && PointAt(s, 0) == p
  {
    [p.x, p.y, p.z]
  }

  /** The record of the leaf object built from `init`. */
  function Packed(init: Initializer): (rec: seq<Float>)
    requires |init.args| <= PARAM_SLOTS
    ensures |rec| == RECORD_LENGTH
  {
    Record(init.kind, init.color, Slots(init.args))
  }

  function CreateSphere(center: Vec3, color: Color, radius: Float): (init: Initializer)
    ensures init.kind == Sphere && init.color == color && |init.args| == 4
    ensures PointAt(init.args, 0) == center && init.args[3] == radius
  {
    Initializer(Sphere, color, Coords(center) + [radius])
  }

  function CreateCone(center: Vec3, color: Color, vertex: Vec3, radius: Float): (init: Initializer)
    ensures init.kind == Cone && init.color == color && |init.args| == 7
    ensures PointAt(init.args, 0) == center && PointAt(init.args, 3) == vertex
    ensures init.args[6] == radius
  {
    Initializer(Cone, color, Coords(center) + Coords(vertex) + [radius])
  }

  function CreateCylinder(center1: Vec3, color: Color, center2: Vec3, radius: Float,
                          height: Float): (init: Initializer)
    ensures init.kind == Cylinder && init.color == color && |init.args| == 8
    ensures PointAt(init.args, 0) == center1 && PointAt(init.args, 3) == center2
    ensures init.args[6..] == [radius, height]
  {
    Initializer(Cylinder, color, Coords(center1) + Coords(center2) + [radius, height])
  }

  function CreateCuboid(vertex: Vec3, color: Color, length: Float, width: Float,
                        height: Float): (init: Initializer)
    ensures init.kind == Cuboid && init.color == color && |init.args| == 6
    ensures PointAt(init.args, 0) == vertex && init.args[3..] == [length, width, height]
  {
    Initializer(Cuboid, color, Coords(vertex) + [length, width, height])
  }

  function CreateTetrahedron(vertex1: Vec3, color: Color, vertex2: Vec3, vertex3: Vec3,
                             vertex4: Vec3): (init: Initializer)
    ensures init.kind == Tetrahedron && init.color == color && |init.args| == PACKED_PARAMS
    ensures PointAt(init.args, 0) == vertex1 && PointAt(init.args, 3) == vertex2
    ensures PointAt(init.args, 6) == vertex3 && PointAt(init.args, 9) == vertex4
  {
    Initializer(Tetrahedron, color,
                Coords(vertex1) + Coords(vertex2) + Coords(vertex3) + Coords(vertex4))
  }

  /** An object built from at most 12 parameters loses nothing in its record:
      reading it back gives the kind, the colour and the parameters, padded
      with zeros to 12. */
  lemma PackedRoundTrip(init: Initializer)
    requires |init.args| <= PACKED_PARAMS
    ensures Unpack(Packed(init))
            == Some(Initializer(init.kind, init.color,
                                init.args + Zeros(PACKED_PARAMS - |init.args|)))
  {
    var slots := Slots(init.args);
    UnpackRecord(init.kind, init.color, slots);
    assert slots[..PACKED_PARAMS] == init.args + Zeros(PACKED_PARAMS - |init.args|);
  }

  /** Sphere: tag 0, the centre in slots 5..7, the radius in slot 8, the rest zero. */
  lemma SphereRecord(center: Vec3, color: Color, radius: Float)
    ensures var rec := Packed(CreateSphere(center, color, radius));
            rec[0] == 0.0 && rec[1..PARAMS_OFFSET] == Components(color)
            && PointAt(rec, 5) == center && rec[8] == radius
            && forall i :: 9 <= i < RECORD_LENGTH ==> rec[i] == 0.0
  {
  }

  /** Cone: tag 1, the centre in slots 5..7, the vertex in 8..10, the radius
      in 11, the rest zero. */
  lemma ConeRecord(center: Vec3, color: Color, vertex: Vec3, radius: Float)
    ensures var rec := Packed(CreateCone(center, color, vertex, radius));
            rec[0] == 1.0 && rec[1..PARAMS_OFFSET] == Components(color)
            && PointAt(rec, 5) == center && PointAt(rec, 8) == vertex && rec[11] == radius
            && forall i :: 12 <= i < RECORD_LENGTH ==> rec[i] == 0.0
  {
  }

  /** Cylinder: tag 2, the two centres in slots 5..7 and 8..10, the radius in
      11, the height in 12, the rest zero. */
  lemma CylinderRecord(center1: Vec3, color: Color, center2: Vec3, radius: Float, height: Float)
    ensures var rec := Packed(CreateCylinder(center1, color, center2, radius, height));
            rec[0] == 2.0 && rec[1..PARAMS_OFFSET] == Components(color)
            && PointAt(rec, 5) == center1 && PointAt(rec, 8) == center2
            && rec[11] == radius && rec[12] == height
            && forall i :: 13 <= i < RECORD_LENGTH ==> rec[i] == 0.0
  {
  }

  /** Cuboid: tag 3, the vertex in slots 5..7, length, width and height in
      8..10, and no angles: the rest is zero. */
  lemma CuboidRecord(vertex: Vec3, color: Color, length: Float, width: Float, height: Float)
    ensures var rec := Packed(CreateCuboid(vertex, color, length, width, height));
            rec[0] == 3.0 && rec[1..PARAMS_OFFSET] == Components(color)
            && PointAt(rec, 5) == vertex && rec[8..11] == [length, width, height]
            && forall i :: 11 <= i < RECORD_LENGTH ==> rec[i] == 0.0
  {
  }

  /** Tetrahedron: tag 4 and its four vertices, in argument order, fill all
      12 serialised slots, so the record reads back to exactly the factory's
      result and each vertex is found at slot 5 + 3k. */
  lemma TetrahedronRecord(vertex1: Vec3, color: Color, vertex2: Vec3, vertex3: Vec3, vertex4: Vec3)
    ensures var init := CreateTetrahedron(vertex1, color, vertex2, vertex3, vertex4);
            var rec := Packed(init);
            Unpack(rec) == Some(init) && rec[0] == 4.0
            && PointAt(rec, 5) == vertex1 && PointAt(rec, 8) == vertex2
            && PointAt(rec, 11) == vertex3 && PointAt(rec, 14) == vertex4
  {
  }

  /** Builds the leaf object that `init` describes, children omitted, and
      packs it. */
  method PackNew(init: Initializer) returns (rec: seq<Float>)
    requires |init.args| <= PARAM_SLOTS
    ensures rec == Packed(init)
  {
    var obj := new Object(init.kind, init.color, init.args);
    rec := PackObjectToTextureData(obj);
  }
}
