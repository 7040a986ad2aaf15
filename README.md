# Scene objects and their texture records

This project models the scene-object layer of a ray-marching CSG renderer:
the twelve object kinds and their wire tags, the colour quadruple, the scene
object with its 28 parameter slots, child and parent links and stack-order
annotations, the five factories of the basic primitives, and the serialiser
that turns one object into a fixed record of 32 floats for the shader.

- `objects.dfy`, module `Objects`: the kind enumeration with its ordinals
  (`Tag`, `FromTag`), `Color`, `Vec3`, and the class `Object` with its
  fields and defaults.
- `packing.dfy`, module `Packing`: the record layout (`Record`), the method
  `PackObjectToTextureData` that fills the record slot by slot, and the
  reading-back function `Unpack` with the round-trip lemmas that show the
  record keeps the kind, the colour and the first 12 parameters.
- `factories.dfy`, module `Factories`: the factories `CreateSphere`,
  `CreateCone`, `CreateCylinder`, `CreateCuboid`, `CreateTetrahedron`, and
  one lemma per kind saying where each argument lands in the record.

Floats are modelled as reals: the code only copies them, never computes on
them. A factory returns the constructor arguments of the object it builds
(`Initializer`: kind, colour, initializer list); `Factories.PackNew` builds
that object with the constructor, children omitted, and packs it.

dev/objects.cpp defines no body for the `Object` constructor declared at
dev/objects.h:43-44. The model assumes it copies the initializer list into
the parameter slots in order and leaves the other slots at their zero default; it therefore requires the list
to fit in the 28 slots.

Where the header's declarations (dev/objects.h:40, 72-104) and
dev/objects.cpp differ, the model follows dev/objects.cpp:
- The cylinder factory takes a `height` after the radius (8 parameters).
- The cuboid factory takes a corner `vertex` and three extents, with no Euler
  angles (6 parameters).
- No factory takes the optional `texture`/`para` suffix.
- The factories are free functions taking the position before the colour,
  and the packer takes the object as an argument; the header declares them
  differently (tree members with the colour first, a packer with no argument).

The enumeration (dev/objects.h:15-17) places the operator tags 5..7 between
the basic primitives (0..4) and the later kinds (8..11), so "tag below the
operator range" does not mean "primitive" for PLANE to JULIA_SET_3D;
`Objects.Tag` states the exact ranges.

## Model

| member | source | states |
|---|---|---|
| Objects.Tag | dev/objects.h:9-22 | every kind's tag lies in 0..11; it is below 5 exactly for SPHERE..TETRAHEDRON and in 5..7 exactly for the three operators |
| Objects.TagValues | dev/objects.h:9-21 | the ordinals SPHERE=0 … TETRAHEDRON=4, INTERSECTION=5, UNION=6, DIFFERENCE=7, PLANE=8 … JULIA_SET_3D=11 |
| Objects.FromTag | dev/objects.h:9-22 | an integer names a kind exactly when it lies in 0..11, and the kind it names has that integer as its tag |
| Objects.TagRoundTrip | dev/objects.h:9-22 | every kind is recovered from its tag |
| Objects.TagsDistinct | dev/objects.h:9-22 | two kinds have the same tag exactly when they are the same kind |
| Objects.Components | dev/objects.h:24-26 | a colour has exactly four components |
| Objects.ColorOf | dev/objects.h:24-26 | the colour built from four floats has those floats as its components, in the order r, g, b, a |
| Objects.ColorRoundTrip | dev/objects.h:24-26 | reading a colour's components back gives the same colour |
| Objects.Slots | dev/objects.h:33 | the slots of an object built from an initializer list are 28, start with the list in order and are zero after it |
| Objects.Object.Params | dev/objects.h:33 | every valid object has exactly 28 parameter slots |
| Objects.Object.constructor | dev/objects.h:31-44 | a new object has the given kind and colour, 28 fresh slots holding the initializer list then zeros, the given children (null when omitted), no parent, `maxStackLength` 0 and `firstLeft` true |
| Packing.Record | dev/objects.cpp:3-14 | a record has 32 slots: the tag as a float in slot 0, r, g, b, a in slots 1..4, parameters 0..11 in slots 5..16 and zeros in slots 17..31 |
| Packing.KindOf | dev/objects.cpp:5 | a float that reads as a kind is that kind's tag |
| Packing.KindOfTag | dev/objects.cpp:5 | every kind is read back from its float-encoded tag |
| Packing.Unpack | dev/objects.cpp:4-12 | a block reads back only if it has 32 slots, and then yields exactly 12 parameters |
| Packing.UnpackRecord | dev/objects.cpp:4-12 | reading a record back gives its kind, its colour and the first 12 parameters of the object |
| Packing.RecordUnpack | dev/objects.cpp:4-12 | every block that reads back is the record of what it reads back to, so the record format has no other valid blocks |
| Packing.RecordInjective | dev/objects.cpp:10-12 | two records are equal exactly when kinds, colours and the first 12 parameters are; parameters 12..27 never reach the record |
| Packing.PackObjectToTextureData | dev/objects.cpp:3-14 | packing returns the record of the object's kind, colour and slots; the object is only read (the method has no modifies clause) |
| Factories.CreateSphere | dev/objects.cpp:16-18 | a sphere has tag SPHERE, the given colour and 4 parameters: the centre's x, y, z, then the radius |
| Factories.CreateCone | dev/objects.cpp:20-22 | a cone has tag CONE, the given colour and 7 parameters: the centre's x, y, z, the vertex's x, y, z, then the radius |
| Factories.CreateCylinder | dev/objects.cpp:24-26 | a cylinder has tag CYLINDER, the given colour and 8 parameters: the first centre's x, y, z, the second centre's x, y, z, the radius, then the height |
| Factories.CreateCuboid | dev/objects.cpp:28-30 | a cuboid has tag CUBOID, the given colour and 6 parameters: the vertex's x, y, z, then length, width and height, with no angles |
| Factories.CreateTetrahedron | dev/objects.cpp:32-34 | a tetrahedron has tag TETRAHEDRON, the given colour and exactly 12 parameters: the x, y, z of vertex1 to vertex4 in argument order |
| Factories.PackedRoundTrip | dev/objects.cpp:3-14 | an object built from at most 12 parameters reads back from its record as its kind, colour and parameters padded with zeros to 12 |
| Factories.SphereRecord | dev/objects.cpp:16-18 | a sphere's record has tag 0, the colour in slots 1..4, the centre in 5..7, the radius in slot 8 and zeros from slot 9 |
| Factories.ConeRecord | dev/objects.cpp:20-22 | a cone's record has tag 1, the centre in 5..7, the vertex in 8..10, the radius in 11 and zeros from slot 12 |
| Factories.CylinderRecord | dev/objects.cpp:24-26 | a cylinder's record has tag 2, the two centres in 5..7 and 8..10, radius in 11, height in 12 and zeros from slot 13 |
| Factories.CuboidRecord | dev/objects.cpp:28-30 | a cuboid's record has tag 3, the vertex in 5..7, length, width, height in 8..10 and zeros from slot 11 (no angles) |
| Factories.TetrahedronRecord | dev/objects.cpp:32-34 | a tetrahedron's record has tag 4, reads back to exactly the factory's result, and holds vertex k at slots 5+3k..7+3k in argument order |
| Factories.PackNew | dev/objects.cpp:3-18 | building a leaf from a factory's result and packing it gives the record of that result |

## Left out

- `translate`, `scale` and `rotate` (dev/objects.h:46-52) are only declared: dev/objects.cpp defines no body for them, so they are not modelled.
- `CSG_tree` (dev/objects.h:55-106): the stack-order analysis, the postorder serialisation of the tree, the tree's own factories (including plane, Menger sponge, Mandelbulb, Julia set and the three operators) and the destructor are only declared: dev/objects.cpp defines no body for them, so they are not modelled.
- Objects.Object.constructor: does not set the `parent` link of the children it is given, and does not require both or neither child; dev/objects.cpp defines no body for it (declared at dev/objects.h:43-44), and the model states only what the field defaults and the initializer list fix.
- Pointer ownership and deletion of objects are not modelled: neither dev/objects.h nor dev/objects.cpp contains code that manages them.
- src/main.cpp (window creation, shader loading and compilation, buffer upload, render loop) is platform I/O with nothing to state.
- IEEE single-precision details (rounding, NaN, negative zero) are not modelled: floats are only copied, and the tag conversion of values 0..11 is exact.
- `glm::vec3` is modelled as a plain triple; the library itself is not modelled.
