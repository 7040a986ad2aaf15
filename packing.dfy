/**
 * The flat texture record an object is serialised to: a fixed block of 32
 * floats holding the kind tag, the colour and the first 12 parameters.
 */
module Packing {
  import opened Objects

  /** Floats per record. */
  const RECORD_LENGTH: nat := 32
  /** Slot of the first parameter; slots 1..4 hold the colour. */
  const PARAMS_OFFSET: nat := 5
  /** Number of parameters that are serialised. */
  const PACKED_PARAMS: nat := 12
  /** First slot of the zero padding. */
  const PADDING_OFFSET: nat := PARAMS_OFFSET + PACKED_PARAMS

  /** The record of an object with the given kind, colour and parameter
      slots: the tag in slot 0, the colour in slots 1..4, the first 12
      parameters in slots 5..16 and zeros in slots 17..31. */
  function Record(kind: ObjectType, color: Color, params: seq<Float>): (rec: seq<Float>)
    requires |params| >= PACKED_PARAMS
    ensures |rec| == RECORD_LENGTH
    ensures rec[0] == Tag(kind) as Float
    ensures rec[1..PARAMS_OFFSET] == Components(color)
    ensures rec[PARAMS_OFFSET..PADDING_OFFSET] == params[..PACKED_PARAMS]
    ensures forall i :: PADDING_OFFSET <= i < RECORD_LENGTH ==> rec[i] == 0.0
  {
    [Tag(kind) as Float] + Components(color) + params[..PACKED_PARAMS]
      + Zeros(RECORD_LENGTH - PADDING_OFFSET)
  }

  /** The kind whose tag, converted to a float, is `x`. */
  function KindOf(x: Float): (r: Option<ObjectType>)
    ensures r.Some? ==> x == Tag(r.value) as Float
  {
    if x.Floor as Float == x then FromTag(x.Floor) else None
  }

  /** Every kind is read back from its float-encoded tag. */
  lemma KindOfTag(t: ObjectType)
    ensures KindOf(Tag(t) as Float) == Some(t)
  {
  }

  /** Reads a record back: its kind, its colour and the 12 parameters it
      holds. Fails on a block of the wrong length, a slot 0 that is no tag,
      or padding that is not zero. */
  function Unpack(rec: seq<Float>): (r: Option<Initializer>)
    ensures r.Some? ==> |rec| == RECORD_LENGTH && |r.value.args| == PACKED_PARAMS
  {
    if |rec| == RECORD_LENGTH && KindOf(rec[0]).Some?
       && rec[PADDING_OFFSET..] == Zeros(RECORD_LENGTH - PADDING_OFFSET)
    then Some(Initializer(KindOf(rec[0]).value, ColorOf(rec[1..PARAMS_OFFSET]),
                          rec[PARAMS_OFFSET..PADDING_OFFSET]))
    else None
  }

  /** A record keeps the kind, the colour and the first 12 parameters. */
  lemma UnpackRecord(kind: ObjectType, color: Color, params: seq<Float>)
    requires |params| >= PACKED_PARAMS
    ensures Unpack(Record(kind, color, params))
            == Some(Initializer(kind, color, params[..PACKED_PARAMS]))
  {
  }

  /** Every block that reads back is the record of what it reads back to. */
  lemma RecordUnpack(rec: seq<Float>)
    requires Unpack(rec).Some?
    ensures var v := Unpack(rec).value; Record(v.kind, v.color, v.args) == rec
  {
    var v := Unpack(rec).value;
    var r := Record(v.kind, v.color, v.args);
    assert forall i :: 0 <= i < RECORD_LENGTH ==> r[i] == rec[i];
  }

  /** Two records are equal exactly when the kinds, the colours and the
      first 12 parameters are: slots 12..27 never reach the record. */
  lemma RecordInjective(k1: ObjectType, c1: Color, p1: seq<Float>,
                        k2: ObjectType, c2: Color, p2: seq<Float>)
    requires |p1| >= PACKED_PARAMS && |p2| >= PACKED_PARAMS
    ensures Record(k1, c1, p1) == Record(k2, c2, p2)
            <==> k1 == k2 && c1 == c2 && p1[..PACKED_PARAMS] == p2[..PACKED_PARAMS]
  {
  }

  /** Serialises one object into its record. The object is only read. */
  method PackObjectToTextureData(obj: Object) returns (textureData: seq<Float>)
    requires obj.Valid()
    ensures textureData == Record(obj.kind, obj.color, obj.Params())
  {
    var data := new Float[RECORD_LENGTH](_ => 0.0);
    data[0] := Tag(obj.kind) as Float;
    data[1] := obj.color.r;
    data[2] := obj.color.g;
    data[3] := obj.color.b;
    data[4] := obj.color.a;
    for i := 0 to PACKED_PARAMS
      invariant data[..PARAMS_OFFSET] == [Tag(obj.kind) as Float] + Components(obj.color)
      invariant data[PARAMS_OFFSET..PARAMS_OFFSET + i] == obj.posArgs[..i]
      invariant forall j :: PARAMS_OFFSET + i <= j < RECORD_LENGTH ==> data[j] == 0.0
    {
      data[PARAMS_OFFSET + i] := obj.posArgs[i];
    }
    textureData := data[..];
    assert textureData == textureData[..PARAMS_OFFSET]
      + textureData[PARAMS_OFFSET..PADDING_OFFSET] + textureData[PADDING_OFFSET..];
  }
}
