/** ExtendedCones::finalize of the OSPRay renderer plugin: the geometry's
    parameters are resolved with their defaults, a missing data buffer or a
    zero stride is rejected, and the number of cones is the data size
    divided by the stride. The radius and length are opaque values. */
module ExtendedCones {
  import opened Wrappers

  newtype int32 = x: int | -0x8000_0000 <= x < 0x8000_0000

  const TwoTo64: nat := 0x1_0000_0000_0000_0000

  /** A size_t value. */
  type Size64 = n: nat | n < TwoTo64

  /** A parameter attached to the geometry object, with its type. */
  datatype Param = FloatParam(f: real) | IntParam(i: int32) | DataParam(numBytes: Size64)

  type ParamMap = map<string, Param>

  const SizeOfFloat: int32 := 4

  const NoDataMessage: string := "#ospray:geometry/extendedcones: no 'extendedcones' data specified"

  /** getParam1f: a float parameter, or the default. */
  function FloatOr(ps: ParamMap, key: string, default: real): (v: real)
    ensures key in ps && ps[key].FloatParam? ==> v == ps[key].f
    ensures (key !in ps || !ps[key].FloatParam?) ==> v == default
  {
    if key in ps && ps[key].FloatParam? then ps[key].f else default
  }

  /** getParam1i: an integer parameter, or the default. */
  function IntOr(ps: ParamMap, key: string, default: int32): (v: int32)
    ensures key in ps && ps[key].IntParam? ==> v == ps[key].i
    ensures (key !in ps || !ps[key].IntParam?) ==> v == default
  {
    if key in ps && ps[key].IntParam? then ps[key].i else default
  }

  /** getParamData: the data buffer's size in bytes, if one is attached. */
  function DataOr(ps: ParamMap, key: string): (d: Option<Size64>)
    ensures d.Some? <==> key in ps && ps[key].DataParam?
    ensures d.Some? ==> d.value == ps[key].numBytes
  {
    if key in ps && ps[key].DataParam? then Some(ps[key].numBytes) else None
  }

  /** The values finalize reads, before the guard. */
  datatype Fields = Fields(
    radius: real,
    length: real,
    materialID: int32,
    bytesPerCone: int32,
    offsetCenter: int32,
    offsetUp: int32,
    offsetRadius: int32,
    offsetLength: int32,
    offsetFrame: int32,
    offsetMaterialID: int32,
    data: Option<Size64>)

  function ReadFields(ps: ParamMap): Fields {
    Fields(
      FloatOr(ps, "radius", 0.01),
      FloatOr(ps, "length", 0.01),
      IntOr(ps, "materialID", 0),
      IntOr(ps, "bytes_per_extended_cone", 9 * SizeOfFloat),
      IntOr(ps, "offset_center", 0),
      IntOr(ps, "offset_up", 3 * SizeOfFloat),
      IntOr(ps, "offset_radius", 6 * SizeOfFloat),
      IntOr(ps, "offset_length", 7 * SizeOfFloat),
      IntOr(ps, "offset_frame", 8 * SizeOfFloat),
      IntOr(ps, "offset_materialID", -1),
      DataOr(ps, "extendedcones"))
  }

  /** The stride as the size_t division sees it: the int converts modulo
      2^64, so a negative stride becomes a huge one. */
  function Stride(b: int32): Size64 {
    if b >= 0 then b as int else TwoTo64 + b as int
  }

  /** The configuration handed to the ISPC geometry. */
  datatype ConeConfig = ConeConfig(fields: Fields, numBytes: Size64, numExtendedCones: Size64)

  /** finalize: a missing buffer or a zero stride is an error; otherwise the
      count is the number of whole records in the buffer, a trailing partial
      record not counted. */
  function Resolve(ps: ParamMap): (r: Result<ConeConfig>)
    ensures var f := ReadFields(ps);
      r.Failure? <==> f.data.None? || f.bytesPerCone == 0
    ensures r.Failure? ==> r.error == NoDataMessage
    ensures r.Success? ==>
      var c := r.value; var s := Stride(c.fields.bytesPerCone);
      && c.fields == ReadFields(ps)
      && Some(c.numBytes) == c.fields.data
      && s > 0
      && c.numExtendedCones * s <= c.numBytes < (c.numExtendedCones + 1) * s
  {
    var f := ReadFields(ps);
    if f.data.None? || f.bytesPerCone == 0 then Failure(NoDataMessage)
    else
      var n := f.data.value;
      Success(ConeConfig(f, n, WholeRecords(n, Stride(f.bytesPerCone))))
  }

  /** numBytes / bytesPerCone in size_t. */
  function WholeRecords(n: Size64, s: nat): (c: Size64)
    requires s > 0
    ensures c * s <= n < (c + 1) * s
  {
    CountIsWholeRecords(n, s);
    n / s
  }

  lemma CountIsWholeRecords(n: nat, s: nat)
    requires s > 0
    ensures (n / s) * s <= n < (n / s + 1) * s
    ensures n / s <= n
  {
    var q, m := n / s, n % s;
    assert n == q * s + m && 0 <= m < s;
    assert (q + 1) * s == q * s + s;
    MulAtLeast(s, 1, q);
  }

  lemma MulAtLeast(a: nat, b: nat, c: nat)
    requires a >= b
    ensures a * c >= b * c
  {
    var d: nat := a - b;
    assert a * c == b * c + d * c;
  }

  /** With only the data buffer attached, every other value is its default:
      radius and length 0.01, material 0, and the 9-float record with the
      center at byte 0, up at 12, radius at 24, length at 28, frame at 32
      and no per-cone material; the count is the number of 36-byte records. */
  lemma DefaultsWithDataOnly(numBytes: Size64)
    ensures var r := Resolve(map["extendedcones" := DataParam(numBytes)]);
      && r.Success?
      && r.value.fields == Fields(0.01, 0.01, 0, 36, 0, 12, 24, 28, 32, -1, Some(numBytes))
      && r.value.numExtendedCones == numBytes / 36
  {
    var ps := map["extendedcones" := DataParam(numBytes)];
    assert "radius" !in ps && "length" !in ps && "materialID" !in ps;
    assert "bytes_per_extended_cone" !in ps && "offset_center" !in ps && "offset_up" !in ps;
    assert "offset_radius" !in ps && "offset_length" !in ps && "offset_frame" !in ps;
    assert "offset_materialID" !in ps;
  }

  /** Attaching a buffer and a positive stride to any parameter set changes
      only those two fields: every other value is read as before, and the
      count is the buffer size divided by the given stride. */
  lemma GivenStrideDividesBuffer(ps: ParamMap, numBytes: Size64, b: int32)
    requires b > 0
    ensures var r := Resolve(ps["extendedcones" := DataParam(numBytes)]["bytes_per_extended_cone" := IntParam(b)]);
      && r.Success?
      && r.value.fields == ReadFields(ps).(bytesPerCone := b, data := Some(numBytes))
      && r.value.numExtendedCones == numBytes / b as int
  {
    var qs := ps["extendedcones" := DataParam(numBytes)]["bytes_per_extended_cone" := IntParam(b)];
    assert forall key :: key != "extendedcones" && key != "bytes_per_extended_cone" ==>
      (key in qs <==> key in ps) && (key in ps ==> qs[key] == ps[key]);
  }

  /** Without the data buffer, finalize fails whatever else is given; an
      explicit zero stride fails too. */
  lemma MissingDataOrZeroStrideFails(ps: ParamMap)
    ensures "extendedcones" !in ps ==> Resolve(ps) == Failure(NoDataMessage)
    ensures "bytes_per_extended_cone" in ps && ps["bytes_per_extended_cone"] == IntParam(0) ==>
      Resolve(ps) == Failure(NoDataMessage)
  {
  }

  /** A negative stride passes the guard and, taken modulo 2^64, leaves room
      for at most one record in any buffer. */
  lemma NegativeStrideCountsAtMostOne(ps: ParamMap)
    requires Resolve(ps).Success? && ReadFields(ps).bytesPerCone < 0
    ensures Resolve(ps).value.numExtendedCones <= 1
  {
    var c := Resolve(ps).value;
    var s := Stride(c.fields.bytesPerCone);
    assert s >= TwoTo64 - 0x8000_0000;
    if c.numExtendedCones >= 2 {
      MulAtLeast(c.numExtendedCones, 2, s);
    }
  }

  /** The record of the ISPC geometry-set call. */
  datatype GeometrySet = GeometrySet(config: ConeConfig)

  /** The OSPRay geometry object: finalize assigns its fields one by one and
      then hands them to the ISPC side. */
  class ExtendedConesGeometry {
    var params: ParamMap
    var radius: real
    var length: real
    var materialID: int32
    var bytesPerCone: int32
    var offsetCenter: int32
    var offsetUp: int32
    var offsetRadius: int32
    var offsetLength: int32
    var offsetFrame: int32
    var offsetMaterialID: int32
    var data: Option<Size64>
    var numExtendedCones: Size64
    var geometrySet: Option<GeometrySet>

    function CurrentFields(): Fields
      reads this
    {
      Fields(radius, length, materialID, bytesPerCone, offsetCenter, offsetUp,
             offsetRadius, offsetLength, offsetFrame, offsetMaterialID, data)
    }

    constructor (ps: ParamMap)
      ensures params == ps && geometrySet.None? && numExtendedCones == 0
    {
      params := ps;
      radius, length := 0.0, 0.0;
      materialID, bytesPerCone := 0, 0;
      offsetCenter, offsetUp, offsetRadius, offsetLength, offsetFrame, offsetMaterialID := 0, 0, 0, 0, 0, 0;
      data := None;
      numExtendedCones := 0;
      geometrySet := None;
    }

    /** finalize: the fields hold what was read in every case; on success
        the count is set and the geometry-set call receives exactly the
        resolved values; the error leaves count and geometry as they were. */
    method Finalize() returns (outcome: Outcome)
      modifies this
      ensures params == old(params)
      ensures CurrentFields() == ReadFields(params)
      ensures var r := Resolve(params);
        && (r.Failure? ==> outcome == Fail(r.error) && numExtendedCones == old(numExtendedCones) &&
                           geometrySet == old(geometrySet))
        && (r.Success? ==> outcome == Pass && numExtendedCones == r.value.numExtendedCones &&
                           geometrySet == Some(GeometrySet(r.value)))
    {
      var f := ReadFields(params);
      Store(f);
      if data.None? || bytesPerCone == 0 {
        return Fail(NoDataMessage);
      }
      numExtendedCones := WholeRecords(data.value, Stride(bytesPerCone));
      geometrySet := Some(GeometrySet(ConeConfig(CurrentFields(), data.value, numExtendedCones)));
      outcome := Pass;
    }

    /** The field assignments at the head of finalize. */
    method Store(f: Fields)
      modifies this
      ensures CurrentFields() == f
      ensures params == old(params) && numExtendedCones == old(numExtendedCones)
      ensures geometrySet == old(geometrySet)
    {
      radius := f.radius;
      length := f.length;
      materialID := f.materialID;
      bytesPerCone := f.bytesPerCone;
      offsetCenter := f.offsetCenter;
      offsetUp := f.offsetUp;
      offsetRadius := f.offsetRadius;
      offsetLength := f.offsetLength;
      offsetFrame := f.offsetFrame;
      offsetMaterialID := f.offsetMaterialID;
      data := f.data;
    }
  }
}
