/**
  The LiDAR side of the converter (kitti_to_mcap.py): reading a Velodyne
  `.bin` file as rows of four float32 words (`read_lidar_bin`) and filling a
  Foxglove `PointCloud` message from such an array
  (`convert_pointcloud_to_proto`). Floats are kept as their 32-bit patterns
  and the message's byte encoding is not modelled: the `data` field holds
  the words in the order their bytes are written.
*/
module KittiPointCloud {
  import opened Wrappers
  import opened ProtoEnums

  /** The bit pattern of a float32; the values themselves are never inspected. */
  type Float32 = bv32

  /** A numpy array: its shape and its elements in row-major order. */
  datatype NdArray = NdArray(shape: seq<nat>, data: seq<Float32>)

  function Product(shape: seq<nat>): nat
    decreases |shape|
  {
    if shape == [] then 1 else shape[0] * Product(shape[1..])
  }

  /** The array holds as many elements as its shape says. */
  predicate WellFormed(a: NdArray) {
    |a.data| == Product(a.shape)
  }

  /**
    `read_lidar_bin`: the file's float32 words reshaped to rows of four;
    the reshape raises when the word count is not a multiple of four.
  */
  function ReadLidarBin(words: seq<Float32>): (r: Option<NdArray>)
    ensures r.Some? <==> |words| % 4 == 0
    ensures r.Some? ==> WellFormed(r.value) && r.value.shape == [|words| / 4, 4] && r.value.data == words
  {
    if |words| % 4 != 0 then None
    else
      assert Product([|words| / 4, 4]) == |words| / 4 * Product([4]);
      Some(NdArray([|words| / 4, 4], words))
  }

  /**
    The field names of the `PointCloud` message type in use, and those of
    its `PackedElementField` entries with their descriptors: the `hasattr`
    tests of the conversion read these, as schema versions differ.
  */
  datatype PointCloudSchema = PointCloudSchema(cloudFields: set<string>, elementFields: map<string, FieldDescriptor>)

  /** One entry of the message's `fields`: what was assigned (`None` for a field the schema lacks). */
  datatype PackedElementField = PackedElementField(
    name: Option<string>,
    offset: Option<nat>,
    count: Option<nat>,
    /** The enum fields assigned, by field name ("type" or "datatype"). */
    enums: map<string, int>)

  /** The message as filled in; `None` marks a field the schema lacks and the conversion leaves alone. */
  datatype PointCloud = PointCloud(
    timestampNs: Option<int>,
    frameId: Option<string>,
    fields: seq<PackedElementField>,
    pointStride: Option<nat>,
    pointStep: Option<nat>,
    pointCount: Option<nat>,
    width: Option<nat>,
    height: Option<nat>,
    data: seq<Float32>)

  datatype PointCloudError =
    /** Not a 2-D array, or fewer than three columns (`ValueError`). */
    | BadShape(shape: seq<nat>)
    /** The element type could not be set (`ValueError` of the enum setter). */
    | ElementType(e: EnumError)
    /** The schema has no `fields` or no `data` (`RuntimeError`). */
    | UnsupportedLayout

  /** A field definition of the layout: its name and byte offset in a point. */
  datatype FieldDef = FieldDef(name: string, offset: nat)

  const XYZI: seq<FieldDef> := [FieldDef("x", 0), FieldDef("y", 4), FieldDef("z", 8), FieldDef("intensity", 12)]
  const FLOAT32_NAMES: seq<string> := ["FLOAT32", "float32"]
  const FRAME_ID := "velodyne"

  /** The layout for an array with this many columns: x, y, z and, from four columns on, intensity. */
  function FieldDefs(columns: nat): seq<FieldDef> {
    if columns >= 4 then XYZI else XYZI[..3]
  }

  function Stride(columns: nat): nat {
    if columns >= 4 then 16 else 12
  }

  /** The entry filled for one field definition, the element type set through the enum setter. */
  function ElementField(def: FieldDef, schema: map<string, FieldDescriptor>): Result<PackedElementField, EnumError> {
    var entry := PackedElementField(
      if "name" in schema then Some(def.name) else None,
      if "offset" in schema then Some(def.offset) else None,
      if "count" in schema then Some(1) else None,
      map[]);
    var typeField := if "type" in schema then "type" else "datatype";
    if typeField !in schema then Ok(entry)
    else match EnumChoice(schema, typeField, FLOAT32_NAMES)
      case Ok(n) => Ok(entry.(enums := map[typeField := n]))
      case Err(e) => Err(e)
  }

  /** The entries for the definitions in order; the first failure stops the conversion. */
  function ElementFields(defs: seq<FieldDef>, schema: map<string, FieldDescriptor>): Result<seq<PackedElementField>, EnumError>
    decreases |defs|
  {
    if defs == [] then Ok([])
    else match ElementFields(defs[..|defs| - 1], schema)
      case Err(e) => Err(e)
      case Ok(init) =>
        match ElementField(defs[|defs| - 1], schema)
        case Err(e) => Err(e)
        case Ok(f) => Ok(init + [f])
  }

  /** The first `rows` rows of a `cols`-column array cut to their first `k` columns, row-major. */
  function KeepColumns(data: seq<Float32>, rows: nat, cols: nat, k: nat): (r: seq<Float32>)
    requires |data| == rows * cols && k <= cols
    ensures |r| == rows * k
    decreases rows
  {
    if rows == 0 then []
    else
      var last := (rows - 1) * cols;
      assert last + cols == rows * cols;
      KeepColumns(data[..last], rows - 1, cols, k) + data[last..last + k]
  }

  /** What `convert_pointcloud_to_proto` returns or raises. */
  function PointCloudOf(points: NdArray, timestampNs: int, schema: PointCloudSchema): Result<PointCloud, PointCloudError>
    requires WellFormed(points)
  {
    var has := schema.cloudFields;
    if !("fields" in has && "data" in has) then Err(UnsupportedLayout)
    else if |points.shape| != 2 || points.shape[1] < 3 then Err(BadShape(points.shape))
    else
      var rows, cols := points.shape[0], points.shape[1];
      var k := if cols >= 4 then 4 else 3;
      assert |points.data| == rows * cols by { assert Product(points.shape[1..]) == cols; }
      match ElementFields(FieldDefs(cols), schema.elementFields)
      case Err(e) => Err(ElementType(e))
      case Ok(fields) =>
        var stride := Stride(cols);
        Ok(PointCloud(
          if "timestamp" in has then Some(timestampNs) else None,
          if "frame_id" in has then Some(FRAME_ID) else None,
          fields,
          if "point_stride" in has then Some(stride) else None,
          if "point_stride" !in has && "point_step" in has then Some(stride) else None,
          if "point_count" in has then Some(rows) else None,
          if "point_count" !in has && "width" in has && "height" in has then Some(rows) else None,
          if "point_count" !in has && "width" in has && "height" in has then Some(1) else None,
          KeepColumns(points.data, rows, cols, k)))
  }

  /** `convert_pointcloud_to_proto`, filling the message's fields one after the other. */
  method ConvertPointCloudToProto(points: NdArray, timestampNs: int, schema: PointCloudSchema)
    returns (res: Result<PointCloud, PointCloudError>)
    requires WellFormed(points)
    ensures res == PointCloudOf(points, timestampNs, schema)
  {
    var has := schema.cloudFields;
    var timestamp := if "timestamp" in has then Some(timestampNs) else None;
    var frameId := if "frame_id" in has then Some(FRAME_ID) else None;
    if !("fields" in has && "data" in has) {
      return Err(UnsupportedLayout);
    }
    if |points.shape| != 2 || points.shape[1] < 3 {
      return Err(BadShape(points.shape));
    }
    var rows, cols := points.shape[0], points.shape[1];
    var defs, stride, k;
    if cols >= 4 {
      defs, stride, k := XYZI, 16, 4;
    } else {
      defs, stride, k := XYZI[..3], 12, 3;
    }
    var fields: seq<PackedElementField> := [];
    for n := 0 to |defs|
      invariant ElementFields(defs[..n], schema.elementFields) == Ok(fields)
    {
      assert defs[..n + 1][..n] == defs[..n];
      var f := ElementField(defs[n], schema.elementFields);
      if f.Err? {
        ElementFieldsStops(defs, n, schema.elementFields);
        return Err(ElementType(f.error));
      }
      fields := fields + [f.value];
    }
    assert defs[..|defs|] == defs;
    var pointStride, pointStep := None, None;
    if "point_stride" in has {
      pointStride := Some(stride);
    } else if "point_step" in has {
      pointStep := Some(stride);
    }
    var pointCount, width, height := None, None, None;
    if "point_count" in has {
      pointCount := Some(rows);
    } else if "width" in has && "height" in has {
      width, height := Some(rows), Some(1);
    }
    assert |points.data| == rows * cols by { assert Product(points.shape[1..]) == cols; }
    var data := KeepColumns(points.data, rows, cols, k);
    return Ok(PointCloud(timestamp, frameId, fields, pointStride, pointStep, pointCount, width, height, data));
  }

  /** An entry that fails stops the conversion with its error. */
  lemma {:induction false} ElementFieldsStops(defs: seq<FieldDef>, n: nat, schema: map<string, FieldDescriptor>)
    requires n < |defs| && ElementFields(defs[..n], schema).Ok? && ElementField(defs[n], schema).Err?
    ensures ElementFields(defs, schema) == Err(ElementField(defs[n], schema).error)
  {
    ElementFieldsFails(defs, n + 1, schema);
    assert defs[..n + 1][..n] == defs[..n];
    assert defs[..|defs|] == defs;
  }

  lemma {:induction false} ElementFieldsFails(defs: seq<FieldDef>, m: nat, schema: map<string, FieldDescriptor>)
    requires m <= |defs| && ElementFields(defs[..m], schema).Err?
    ensures ElementFields(defs, schema) == ElementFields(defs[..m], schema)
    decreases |defs| - m
  {
    if m < |defs| {
      assert defs[..m + 1][..m] == defs[..m];
      ElementFieldsFails(defs, m + 1, schema);
    } else {
      assert defs[..m] == defs;
    }
  }

  // ---------------------------------------------------------------------------
  // The layout the message describes

  /** The rows of a row-major array of `count` rows `width` elements wide. */
  function Rows(data: seq<Float32>, width: nat, count: nat): (r: seq<seq<Float32>>)
    requires |data| == count * width
    ensures |r| == count && forall i :: 0 <= i < count ==> |r[i]| == width
    decreases count
  {
    if count == 0 then []
    else
      var last := (count - 1) * width;
      assert last + width == count * width;
      Rows(data[..last], width, count - 1) + [data[last..]]
  }

  /** Each row of the kept data is the first `k` elements of that row of the array. */
  lemma {:induction false} KeepColumnsSpec(data: seq<Float32>, rows: nat, cols: nat, k: nat)
    requires |data| == rows * cols && k <= cols
    ensures forall r :: 0 <= r < rows ==> Rows(KeepColumns(data, rows, cols, k), k, rows)[r] == Rows(data, cols, rows)[r][..k]
    decreases rows
  {
    if rows > 0 {
      var last := (rows - 1) * cols;
      assert last + cols == rows * cols;
      var prefix := data[..last];
      KeepColumnsSpec(prefix, rows - 1, cols, k);
      var kept := KeepColumns(prefix, rows - 1, cols, k);
      var all := KeepColumns(data, rows, cols, k);
      assert all == kept + data[last..last + k];
      assert all[..(rows - 1) * k] == kept;
      assert all[(rows - 1) * k..] == data[last..last + k];
    }
  }

  /** Keeping every column keeps the data as it is. */
  lemma {:induction false} KeepAllColumns(data: seq<Float32>, rows: nat, cols: nat)
    requires |data| == rows * cols
    ensures KeepColumns(data, rows, cols, cols) == data
    decreases rows
  {
    if rows > 0 {
      var last := (rows - 1) * cols;
      assert last + cols == rows * cols;
      KeepAllColumns(data[..last], rows - 1, cols);
      assert data[..last] + data[last..last + cols] == data;
    }
  }

  /** The entry for each definition, and the same enum choice for all of them. */
  lemma {:induction false} ElementFieldsSpec(defs: seq<FieldDef>, schema: map<string, FieldDescriptor>)
    requires forall i :: 0 <= i < |defs| ==> ElementField(defs[i], schema).Ok?
    ensures ElementFields(defs, schema).Ok?
    ensures |ElementFields(defs, schema).value| == |defs|
    ensures forall i :: 0 <= i < |defs| ==> ElementFields(defs, schema).value[i] == ElementField(defs[i], schema).value
    decreases |defs|
  {
    if defs != [] {
      var init := defs[..|defs| - 1];
      assert forall i :: 0 <= i < |init| ==> init[i] == defs[i];
      ElementFieldsSpec(init, schema);
    }
  }

  /** How the element type is set: through the enum setter on "type", else on "datatype", else not at all. */
  function ElementTypeChoice(schema: map<string, FieldDescriptor>): Result<map<string, int>, EnumError> {
    if "type" in schema then
      match EnumChoice(schema, "type", FLOAT32_NAMES)
      case Ok(n) => Ok(map["type" := n])
      case Err(e) => Err(e)
    else if "datatype" in schema then
      match EnumChoice(schema, "datatype", FLOAT32_NAMES)
      case Ok(n) => Ok(map["datatype" := n])
      case Err(e) => Err(e)
    else Ok(map[])
  }

  /** One entry: the definition's name and offset, one value, and the element type as chosen. */
  lemma ElementFieldSpec(def: FieldDef, schema: map<string, FieldDescriptor>)
    ensures ElementField(def, schema).Ok? <==> ElementTypeChoice(schema).Ok?
    ensures ElementField(def, schema).Ok? ==> ElementField(def, schema).value == PackedElementField(
      if "name" in schema then Some(def.name) else None,
      if "offset" in schema then Some(def.offset) else None,
      if "count" in schema then Some(1) else None,
      ElementTypeChoice(schema).value)
  {
  }

  /**
    The fields of the message for a 2-D array with at least three columns:
    x, y, z (and intensity from four columns on) at offsets 0, 4, 8 (and
    12), one value each, their element type set as the enum setter chooses,
    and a stride of four bytes per field, stored in `point_stride` or, when
    the schema has none, in `point_step`; a failing element type stops the
    conversion with the setter's error.
  */
  lemma PointCloudFields(points: NdArray, timestampNs: int, schema: PointCloudSchema)
    requires WellFormed(points)
    requires "fields" in schema.cloudFields && "data" in schema.cloudFields
    requires |points.shape| == 2 && points.shape[1] >= 3
    ensures var res := PointCloudOf(points, timestampNs, schema);
      var n := if points.shape[1] >= 4 then 4 else 3;
      var elements := schema.elementFields;
      && (res.Err? <==> ElementTypeChoice(elements).Err?)
      && (res.Err? ==> res.error == ElementType(ElementTypeChoice(elements).error))
      && (res.Ok? ==>
        && |res.value.fields| == n
        && (forall i :: 0 <= i < n ==>
              && res.value.fields[i].name == (if "name" in elements then Some(XYZI[i].name) else None)
              && res.value.fields[i].offset == (if "offset" in elements then Some(4 * i) else None)
              && res.value.fields[i].count == (if "count" in elements then Some(1) else None)
              && res.value.fields[i].enums == ElementTypeChoice(elements).value)
        && ("point_stride" in schema.cloudFields ==>
              res.value.pointStride == Some(4 * n) && res.value.pointStep.None?)
        && ("point_stride" !in schema.cloudFields && "point_step" in schema.cloudFields ==>
              res.value.pointStep == Some(4 * n) && res.value.pointStride.None?)
        && ("point_stride" !in schema.cloudFields && "point_step" !in schema.cloudFields ==>
              res.value.pointStride.None? && res.value.pointStep.None?)
        && ("frame_id" in schema.cloudFields ==> res.value.frameId == Some("velodyne")))
  {
    var defs := FieldDefs(points.shape[1]);
    var elements := schema.elementFields;
    forall i | 0 <= i < |defs|
      ensures ElementField(defs[i], elements).Ok? <==> ElementTypeChoice(elements).Ok?
      ensures defs[i] == XYZI[i] && defs[i].offset == 4 * i
      ensures ElementField(defs[i], elements).Ok? ==> ElementField(defs[i], elements).value == PackedElementField(
        if "name" in elements then Some(XYZI[i].name) else None,
        if "offset" in elements then Some(4 * i) else None,
        if "count" in elements then Some(1) else None,
        ElementTypeChoice(elements).value)
    {
      ElementFieldSpec(defs[i], elements);
    }
    if ElementTypeChoice(elements).Ok? {
      ElementFieldsSpec(defs, elements);
    } else {
      assert defs[..0] == [];
      ElementFieldsStops(defs, 0, elements);
    }
  }

  /**
    The points of the message: as many as the array has rows, each the
    first three or four values of its row; their number is stored in
    `point_count` or, when the schema has none, as `width` with a `height`
    of one.
  */
  lemma PointCloudPoints(points: NdArray, timestampNs: int, schema: PointCloudSchema)
    requires WellFormed(points)
    requires "fields" in schema.cloudFields && "data" in schema.cloudFields
    requires |points.shape| == 2 && points.shape[1] >= 3
    requires |points.data| == points.shape[0] * points.shape[1]
    ensures var res := PointCloudOf(points, timestampNs, schema);
      var rows, cols := points.shape[0], points.shape[1];
      var n := if cols >= 4 then 4 else 3;
      res.Ok? ==>
        && ("point_count" in schema.cloudFields ==>
              res.value.pointCount == Some(rows) && res.value.width.None? && res.value.height.None?)
        && ("point_count" !in schema.cloudFields && "width" in schema.cloudFields && "height" in schema.cloudFields ==>
              res.value.pointCount.None? && res.value.width == Some(rows) && res.value.height == Some(1))
        && ("point_count" !in schema.cloudFields && !("width" in schema.cloudFields && "height" in schema.cloudFields) ==>
              res.value.pointCount.None? && res.value.width.None? && res.value.height.None?)
        && |res.value.data| == rows * n
        && (forall r :: 0 <= r < rows ==> Rows(res.value.data, n, rows)[r] == Rows(points.data, cols, rows)[r][..n])
  {
    var rows, cols := points.shape[0], points.shape[1];
    KeepColumnsSpec(points.data, rows, cols, if cols >= 4 then 4 else 3);
  }

  /**
    A Velodyne file read as rows of four gives x, y, z and intensity at
    16 bytes per point, as many points as rows of four words, and the
    file's words as the data.
  */
  lemma KittiScanLayout(words: seq<Float32>, timestampNs: int, schema: PointCloudSchema)
    requires ReadLidarBin(words).Some?
    requires "fields" in schema.cloudFields && "data" in schema.cloudFields && "point_stride" in schema.cloudFields
    requires ElementTypeChoice(schema.elementFields).Ok?
    ensures var res := PointCloudOf(ReadLidarBin(words).value, timestampNs, schema);
      && res.Ok?
      && |res.value.fields| == 4
      && res.value.pointStride == Some(16)
      && res.value.data == words
  {
    var points := ReadLidarBin(words).value;
    PointCloudFields(points, timestampNs, schema);
    assert |words| == |words| / 4 * 4;
    KeepAllColumns(words, |words| / 4, 4);
  }
}
