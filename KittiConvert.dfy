/**
  The conversion of a KITTI drive to an MCAP recording
  (`convert_kitti_to_mcap` in kitti_to_mcap.py): the frames are paired,
  the three schemas and channels registered, the static transforms
  published once, and every frame's scan and image written at the frame's
  timestamp, failures being counted rather than raised. The recording is
  the sequence of calls made on the MCAP writer; files are read through
  the functions in `Inputs`.
*/
module KittiConvert {
  import opened Wrappers
  import opened KittiCalib
  import opened ProtoDescriptors
  import opened KittiPointCloud
  import opened KittiFrames

  /** Where the camera-to-LiDAR calibration comes from. */
  datatype CalibSource =
    /** No calibration directory was given. */
    | NoCalibDir
    /** The directory has no `calib_velo_to_cam.txt`: a warning, and no transform. */
    | CalibFileMissing
    /** The lines of `calib_velo_to_cam.txt`. */
    | CalibFile(lines: seq<string>)

  /** What reading an image gives: `None` from the reader, or a decoded image whose JPEG encoding succeeds or fails. */
  datatype ImageRead = Unreadable | Decoded(jpegEncodes: bool)

  /** A protobuf message type: its full name and its `.proto` file. */
  datatype MessageType = MessageType(fullName: string, file: FileDescriptor)

  /** Everything the conversion reads. */
  datatype Inputs = Inputs(
    dir: KittiDir,
    /** The float32 words of a scan file, `None` when it cannot be read. */
    lidarWords: string -> Option<seq<Float32>>,
    images: string -> ImageRead,
    calib: CalibSource,
    pointCloudSchema: PointCloudSchema,
    pointCloudType: MessageType,
    imageType: MessageType,
    transformsType: MessageType)

  datatype Translation = ZeroTranslation | CalibratedTranslation(t: seq<string>)

  /** The identity, or the rotation given by the calibration's R (its conversion to a quaternion is not modelled). */
  datatype Rotation = IdentityRotation | CalibratedRotation(r: seq<string>)

  datatype Transform = Transform(
    timestampNs: int, parentFrameId: string, childFrameId: string, translation: Translation, rotation: Rotation)

  /** A `CompressedImage` message: its timestamp, frame, format, and the image file it encodes. */
  datatype CompressedImage = CompressedImage(timestampNs: int, frameId: string, format: string, source: string)

  datatype Payload =
    | FrameTransforms(transforms: seq<Transform>)
    | PointCloudMessage(cloud: PointCloud)
    | ImageMessage(image: CompressedImage)

  /** One call on the MCAP writer. */
  datatype Record =
    | SchemaRecord(name: string, encoding: string, files: seq<FileDescriptor>)
    | ChannelRecord(topic: string, schemaName: string, messageEncoding: string)
    | MessageRecord(topic: string, logTimeNs: int, publishTimeNs: int, payload: Payload)

  datatype Counts = Counts(lidarOk: nat, lidarFail: nat, cameraOk: nat, cameraFail: nat)

  datatype ConvertError =
    | FindFailed(findError: FindError)
    | NoFrames
    | CalibFailed(calibError: CalibError)
    /** Neither a scan nor an image was written (`RuntimeError` once the recording is finished). */
    | NothingWritten(counts: Counts)

  const LIDAR_TOPIC := "/velodyne_points"
  const CAMERA_TOPIC := "/camera/image_raw"
  const TF_TOPIC := "/tf"

  // ---------------------------------------------------------------------------
  // The parts of the recording

  /** The schemas and channels, registered in the converter's order. */
  function Registrations(inputs: Inputs): seq<Record> {
    var pc, im, tf := inputs.pointCloudType, inputs.imageType, inputs.transformsType;
    [ SchemaRecord(pc.fullName, "protobuf", DescriptorSet(pc.file)),
      SchemaRecord(im.fullName, "protobuf", DescriptorSet(im.file)),
      ChannelRecord(LIDAR_TOPIC, pc.fullName, "protobuf"),
      ChannelRecord(CAMERA_TOPIC, im.fullName, "protobuf"),
      SchemaRecord(tf.fullName, "protobuf", DescriptorSet(tf.file)),
      ChannelRecord(TF_TOPIC, tf.fullName, "protobuf") ]
  }

  /** The calibration used for the camera-to-LiDAR transform, if any; a malformed file raises. */
  function CalibrationOf(calib: CalibSource): Result<Option<Calibration>, CalibError> {
    match calib
    case CalibFile(lines) =>
      (match ParseCalibration(lines)
       case Ok(c) => Ok(Some(c))
       case Err(e) => Err(e))
    case _ => Ok(None)
  }

  /** The static transforms: map to camera as identity, then camera to LiDAR when calibrated. */
  function StaticTransforms(calibration: Option<Calibration>, startNs: int): seq<Transform> {
    [Transform(startNs, "map", "camera", ZeroTranslation, IdentityRotation)] +
    match calibration
    case Some(c) => [Transform(startNs, "camera", "velodyne", CalibratedTranslation(c.translation), CalibratedRotation(c.rotation))]
    case None => []
  }

  function FrameTime(startNs: int, stepNs: int, idx: nat): int {
    startNs + idx * stepNs
  }

  /** The scan of a frame as a message, or `None` when reading or converting it raises. */
  function LidarCloud(inputs: Inputs, frame: Frame, timestampNs: int): Option<PointCloud> {
    match inputs.lidarWords(frame.lidarFile)
    case None => None
    case Some(words) =>
      match ReadLidarBin(words)
      case None => None
      case Some(points) =>
        match PointCloudOf(points, timestampNs, inputs.pointCloudSchema)
        case Ok(cloud) => Some(cloud)
        case Err(_) => None
  }

  predicate CameraSucceeds(inputs: Inputs, frame: Frame) {
    inputs.images(frame.imageFile) == Decoded(true)
  }

  /** What the loop writes for one frame: its scan, then its image, each when it succeeds. */
  function FrameRecords(inputs: Inputs, frame: Frame, timestampNs: int): seq<Record> {
    (match LidarCloud(inputs, frame, timestampNs)
     case Some(cloud) => [MessageRecord(LIDAR_TOPIC, timestampNs, timestampNs, PointCloudMessage(cloud))]
     case None => []) +
    (if CameraSucceeds(inputs, frame)
     then [MessageRecord(CAMERA_TOPIC, timestampNs, timestampNs, ImageMessage(CompressedImage(timestampNs, "camera", "jpeg", frame.imageFile)))]
     else [])
  }

  /** What the loop writes for the first `n` frames. */
  function LoopRecords(inputs: Inputs, frames: seq<Frame>, startNs: int, stepNs: int, n: nat): seq<Record>
    requires n <= |frames|
  {
    if n == 0 then []
    else LoopRecords(inputs, frames, startNs, stepNs, n - 1) + FrameRecords(inputs, frames[n - 1], FrameTime(startNs, stepNs, n - 1))
  }

  /** How many of the first `n` scans are written. */
  function LidarOkCount(inputs: Inputs, frames: seq<Frame>, startNs: int, stepNs: int, n: nat): (r: nat)
    requires n <= |frames|
    ensures r <= n
  {
    if n == 0 then 0
    else
      var ok := LidarCloud(inputs, frames[n - 1], FrameTime(startNs, stepNs, n - 1)).Some?;
      LidarOkCount(inputs, frames, startNs, stepNs, n - 1) + if ok then 1 else 0
  }

  /** How many of the first `n` images are written. */
  function CameraOkCount(inputs: Inputs, frames: seq<Frame>, n: nat): (r: nat)
    requires n <= |frames|
    ensures r <= n
  {
    if n == 0 then 0
    else
      var ok := CameraSucceeds(inputs, frames[n - 1]);
      CameraOkCount(inputs, frames, n - 1) + if ok then 1 else 0
  }

  // ---------------------------------------------------------------------------
  // The conversion

  /** The schema and channel registrations, each schema carrying its descriptor set. */
  method RegisterChannels(inputs: Inputs) returns (records: seq<Record>)
    ensures records == Registrations(inputs)
  {
    var pointCloudFiles := BuildFileDescriptorSet(inputs.pointCloudType.file);
    records := [SchemaRecord(inputs.pointCloudType.fullName, "protobuf", pointCloudFiles)];
    var imageFiles := BuildFileDescriptorSet(inputs.imageType.file);
    records := records + [SchemaRecord(inputs.imageType.fullName, "protobuf", imageFiles)];
    records := records + [ChannelRecord(LIDAR_TOPIC, inputs.pointCloudType.fullName, "protobuf")];
    records := records + [ChannelRecord(CAMERA_TOPIC, inputs.imageType.fullName, "protobuf")];
    var transformsFiles := BuildFileDescriptorSet(inputs.transformsType.file);
    records := records + [SchemaRecord(inputs.transformsType.fullName, "protobuf", transformsFiles)];
    records := records + [ChannelRecord(TF_TOPIC, inputs.transformsType.fullName, "protobuf")];
  }

  /** The static transforms, reading the calibration file when there is one. */
  method BuildStaticTransforms(calib: CalibSource, startNs: int) returns (res: Result<seq<Transform>, CalibError>)
    ensures res.Err? <==> CalibrationOf(calib).Err?
    ensures res.Err? ==> res.error == CalibrationOf(calib).error
    ensures res.Ok? ==> res.value == StaticTransforms(CalibrationOf(calib).value, startNs)
  {
    var transforms := [Transform(startNs, "map", "camera", ZeroTranslation, IdentityRotation)];
    if calib.CalibFile? {
      var parsed := ParseKittiCalibration(calib.lines);
      if parsed.Err? {
        return Err(parsed.error);
      }
      var c := parsed.value;
      transforms := transforms + [Transform(startNs, "camera", "velodyne", CalibratedTranslation(c.translation), CalibratedRotation(c.rotation))];
      assert transforms == StaticTransforms(Some(c), startNs);
    } else {
      assert transforms == StaticTransforms(None, startNs);
    }
    return Ok(transforms);
  }

  /** The scan of one frame, read and converted; `None` when any step raises. */
  method ConvertScan(inputs: Inputs, frame: Frame, timestampNs: int) returns (cloud: Option<PointCloud>)
    ensures cloud == LidarCloud(inputs, frame, timestampNs)
  {
    cloud := None;
    var words := inputs.lidarWords(frame.lidarFile);
    if words.Some? {
      var points := ReadLidarBin(words.value);
      if points.Some? {
        var converted := ConvertPointCloudToProto(points.value, timestampNs, inputs.pointCloudSchema);
        if converted.Ok? {
          cloud := Some(converted.value);
        }
      }
    }
  }

  /**
    The frame loop: every frame's scan and then its image are written at
    the frame's timestamp, and each frame counts once as written or failed
    for the scan and once for the image.
  */
  method WriteFrames(inputs: Inputs, frames: seq<Frame>, startNs: int, stepNs: int)
    returns (counts: Counts, records: seq<Record>)
    ensures counts.lidarOk == LidarOkCount(inputs, frames, startNs, stepNs, |frames|)
    ensures counts.cameraOk == CameraOkCount(inputs, frames, |frames|)
    ensures counts.lidarOk + counts.lidarFail == |frames| && counts.cameraOk + counts.cameraFail == |frames|
    ensures records == LoopRecords(inputs, frames, startNs, stepNs, |frames|)
  {
    records := [];
    var lidarOk, cameraOk, lidarFail, cameraFail := 0, 0, 0, 0;
    for idx := 0 to |frames|
      invariant lidarOk == LidarOkCount(inputs, frames, startNs, stepNs, idx) && lidarOk + lidarFail == idx
      invariant cameraOk == CameraOkCount(inputs, frames, idx) && cameraOk + cameraFail == idx
      invariant records == LoopRecords(inputs, frames, startNs, stepNs, idx)
    {
      var frame := frames[idx];
      var timestampNs := startNs + idx * stepNs;

      var cloud := ConvertScan(inputs, frame, timestampNs);
      if cloud.Some? {
        records := records + [MessageRecord(LIDAR_TOPIC, timestampNs, timestampNs, PointCloudMessage(cloud.value))];
        lidarOk := lidarOk + 1;
      } else {
        lidarFail := lidarFail + 1;
      }

      var image := inputs.images(frame.imageFile);
      if image == Decoded(true) {
        var compressed := CompressedImage(timestampNs, "camera", "jpeg", frame.imageFile);
        records := records + [MessageRecord(CAMERA_TOPIC, timestampNs, timestampNs, ImageMessage(compressed))];
        cameraOk := cameraOk + 1;
      } else {
        cameraFail := cameraFail + 1;
      }
    }
    counts := Counts(lidarOk, lidarFail, cameraOk, cameraFail);
  }

  /**
    What `convert_kitti_to_mcap` returns or raises, with the start time and
    the time step given, and the calls it makes on the writer: none when it
    raises before opening the output, the registrations when the
    calibration file raises, and otherwise the registrations, the static
    transforms and the frame loop's messages. Writing no scan and no image
    raises once the recording is finished.
  */
  function Conversion(inputs: Inputs, startNs: int, stepNs: int): (Result<Counts, ConvertError>, seq<Record>) {
    match FindFrames(inputs.dir)
    case Err(e) => (Err(FindFailed(e)), [])
    case Ok(frames) =>
      if frames == [] then (Err(NoFrames), [])
      else match CalibrationOf(inputs.calib)
        case Err(e) => (Err(CalibFailed(e)), Registrations(inputs))
        case Ok(calibration) =>
          var lidarOk := LidarOkCount(inputs, frames, startNs, stepNs, |frames|);
          var cameraOk := CameraOkCount(inputs, frames, |frames|);
          var counts := Counts(lidarOk, |frames| - lidarOk, cameraOk, |frames| - cameraOk);
          var records := Registrations(inputs) +
            [MessageRecord(TF_TOPIC, startNs, startNs, FrameTransforms(StaticTransforms(calibration, startNs)))] +
            LoopRecords(inputs, frames, startNs, stepNs, |frames|);
          (if lidarOk == 0 && cameraOk == 0 then Err(NothingWritten(counts)) else Ok(counts), records)
  }

  /** `convert_kitti_to_mcap`: its result and the calls it makes on the writer. */
  method ConvertKittiToMcap(inputs: Inputs, startNs: int, stepNs: int)
    returns (res: Result<Counts, ConvertError>, records: seq<Record>)
    ensures (res, records) == Conversion(inputs, startNs, stepNs)
  {
    records := [];
    var found := FindKittiFiles(inputs.dir);
    if found.Err? {
      return Err(FindFailed(found.error)), records;
    }
    var frames := found.value;
    if |frames| == 0 {
      return Err(NoFrames), records;
    }
    assert FindFrames(inputs.dir) == Ok(frames);
    records := RegisterChannels(inputs);
    var transforms := BuildStaticTransforms(inputs.calib, startNs);
    if transforms.Err? {
      return Err(CalibFailed(transforms.error)), records;
    }
    records := records + [MessageRecord(TF_TOPIC, startNs, startNs, FrameTransforms(transforms.value))];
    var counts, frameRecords := WriteFrames(inputs, frames, startNs, stepNs);
    assert counts == Counts(counts.lidarOk, |frames| - counts.lidarOk, counts.cameraOk, |frames| - counts.cameraOk);
    records := records + frameRecords;
    if counts.lidarOk == 0 && counts.cameraOk == 0 {
      return Err(NothingWritten(counts)), records;
    }
    return Ok(counts), records;
  }

  // ---------------------------------------------------------------------------
  // What the recording holds

  /**
    The static transforms: map to camera first, as the identity at the start
    time; camera to LiDAR second exactly when a calibration file was read,
    carrying its nine rotation and three translation values.
  */
  lemma StaticTransformsSpec(calib: CalibSource, startNs: int)
    requires CalibrationOf(calib).Ok?
    ensures var ts := StaticTransforms(CalibrationOf(calib).value, startNs);
      && ts[0] == Transform(startNs, "map", "camera", ZeroTranslation, IdentityRotation)
      && (calib.CalibFile? <==> |ts| == 2)
      && (calib.CalibFile? ==>
            var c := ParseCalibration(calib.lines).value;
            && ts[1] == Transform(startNs, "camera", "velodyne", CalibratedTranslation(c.translation), CalibratedRotation(c.rotation))
            && |c.rotation| == 9 && |c.translation| == 3)
      && (!calib.CalibFile? ==> |ts| == 1)
  {
    if calib.CalibFile? {
      ParsedArities(calib.lines, None, None);
    }
  }

  /** One frame writes its scan, then its image, each when it succeeds, both logged and published at the frame's timestamp. */
  lemma FrameRecordsSpec(inputs: Inputs, frame: Frame, timestampNs: int)
    ensures |FrameRecords(inputs, frame, timestampNs)| ==
      (if LidarCloud(inputs, frame, timestampNs).Some? then 1 else 0) + (if CameraSucceeds(inputs, frame) then 1 else 0)
    ensures forall k :: 0 <= k < |FrameRecords(inputs, frame, timestampNs)| ==>
      FrameRecords(inputs, frame, timestampNs)[k].MessageRecord? &&
      FrameRecords(inputs, frame, timestampNs)[k].logTimeNs == timestampNs &&
      FrameRecords(inputs, frame, timestampNs)[k].publishTimeNs == timestampNs
    ensures LidarCloud(inputs, frame, timestampNs).Some? ==>
      FrameRecords(inputs, frame, timestampNs)[0] ==
        MessageRecord(LIDAR_TOPIC, timestampNs, timestampNs, PointCloudMessage(LidarCloud(inputs, frame, timestampNs).value))
    ensures CameraSucceeds(inputs, frame) ==>
      var last := FrameRecords(inputs, frame, timestampNs)[|FrameRecords(inputs, frame, timestampNs)| - 1];
      last == MessageRecord(CAMERA_TOPIC, timestampNs, timestampNs, ImageMessage(CompressedImage(timestampNs, "camera", "jpeg", frame.imageFile)))
  {
  }

  /** A scan that is written carries the frame's timestamp and frame id when the message has those fields. */
  lemma ScanStamped(inputs: Inputs, frame: Frame, timestampNs: int)
    requires LidarCloud(inputs, frame, timestampNs).Some?
    ensures var cloud, has := LidarCloud(inputs, frame, timestampNs).value, inputs.pointCloudSchema.cloudFields;
      && (cloud.timestampNs.Some? <==> "timestamp" in has)
      && ("timestamp" in has ==> cloud.timestampNs == Some(timestampNs))
      && ("frame_id" in has ==> cloud.frameId == Some(FRAME_ID))
  {
  }

  /**
    The frame loop writes one message per successful scan and per
    successful image and nothing else, each logged when it is published.
  */
  lemma {:induction false} LoopRecordsSpec(inputs: Inputs, frames: seq<Frame>, startNs: int, stepNs: int, n: nat)
    requires n <= |frames|
    ensures |LoopRecords(inputs, frames, startNs, stepNs, n)| ==
      LidarOkCount(inputs, frames, startNs, stepNs, n) + CameraOkCount(inputs, frames, n)
    ensures forall k :: 0 <= k < |LoopRecords(inputs, frames, startNs, stepNs, n)| ==>
      var r := LoopRecords(inputs, frames, startNs, stepNs, n)[k];
      r.MessageRecord? && r.logTimeNs == r.publishTimeNs && (r.topic == LIDAR_TOPIC || r.topic == CAMERA_TOPIC)
  {
    if n > 0 {
      LoopRecordsSpec(inputs, frames, startNs, stepNs, n - 1);
      FrameRecordsSpec(inputs, frames[n - 1], FrameTime(startNs, stepNs, n - 1));
    }
  }

  /** With a non-negative time step, every message of the first `n` frames lies between the start and the last frame's time. */
  lemma {:induction false} LoopTimesBounded(inputs: Inputs, frames: seq<Frame>, startNs: int, stepNs: int, n: nat)
    requires 0 < n <= |frames| && stepNs >= 0
    ensures forall k :: 0 <= k < |LoopRecords(inputs, frames, startNs, stepNs, n)| ==>
      LoopRecords(inputs, frames, startNs, stepNs, n)[k].MessageRecord? &&
      startNs <= LoopRecords(inputs, frames, startNs, stepNs, n)[k].logTimeNs <= FrameTime(startNs, stepNs, n - 1)
  {
    var t := FrameTime(startNs, stepNs, n - 1);
    assert startNs <= t by { assert (n - 1) * stepNs >= 0; }
    FrameRecordsSpec(inputs, frames[n - 1], t);
    var init := LoopRecords(inputs, frames, startNs, stepNs, n - 1);
    var last := FrameRecords(inputs, frames[n - 1], t);
    if n > 1 {
      LoopTimesBounded(inputs, frames, startNs, stepNs, n - 1);
      assert FrameTime(startNs, stepNs, n - 2) + stepNs == t;
    }
    assert forall k :: 0 <= k < |last| ==> (init + last)[|init| + k] == last[k];
  }

  /** With a non-negative time step, the messages are written in order of their log times. */
  lemma {:induction false} LoopTimesOrdered(inputs: Inputs, frames: seq<Frame>, startNs: int, stepNs: int, n: nat)
    requires n <= |frames| && stepNs >= 0
    ensures forall i, j :: 0 <= i < j < |LoopRecords(inputs, frames, startNs, stepNs, n)| ==>
      LoopRecords(inputs, frames, startNs, stepNs, n)[i].MessageRecord? &&
      LoopRecords(inputs, frames, startNs, stepNs, n)[j].MessageRecord? &&
      LoopRecords(inputs, frames, startNs, stepNs, n)[i].logTimeNs <= LoopRecords(inputs, frames, startNs, stepNs, n)[j].logTimeNs
  {
    if n > 0 {
      LoopTimesOrdered(inputs, frames, startNs, stepNs, n - 1);
      var t := FrameTime(startNs, stepNs, n - 1);
      FrameRecordsSpec(inputs, frames[n - 1], t);
      var init := LoopRecords(inputs, frames, startNs, stepNs, n - 1);
      var last := FrameRecords(inputs, frames[n - 1], t);
      if n > 1 {
        LoopTimesBounded(inputs, frames, startNs, stepNs, n - 1);
        assert FrameTime(startNs, stepNs, n - 2) + stepNs == t;
      }
      var rs := init + last;
      assert rs == LoopRecords(inputs, frames, startNs, stepNs, n);
      forall i, j | 0 <= i < j < |rs| ensures rs[i].MessageRecord? && rs[j].MessageRecord? && rs[i].logTimeNs <= rs[j].logTimeNs {
        if j < |init| {
          assert rs[i] == init[i] && rs[j] == init[j];
        } else if i < |init| {
          assert rs[i] == init[i] && rs[j] == last[j - |init|];
        } else {
          assert rs[i] == last[i - |init|] && rs[j] == last[j - |init|];
        }
      }
    } else {
      assert LoopRecords(inputs, frames, startNs, stepNs, n) == [];
    }
  }

  /** No scan is written exactly when every one of the first `n` fails. */
  lemma {:induction false} NoScanWritten(inputs: Inputs, frames: seq<Frame>, startNs: int, stepNs: int, n: nat)
    requires n <= |frames|
    ensures LidarOkCount(inputs, frames, startNs, stepNs, n) == 0 <==>
      forall idx :: 0 <= idx < n ==> LidarCloud(inputs, frames[idx], FrameTime(startNs, stepNs, idx)).None?
  {
    if n > 0 {
      NoScanWritten(inputs, frames, startNs, stepNs, n - 1);
    }
  }

  /** No image is written exactly when every one of the first `n` fails. */
  lemma {:induction false} NoImageWritten(inputs: Inputs, frames: seq<Frame>, n: nat)
    requires n <= |frames|
    ensures CameraOkCount(inputs, frames, n) == 0 <==> forall idx :: 0 <= idx < n ==> !CameraSucceeds(inputs, frames[idx])
  {
    if n > 0 {
      NoImageWritten(inputs, frames, n - 1);
    }
  }
}
