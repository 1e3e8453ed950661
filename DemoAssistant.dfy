/**
  The online assistant (foxglove-ai-assistant.jsx): the demo answer built
  from keywords of the description, the extraction of the JSON object from
  the model's reply text, and the layout document built from a result.
*/
module DemoAssistant {
  import opened Wrappers
  import opened Text
  import opened Json
  import opened Analysis

  /** The answer format requested from the model, which the demo mode also builds. */
  datatype AnalysisResult = AnalysisResult(
    datasetType: string,
    topics: seq<Topic>,
    frameSettings: FrameSettings,
    pointCloudSettings: PointCloudSettings,
    layoutSummary: string)

  // ---------------------------------------------------------------------------
  // The demo answer

  const KITTI_DATASET := "KITTI-360 Autonomous Vehicle Dataset"
  const ROS_DATASET := "ROS Robotics Dataset"

  const KITTI_CAMERA_NOTE := "Left semantic camera feed (validated KITTI-360 topic name)"
  const KITTI_CALIBRATION_NOTE := "Camera calibration data for accurate projection and undistortion"
  const KITTI_VELODYNE_NOTE := "Velodyne HDL-64E LiDAR point cloud (64 channels)"
  const KITTI_TF_NOTE := "Transform tree including map→velodyne_frame→camera frames"

  const KITTI_CAMERA_NAME := "/camera_00_semantic/image"
  const KITTI_CALIBRATION_NAME := "/camera_00_semantic/calibration"
  const KITTI_VELODYNE_NAME := "/velodyne_pointcloud"

  const KITTI_CAMERA := Topic(KITTI_CAMERA_NAME, IMAGE_TYPE, KITTI_CAMERA_NOTE, HIGH)
  const KITTI_CALIBRATION := Topic(KITTI_CALIBRATION_NAME, CAMERAINFO_TYPE, KITTI_CALIBRATION_NOTE, MEDIUM)
  const KITTI_VELODYNE := Topic(KITTI_VELODYNE_NAME, POINTCLOUD_TYPE, KITTI_VELODYNE_NOTE, HIGH)
  const KITTI_TF := Topic("/tf", TF_TYPE, KITTI_TF_NOTE, HIGH)
  const KITTI_TOPICS := [KITTI_CAMERA, KITTI_CALIBRATION, KITTI_VELODYNE, KITTI_TF]

  const KITTI_FIXED_REASON := "World-fixed reference frame for KITTI-360 global coordinates"
  const KITTI_DISPLAY_REASON := "Sensor-centric view - LiDAR is the primary reference sensor in KITTI-360"
  const KITTI_FRAMES := FrameSettings("map", KITTI_FIXED_REASON, "velodyne_frame", KITTI_DISPLAY_REASON)
  const KITTI_POINTS_REASON := "Z-range 0-30m validated for urban KITTI-360 scenes. Colormap highlights elevation (ground=blue, buildings=red). Point size 5 ensures visibility at distance."
  const KITTI_POINTS := PointCloudSettings(5, "colormap", "z", 0, 30, KITTI_POINTS_REASON)
  const KITTI_SUMMARY := "Optimized for KITTI-360: 3D view with point cloud + camera overlay, synchronized playback, transform tree visualization"

  /** The camera topic every layout falls back to. */
  const DEFAULT_CAMERA_NAME := "/camera/image_raw"

  const GENERIC_CAMERA := Topic(DEFAULT_CAMERA_NAME, IMAGE_TYPE, "Primary camera feed for visual context", HIGH)
  const GENERIC_LIDAR_NAME := "/points"
  const GENERIC_LIDAR := Topic(GENERIC_LIDAR_NAME, POINTCLOUD_TYPE, "3D LiDAR point cloud for spatial understanding", HIGH)
  const GENERIC_TF := Topic("/tf", TF_TYPE, "Transform tree for coordinate frame relationships", HIGH)

  const GENERIC_FIXED_REASON := "World-fixed reference for consistent visualization across time"
  const GENERIC_DISPLAY_REASON := "Robot-centric view follows sensor perspective"
  const GENERIC_POINTS_REASON := "Height-based coloring (z-axis) clearly shows ground plane vs obstacles. Size 5 balances detail with performance."
  const GENERIC_POINTS := PointCloudSettings(5, "colormap", "z", -2, 10, GENERIC_POINTS_REASON)
  const GENERIC_SUMMARY := "3-panel layout: left for 3D visualization, top-right for camera feed, bottom-right for topic list and transforms"

  predicate IsKitti(input: string) {
    Contains(Lower(input), "kitti")
  }

  predicate MentionsLidar(input: string) {
    Contains(Lower(input), "lidar") || Contains(Lower(input), "velodyne")
  }

  predicate MentionsCamera(input: string) {
    Contains(Lower(input), "camera")
  }

  /** The generic list: camera and lidar topics by keyword, then the transform tree. */
  function GenericDemoTopics(hasCamera: bool, hasLidar: bool): seq<Topic> {
    (if hasCamera then [GENERIC_CAMERA] else []) + (if hasLidar then [GENERIC_LIDAR] else []) + [GENERIC_TF]
  }

  /** `generateDemoResult`. */
  function GenerateDemoResult(input: string): AnalysisResult {
    if IsKitti(input) then
      AnalysisResult(KITTI_DATASET, KITTI_TOPICS, KITTI_FRAMES, KITTI_POINTS, KITTI_SUMMARY)
    else
      var hasLidar := MentionsLidar(input);
      AnalysisResult(
        ROS_DATASET,
        GenericDemoTopics(MentionsCamera(input), hasLidar),
        FrameSettings("map", GENERIC_FIXED_REASON, if hasLidar then "base_link" else "base_link", GENERIC_DISPLAY_REASON),
        GENERIC_POINTS,
        GENERIC_SUMMARY)
  }

  /**
    A description mentioning "kitti" in any letter case gets the four
    KITTI-360 topics: camera, calibration, velodyne and transforms, where the
    calibration is the only one of medium priority; the view follows the
    velodyne frame and heights 0 to 30 are coloured at point size 5.
  */
  lemma KittiDemoResult(input: string)
    requires IsKitti(input)
    ensures var r := GenerateDemoResult(input);
      && |r.topics| == 4
      && r.topics[0].name == "/camera_00_semantic/image" && r.topics[0].msgType == IMAGE_TYPE
      && r.topics[1].name == "/camera_00_semantic/calibration" && r.topics[1].msgType == CAMERAINFO_TYPE
      && r.topics[2].name == "/velodyne_pointcloud" && r.topics[2].msgType == POINTCLOUD_TYPE
      && r.topics[3].name == "/tf" && r.topics[3].msgType == TF_TYPE
      && (forall i :: 0 <= i < |r.topics| ==> (r.topics[i].priority == MEDIUM <==> i == 1))
      && (forall i :: 0 <= i < |r.topics| ==> (r.topics[i].priority == HIGH <==> i != 1))
      && r.frameSettings.fixedFrame == "map" && r.frameSettings.displayFrame == "velodyne_frame"
      && r.pointCloudSettings.pointSize == 5
      && r.pointCloudSettings.valueMin == 0 && r.pointCloudSettings.valueMax == 30
  {
    assert HIGH != MEDIUM;
  }

  /**
    Otherwise the list holds the camera topic exactly when "camera" is
    mentioned, "/points" exactly when "lidar" or "velodyne" is, and always
    ends with "/tf"; every topic is of high priority, the view follows
    "base_link" whether or not there is a lidar, and heights -2 to 10 are
    coloured at point size 5.
  */
  lemma GenericDemoResult(input: string)
    requires !IsKitti(input)
    ensures var r := GenerateDemoResult(input);
      var ts := r.topics;
      && |ts| == 1 + (if MentionsCamera(input) then 1 else 0) + (if MentionsLidar(input) then 1 else 0)
      && ts[|ts| - 1].name == "/tf"
      && ((exists i :: 0 <= i < |ts| && ts[i].name == DEFAULT_CAMERA_NAME) <==> MentionsCamera(input))
      && ((exists i :: 0 <= i < |ts| && ts[i].name == "/points") <==> MentionsLidar(input))
      && (forall i :: 0 <= i < |ts| ==> ts[i].priority == HIGH)
      && r.frameSettings.fixedFrame == "map" && r.frameSettings.displayFrame == "base_link"
      && r.pointCloudSettings.pointSize == 5
      && r.pointCloudSettings.valueMin == -2 && r.pointCloudSettings.valueMax == 10
  {
    GenericDemoTopicsShape(MentionsCamera(input), MentionsLidar(input));
  }

  lemma GenericDemoTopicsShape(hasCamera: bool, hasLidar: bool)
    ensures var ts := GenericDemoTopics(hasCamera, hasLidar);
      && |ts| == 1 + (if hasCamera then 1 else 0) + (if hasLidar then 1 else 0)
      && ts[|ts| - 1] == GENERIC_TF
      && ((exists i :: 0 <= i < |ts| && ts[i].name == DEFAULT_CAMERA_NAME) <==> hasCamera)
      && ((exists i :: 0 <= i < |ts| && ts[i].name == "/points") <==> hasLidar)
      && (forall i :: 0 <= i < |ts| ==> ts[i].priority == HIGH)
  {
    var ts := GenericDemoTopics(hasCamera, hasLidar);
    var cam := if hasCamera then 1 else 0;
    if hasCamera {
      assert ts[0].name == DEFAULT_CAMERA_NAME;
    }
    if hasLidar {
      assert ts[cam].name == "/points";
    }
    assert DEFAULT_CAMERA_NAME != "/points" && DEFAULT_CAMERA_NAME != "/tf" && "/points" != "/tf";
  }

  // ---------------------------------------------------------------------------
  // Extracting the object from the reply text

  /** `s[i..j]` with `j` included is a text matched by `/\{[\s\S]*\}/`. */
  predicate IsObjectMatch(s: string, i: int, j: int) {
    0 <= i < j < |s| && s[i] == '{' && s[j] == '}'
  }

  /**
    `content.match(/\{[\s\S]*\}/)`: the regular expression matches at the
    first '{' that has a '}' after it and, being greedy, runs to the last '}'.
  */
  function ExtractObject(content: string): Option<string> {
    match (IndexOf(content, '{'), LastIndexOf(content, '}'))
    case (Some(i), Some(j)) => if i < j then Some(content[i..j + 1]) else None
    case _ => None
  }

  /**
    There is no match exactly when no '{' precedes a '}'; otherwise the
    match is the leftmost and longest one: it starts no later and ends no
    earlier than any other match.
  */
  lemma ExtractObjectSpec(content: string)
    ensures ExtractObject(content).None? <==> forall i, j :: !IsObjectMatch(content, i, j)
    ensures ExtractObject(content).Some? ==> exists i, j ::
      && IsObjectMatch(content, i, j)
      && ExtractObject(content).value == content[i..j + 1]
      && forall i', j' :: IsObjectMatch(content, i', j') ==> i <= i' && j' <= j
  {
    IndexOfSpec(content, '{');
    LastIndexOfSpec(content, '}');
    var first, last := IndexOf(content, '{'), LastIndexOf(content, '}');
    if first.Some? && last.Some? && first.value < last.value {
      assert IsObjectMatch(content, first.value, last.value);
    }
  }

  /** The extracted text is itself its own match: extraction is idempotent. */
  lemma ExtractObjectIdempotent(content: string)
    requires ExtractObject(content).Some?
    ensures var m := ExtractObject(content).value;
      && |m| >= 2 && m[0] == '{' && m[|m| - 1] == '}'
      && ExtractObject(m) == Some(m)
  {
    IndexOfSpec(content, '{');
    LastIndexOfSpec(content, '}');
    var m := ExtractObject(content).value;
    assert m[0] == '{' && m[|m| - 1] == '}';
    assert IndexOf(m, '{') == Some(0);
    assert LastIndexOf(m, '}') == Some(|m| - 1);
    assert m[0..|m|] == m;
  }

  // ---------------------------------------------------------------------------
  // The layout document

  /** The point-cloud topic is chosen by name: it mentions "pointcloud" or "points". */
  predicate NamesPointCloud(t: Topic) {
    Contains(t.name, "pointcloud") || Contains(t.name, "points")
  }

  predicate NamesCalibration(t: Topic) {
    Contains(t.name, "calibration")
  }

  const PANEL_3D := "3D!1"
  const PANEL_IMAGE := "Image!1"
  const PANEL_TOPIC_LIST := "TopicList!1"
  const PANEL_FOLLOW := "3DPanel!1"

  /** `{ "visible": true }`. */
  const VISIBLE := JObj([Flag("visible", true)])

  /**
    The point-cloud layer. "colorMode" is written twice: the object built
    from the settings first, the string "colormap" last.
  */
  function LayerEntries(s: PointCloudSettings): seq<Member> {
    [ Flag("visible", true),
      Member("pointSize", JNum(s.pointSize)),
      Member("colorMode", JObj([Member("mode", JStr(s.colorMode))])),
      Member("colorField", JStr(s.colorField)),
      Member("colorMap", JStr("turbo")),
      Member("colorMode", JStr("colormap")),
      Member("explicitAlpha", JNum(1)),
      Member("settings", JObj([Member("minValue", JNum(s.valueMin)), Member("maxValue", JNum(s.valueMax))]))]
  }

  /** The grid, then the point-cloud layer under the topic's name when one was found. */
  function LayersEntries(pointCloud: Option<Topic>, s: PointCloudSettings): seq<Member> {
    [Member("grid", VISIBLE)] +
    match pointCloud
    case Some(t) => [Member(t.name, Obj(LayerEntries(s)))]
    case None => []
  }

  /** The visible topics: the point-cloud topic when one was found, and "/tf". */
  function TopicsEntries(pointCloud: Option<Topic>): seq<Member> {
    (match pointCloud
     case Some(t) => [Member(t.name, VISIBLE)]
     case None => [])
    + [Member("/tf", VISIBLE)]
  }

  const CAMERA_STATE := JObj([
    Flag("perspective", true),
    Member("distance", JNum(30)),
    Member("phi", JNum(60)),
    Member("thetaOffset", JNum(45)),
    Member("targetOffset", JArr([JNum(0), JNum(0), JNum(0)]))])

  const SCENE := JObj([Flag("enableStats", false), Member("backgroundColor", JStr("#1a1a1a"))])

  const TRANSFORMS := JObj([Member("frame:map", VISIBLE), Member("frame:velodyne_frame", VISIBLE)])

  function ThreeDEntries(pointCloud: Option<Topic>, s: PointCloudSettings): seq<Member> {
    [ Member("layers", Obj(LayersEntries(pointCloud, s))),
      Member("cameraState", CAMERA_STATE),
      Member("followMode", JStr("follow-pose")),
      Member("scene", SCENE),
      Member("transforms", TRANSFORMS),
      Member("topics", Obj(TopicsEntries(pointCloud)))]
  }

  /** The image panel: its camera topic, the calibration topic when one was found, fixed options. */
  function ImageEntries(image: Option<Topic>, calibration: Option<Topic>): seq<Member> {
    [Member("cameraTopic", JStr(NameOr(image, DEFAULT_CAMERA_NAME)))]
    + (match calibration
       case Some(t) => [Member("calibrationTopic", JStr(t.name))]
       case None => [])
    + [ Flag("transformMarkers", true),
        Flag("smooth", true),
        Flag("flipHorizontal", false),
        Flag("flipVertical", false),
        Member("rotation", JNum(0))]
  }

  function ConfigEntries(r: AnalysisResult): seq<Member> {
    [ Member(PANEL_3D, JObj(ThreeDEntries(Find(r.topics, NamesPointCloud), r.pointCloudSettings))),
      Member(PANEL_IMAGE, Obj(ImageEntries(Find(r.topics, HasImageType), Find(r.topics, NamesCalibration)))),
      Member(PANEL_TOPIC_LIST, JObj([])),
      Member(PANEL_FOLLOW, JObj([Member("followTf", JStr(r.frameSettings.displayFrame))]))]
  }

  const PLAYBACK := JObj([Member("speed", JNum(1)), Member("messageRate", JNum(30))])

  const SPLIT_LAYOUT := JObj([
    Member("first", JObj([
      Member("first", JStr(PANEL_3D)),
      Member("second", JObj([
        Member("first", JStr(PANEL_IMAGE)),
        Member("second", JStr(PANEL_TOPIC_LIST)),
        Member("direction", JStr("column")),
        Member("splitPercentage", JNum(50))])),
      Member("direction", JStr("row")),
      Member("splitPercentage", JNum(65))])),
    Member("direction", JStr("row"))])

  function LayoutEntries(r: AnalysisResult): seq<Member> {
    [ Member("configById", JObj(ConfigEntries(r))),
      Member("globalVariables", JObj([
        Member("fixed_frame", JStr(r.frameSettings.fixedFrame)),
        Member("display_frame", JStr(r.frameSettings.displayFrame))])),
      Member("userNodes", JObj([])),
      Member("playbackConfig", PLAYBACK),
      Member("layout", SPLIT_LAYOUT)]
  }

  /** `generateFoxgloveLayout`, as a document tree; `None` stands for null. */
  function GenerateLayout(result: Option<AnalysisResult>): Option<Json> {
    match result
    case None => None
    case Some(r) => Some(JObj(LayoutEntries(r)))
  }

  // One read step per level of the document.

  lemma LayoutConfigStep(r: AnalysisResult, path: seq<string>)
    ensures At(JObj(LayoutEntries(r)), ["configById"] + path) == At(JObj(ConfigEntries(r)), path)
  {
    AtMember(LayoutEntries(r), 0, ["configById"] + path);
    assert (["configById"] + path)[1..] == path;
  }

  lemma LayoutGlobalsStep(r: AnalysisResult, path: seq<string>)
    ensures At(JObj(LayoutEntries(r)), ["globalVariables"] + path) ==
      At(JObj([Member("fixed_frame", JStr(r.frameSettings.fixedFrame)),
               Member("display_frame", JStr(r.frameSettings.displayFrame))]), path)
  {
    AtMember(LayoutEntries(r), 1, ["globalVariables"] + path);
    assert (["globalVariables"] + path)[1..] == path;
  }

  lemma ConfigThreeDStep(r: AnalysisResult, path: seq<string>)
    ensures At(JObj(ConfigEntries(r)), [PANEL_3D] + path) ==
      At(JObj(ThreeDEntries(Find(r.topics, NamesPointCloud), r.pointCloudSettings)), path)
  {
    AtMember(ConfigEntries(r), 0, [PANEL_3D] + path);
    assert ([PANEL_3D] + path)[1..] == path;
  }

  lemma ConfigImageStep(r: AnalysisResult, path: seq<string>)
    ensures At(JObj(ConfigEntries(r)), [PANEL_IMAGE] + path) ==
      At(Obj(ImageEntries(Find(r.topics, HasImageType), Find(r.topics, NamesCalibration))), path)
  {
    AtMember(ConfigEntries(r), 1, [PANEL_IMAGE] + path);
    assert ([PANEL_IMAGE] + path)[1..] == path;
  }

  lemma ConfigFollowStep(r: AnalysisResult, path: seq<string>)
    ensures At(JObj(ConfigEntries(r)), [PANEL_FOLLOW] + path) ==
      At(JObj([Member("followTf", JStr(r.frameSettings.displayFrame))]), path)
  {
    AtMember(ConfigEntries(r), 3, [PANEL_FOLLOW] + path);
    assert ([PANEL_FOLLOW] + path)[1..] == path;
  }

  lemma ThreeDLayersStep(pointCloud: Option<Topic>, s: PointCloudSettings, path: seq<string>)
    ensures At(JObj(ThreeDEntries(pointCloud, s)), ["layers"] + path) == At(Obj(LayersEntries(pointCloud, s)), path)
  {
    AtMember(ThreeDEntries(pointCloud, s), 0, ["layers"] + path);
    assert (["layers"] + path)[1..] == path;
  }

  lemma ThreeDTopicsStep(pointCloud: Option<Topic>, s: PointCloudSettings, path: seq<string>)
    ensures At(JObj(ThreeDEntries(pointCloud, s)), ["topics"] + path) == At(Obj(TopicsEntries(pointCloud)), path)
  {
    AtMember(ThreeDEntries(pointCloud, s), 5, ["topics"] + path);
    assert (["topics"] + path)[1..] == path;
  }

  /** A name mentioning "pointcloud" or "points" is neither "grid" nor "/tf". */
  lemma PointCloudNameIsNew(t: Topic)
    requires NamesPointCloud(t)
    ensures t.name != "grid" && t.name != "/tf"
  {
    assert |t.name| >= 6;
  }

  // ---------------------------------------------------------------------------
  // What the layout document says

  /** A point-cloud layer path, read one level at a time. */
  lemma LayersPath(r: AnalysisResult, name: string)
    ensures At(JObj(LayoutEntries(r)), ["configById", PANEL_3D, "layers", name]) ==
      At(Obj(LayersEntries(Find(r.topics, NamesPointCloud), r.pointCloudSettings)), [name])
  {
    LayoutConfigStep(r, [PANEL_3D, "layers", name]);
    ConfigThreeDStep(r, ["layers", name]);
    ThreeDLayersStep(Find(r.topics, NamesPointCloud), r.pointCloudSettings, [name]);
    assert ["configById", PANEL_3D, "layers", name] == ["configById"] + [PANEL_3D, "layers", name];
    assert [PANEL_3D, "layers", name] == [PANEL_3D] + ["layers", name];
    assert ["layers", name] == ["layers"] + [name];
  }

  /** A point-cloud topic path, read one level at a time. */
  lemma TopicsPath(r: AnalysisResult, name: string)
    ensures At(JObj(LayoutEntries(r)), ["configById", PANEL_3D, "topics", name]) ==
      At(Obj(TopicsEntries(Find(r.topics, NamesPointCloud))), [name])
  {
    LayoutConfigStep(r, [PANEL_3D, "topics", name]);
    ConfigThreeDStep(r, ["topics", name]);
    ThreeDTopicsStep(Find(r.topics, NamesPointCloud), r.pointCloudSettings, [name]);
    assert ["configById", PANEL_3D, "topics", name] == ["configById"] + [PANEL_3D, "topics", name];
    assert [PANEL_3D, "topics", name] == [PANEL_3D] + ["topics", name];
    assert ["topics", name] == ["topics"] + [name];
  }

  /** An image-panel path, read one level at a time. */
  lemma ImagePath(r: AnalysisResult, key: string)
    ensures At(JObj(LayoutEntries(r)), ["configById", PANEL_IMAGE, key]) ==
      At(Obj(ImageEntries(Find(r.topics, HasImageType), Find(r.topics, NamesCalibration))), [key])
  {
    LayoutConfigStep(r, [PANEL_IMAGE, key]);
    ConfigImageStep(r, [key]);
    assert ["configById", PANEL_IMAGE, key] == ["configById"] + [PANEL_IMAGE, key];
    assert [PANEL_IMAGE, key] == [PANEL_IMAGE] + [key];
  }

  /**
    There is a layout exactly when there is a result. Its 3D layers are the
    grid plus, exactly when a topic is named like a point cloud, a layer
    under the first such topic's name.
  */
  lemma PointCloudLayer(result: Option<AnalysisResult>, name: string)
    ensures GenerateLayout(result).None? <==> result.None?
    ensures result.Some? ==>
      var pc := Find(result.value.topics, NamesPointCloud);
      At(GenerateLayout(result).value, ["configById", PANEL_3D, "layers", name]) ==
        if name == "grid" then Some(VISIBLE)
        else if pc.Some? && name == pc.value.name then Some(Obj(LayerEntries(result.value.pointCloudSettings)))
        else None
  {
    if result.Some? {
      var r := result.value;
      var pc := Find(r.topics, NamesPointCloud);
      var entries := LayersEntries(pc, r.pointCloudSettings);
      LayersPath(r, name);
      if pc.Some? {
        FindSpec(r.topics, NamesPointCloud);
        PointCloudNameIsNew(pc.value);
        assert entries == [Member("grid", VISIBLE), Member(pc.value.name, Obj(LayerEntries(r.pointCloudSettings)))];
        if name == pc.value.name {
          AtObj(entries, 1, [name]);
        } else if name == "grid" {
          AtObj(entries, 0, [name]);
        } else {
          AtAbsent(entries, [name]);
        }
      } else {
        assert entries == [Member("grid", VISIBLE)];
        if name == "grid" {
          AtObj(entries, 0, [name]);
        } else {
          AtAbsent(entries, [name]);
        }
      }
    }
  }

  /** The visible topics are "/tf" and, when one was found, the point-cloud topic. */
  lemma VisibleTopics(r: AnalysisResult, name: string)
    ensures var pc := Find(r.topics, NamesPointCloud);
      At(GenerateLayout(Some(r)).value, ["configById", PANEL_3D, "topics", name]) ==
        if name == "/tf" || (pc.Some? && name == pc.value.name) then Some(VISIBLE) else None
  {
    var pc := Find(r.topics, NamesPointCloud);
    var entries := TopicsEntries(pc);
    TopicsPath(r, name);
    if pc.Some? {
      FindSpec(r.topics, NamesPointCloud);
      PointCloudNameIsNew(pc.value);
      assert entries == [Member(pc.value.name, VISIBLE), Member("/tf", VISIBLE)];
      if name == "/tf" {
        AtObj(entries, 1, [name]);
      } else if name == pc.value.name {
        AtObj(entries, 0, [name]);
      } else {
        AtAbsent(entries, [name]);
      }
    } else {
      assert entries == [Member("/tf", VISIBLE)];
      if name == "/tf" {
        AtObj(entries, 0, [name]);
      } else {
        AtAbsent(entries, [name]);
      }
    }
  }

  /** The image panel shows the first image-typed topic, or "/camera/image_raw" without one (or with an empty name). */
  lemma CameraTopicFallback(r: AnalysisResult)
    ensures var image := Find(r.topics, HasImageType);
      && At(GenerateLayout(Some(r)).value, ["configById", PANEL_IMAGE, "cameraTopic"]) ==
           Some(JStr(NameOr(image, DEFAULT_CAMERA_NAME)))
      && (image.None? ==>
           At(GenerateLayout(Some(r)).value, ["configById", PANEL_IMAGE, "cameraTopic"]) == Some(JStr(DEFAULT_CAMERA_NAME)))
  {
    ImagePath(r, "cameraTopic");
    CameraEntry(Find(r.topics, HasImageType), Find(r.topics, NamesCalibration));
  }

  lemma CameraEntry(image: Option<Topic>, calibration: Option<Topic>)
    ensures At(Obj(ImageEntries(image, calibration)), ["cameraTopic"]) == Some(JStr(NameOr(image, DEFAULT_CAMERA_NAME)))
  {
    AtObj(ImageEntries(image, calibration), 0, ["cameraTopic"]);
  }

  /** The image panel names a calibration topic exactly when some topic name mentions "calibration", and then the first. */
  lemma CalibrationTopicIff(r: AnalysisResult)
    ensures var calibration := Find(r.topics, NamesCalibration);
      var read := At(GenerateLayout(Some(r)).value, ["configById", PANEL_IMAGE, "calibrationTopic"]);
      && (read.Some? <==> exists i :: 0 <= i < |r.topics| && NamesCalibration(r.topics[i]))
      && (calibration.Some? ==> read == Some(JStr(calibration.value.name)))
  {
    FindSpec(r.topics, NamesCalibration);
    ImagePath(r, "calibrationTopic");
    CalibrationEntry(Find(r.topics, HasImageType), Find(r.topics, NamesCalibration));
  }

  lemma CalibrationEntry(image: Option<Topic>, calibration: Option<Topic>)
    ensures At(Obj(ImageEntries(image, calibration)), ["calibrationTopic"]) ==
      match calibration
      case Some(t) => Some(JStr(t.name))
      case None => None
  {
    var entries := ImageEntries(image, calibration);
    if calibration.Some? {
      AtObj(entries, 1, ["calibrationTopic"]);
    } else {
      AtAbsent(entries, ["calibrationTopic"]);
    }
  }

  /** The global variables echo the fixed and display frames, and the follow panel tracks the display frame. */
  lemma FramesEchoed(r: AnalysisResult)
    ensures var doc := GenerateLayout(Some(r)).value;
      && At(doc, ["globalVariables", "fixed_frame"]) == Some(JStr(r.frameSettings.fixedFrame))
      && At(doc, ["globalVariables", "display_frame"]) == Some(JStr(r.frameSettings.displayFrame))
      && At(doc, ["configById", PANEL_FOLLOW, "followTf"]) == Some(JStr(r.frameSettings.displayFrame))
  {
    GlobalsEchoed(r);
    FollowTracksDisplay(r);
  }

  lemma GlobalsEchoed(r: AnalysisResult)
    ensures At(JObj(LayoutEntries(r)), ["globalVariables", "fixed_frame"]) == Some(JStr(r.frameSettings.fixedFrame))
    ensures At(JObj(LayoutEntries(r)), ["globalVariables", "display_frame"]) == Some(JStr(r.frameSettings.displayFrame))
  {
    var globals := [Member("fixed_frame", JStr(r.frameSettings.fixedFrame)),
                    Member("display_frame", JStr(r.frameSettings.displayFrame))];
    LayoutGlobalsStep(r, ["fixed_frame"]);
    AtMember(globals, 0, ["fixed_frame"]);
    LayoutGlobalsStep(r, ["display_frame"]);
    AtMember(globals, 1, ["display_frame"]);
  }

  lemma FollowTracksDisplay(r: AnalysisResult)
    ensures At(JObj(LayoutEntries(r)), ["configById", PANEL_FOLLOW, "followTf"]) == Some(JStr(r.frameSettings.displayFrame))
  {
    LayoutConfigStep(r, [PANEL_FOLLOW, "followTf"]);
    ConfigFollowStep(r, ["followTf"]);
    AtMember([Member("followTf", JStr(r.frameSettings.displayFrame))], 0, ["followTf"]);
    assert ["configById", PANEL_FOLLOW, "followTf"] == ["configById"] + [PANEL_FOLLOW, "followTf"];
    assert [PANEL_FOLLOW, "followTf"] == [PANEL_FOLLOW] + ["followTf"];
  }

  /**
    In the point-cloud layer the later "colorMode" wins: it is always the
    string "colormap", whatever colour mode the result asked for; size and
    value range come from the result.
  */
  lemma LayerColorModeOverridden(s: PointCloudSettings)
    ensures var layer := Obj(LayerEntries(s));
      && At(layer, ["colorMode"]) == Some(JStr("colormap"))
      && At(layer, ["pointSize"]) == Some(JNum(s.pointSize))
  {
    LayerColorMode(s);
    LayerPointSize(s);
  }

  lemma LayerColorMode(s: PointCloudSettings)
    ensures At(Obj(LayerEntries(s)), ["colorMode"]) == Some(JStr("colormap"))
  {
    AtObj(LayerEntries(s), 5, ["colorMode"]);
  }

  lemma LayerPointSize(s: PointCloudSettings)
    ensures At(Obj(LayerEntries(s)), ["pointSize"]) == Some(JNum(s.pointSize))
  {
    AtObj(LayerEntries(s), 1, ["pointSize"]);
  }

  /** The value range of the point-cloud layer comes from the result. */
  lemma LayerValueRange(s: PointCloudSettings)
    ensures At(Obj(LayerEntries(s)), ["settings", "minValue"]) == Some(JNum(s.valueMin))
    ensures At(Obj(LayerEntries(s)), ["settings", "maxValue"]) == Some(JNum(s.valueMax))
  {
    var range := [Member("minValue", JNum(s.valueMin)), Member("maxValue", JNum(s.valueMax))];
    AtObj(LayerEntries(s), 7, ["settings", "minValue"]);
    AtObj(LayerEntries(s), 7, ["settings", "maxValue"]);
    AtMember(range, 0, ["minValue"]);
    AtMember(range, 1, ["maxValue"]);
  }

  // ---------------------------------------------------------------------------
  // The demo answers, laid out

  /** The KITTI-360 camera name mentions none of the layout's keywords. */
  lemma KittiCameraKeywords(camera: string)
    requires camera == KITTI_CAMERA_NAME
    ensures !Contains(camera, "pointcloud") && !Contains(camera, "points") && !Contains(camera, "calibration")
  {
    NotContainedForAbsentChar(camera, "pointcloud", 0);
    NotContainedForAbsentChar(camera, "points", 0);
    NotContainedForAbsentChar(camera, "calibration", 4);
  }

  /** The KITTI-360 calibration name mentions "calibration" and no point-cloud keyword. */
  lemma KittiCalibrationKeywords(calibration: string)
    requires calibration == KITTI_CALIBRATION_NAME
    ensures !Contains(calibration, "pointcloud") && !Contains(calibration, "points")
    ensures Contains(calibration, "calibration")
  {
    assert OccursAt(calibration, "calibration", 20);
    NotContainedForAbsentChar(calibration, "pointcloud", 0);
    NotContainedForAbsentChar(calibration, "points", 0);
  }

  /** What the layout picks from the KITTI-360 list: the velodyne, the camera, the calibration. */
  lemma KittiSelections(topics: seq<Topic>)
    requires topics == KITTI_TOPICS
    ensures Find(topics, NamesPointCloud) == Some(KITTI_VELODYNE)
    ensures Find(topics, HasImageType) == Some(KITTI_CAMERA)
    ensures Find(topics, NamesCalibration) == Some(KITTI_CALIBRATION)
  {
    KittiCameraKeywords(topics[0].name);
    KittiCalibrationKeywords(topics[1].name);
    assert OccursAt(topics[2].name, "pointcloud", 10);
    ImageTypeMentioned();
    FindIsFirst(topics, NamesPointCloud, 2);
    FindIsFirst(topics, HasImageType, 0);
    FindIsFirst(topics, NamesCalibration, 1);
  }

  /**
    The KITTI-360 demo answer lays out the velodyne cloud as the point-cloud
    layer, shows the semantic camera with its calibration and follows the
    velodyne frame.
  */
  lemma KittiDemoLayout(input: string)
    requires IsKitti(input)
    ensures var doc := GenerateLayout(Some(GenerateDemoResult(input))).value;
      && At(doc, ["configById", PANEL_3D, "layers", "/velodyne_pointcloud"]) == Some(Obj(LayerEntries(KITTI_POINTS)))
      && At(doc, ["configById", PANEL_IMAGE, "cameraTopic"]) == Some(JStr("/camera_00_semantic/image"))
      && At(doc, ["configById", PANEL_IMAGE, "calibrationTopic"]) == Some(JStr("/camera_00_semantic/calibration"))
      && At(doc, ["configById", PANEL_FOLLOW, "followTf"]) == Some(JStr("velodyne_frame"))
  {
    var r := GenerateDemoResult(input);
    KittiSelections(r.topics);
    PointCloudLayer(Some(r), "/velodyne_pointcloud");
    CameraTopicFallback(r);
    CalibrationTopicIff(r);
    FramesEchoed(r);
  }

  /** The generic camera name mentions neither a point-cloud keyword nor "calibration". */
  lemma GenericCameraKeywords(camera: string)
    requires camera == DEFAULT_CAMERA_NAME
    ensures !Contains(camera, "pointcloud") && !Contains(camera, "points") && !Contains(camera, "calibration")
  {
    NotContainedForAbsentChar(camera, "pointcloud", 0);
    NotContainedForAbsentChar(camera, "points", 0);
    NotContainedForAbsentChar(camera, "calibration", 4);
  }

  /** "/points" mentions "points" and not "calibration"; its type does not mention "Image". */
  lemma GenericLidarKeywords(lidar: string, msgType: string)
    requires lidar == GENERIC_LIDAR_NAME && msgType == POINTCLOUD_TYPE
    ensures Contains(lidar, "points") && !Contains(lidar, "calibration") && !Contains(msgType, "Image")
  {
    assert OccursAt(lidar, "points", 1);
    NotContainedForAbsentChar(msgType, "Image", 0);
    NotContainedForAbsentChar(lidar, "calibration", 4);
  }

  /** "/tf" matches none of the layout's selections. */
  lemma GenericTfKeywords(tf: string, msgType: string)
    requires tf == "/tf" && msgType == TF_TYPE
    ensures !Contains(tf, "pointcloud") && !Contains(tf, "points") && !Contains(tf, "calibration")
    ensures !Contains(msgType, "Image")
  {
    NotContainedForAbsentChar(tf, "pointcloud", 0);
    NotContainedForAbsentChar(tf, "points", 0);
    NotContainedForAbsentChar(msgType, "Image", 0);
    NotContainedForAbsentChar(tf, "calibration", 4);
  }

  /** What the layout picks from a generic list: "/points" and the camera when present, never a calibration. */
  lemma GenericSelections(hasCamera: bool, hasLidar: bool)
    ensures var topics := GenericDemoTopics(hasCamera, hasLidar);
      && Find(topics, NamesPointCloud) == (if hasLidar then Some(GENERIC_LIDAR) else None)
      && Find(topics, HasImageType) == (if hasCamera then Some(GENERIC_CAMERA) else None)
      && Find(topics, NamesCalibration).None?
  {
    var topics := GenericDemoTopics(hasCamera, hasLidar);
    var cam := if hasCamera then 1 else 0;
    GenericCameraKeywords(GENERIC_CAMERA.name);
    ImageTypeMentioned();
    GenericLidarKeywords(GENERIC_LIDAR.name, GENERIC_LIDAR.msgType);
    GenericTfKeywords(GENERIC_TF.name, GENERIC_TF.msgType);
    assert topics[|topics| - 1] == GENERIC_TF;
    assert hasCamera ==> topics[0] == GENERIC_CAMERA;
    assert hasLidar ==> topics[cam] == GENERIC_LIDAR;
    assert forall j :: 0 <= j < |topics| ==> topics[j] in {GENERIC_CAMERA, GENERIC_LIDAR, GENERIC_TF};
    FindSpec(topics, NamesCalibration);
    if hasLidar {
      FindIsFirst(topics, NamesPointCloud, cam);
    } else {
      FindSpec(topics, NamesPointCloud);
    }
    if hasCamera {
      FindIsFirst(topics, HasImageType, 0);
    } else {
      FindSpec(topics, HasImageType);
    }
  }

  /** The layout of any result whose topics are a generic list. */
  lemma GenericListLayout(r: AnalysisResult, hasCamera: bool, hasLidar: bool)
    requires r.topics == GenericDemoTopics(hasCamera, hasLidar)
    ensures var doc := GenerateLayout(Some(r)).value;
      && At(doc, ["configById", PANEL_IMAGE, "cameraTopic"]) == Some(JStr(DEFAULT_CAMERA_NAME))
      && At(doc, ["configById", PANEL_IMAGE, "calibrationTopic"]).None?
      && (At(doc, ["configById", PANEL_3D, "layers", "/points"]).Some? <==> hasLidar)
  {
    GenericSelections(hasCamera, hasLidar);
    PointCloudLayer(Some(r), "/points");
    CameraTopicFallback(r);
    CalibrationTopicIff(r);
  }

  /**
    A generic demo answer always shows "/camera/image_raw" (found or as the
    fallback), never names a calibration topic, has a "/points" layer
    exactly when the description mentions a lidar, and follows "base_link".
  */
  lemma GenericDemoLayout(input: string)
    requires !IsKitti(input)
    ensures var doc := GenerateLayout(Some(GenerateDemoResult(input))).value;
      && At(doc, ["configById", PANEL_IMAGE, "cameraTopic"]) == Some(JStr(DEFAULT_CAMERA_NAME))
      && At(doc, ["configById", PANEL_IMAGE, "calibrationTopic"]).None?
      && (At(doc, ["configById", PANEL_3D, "layers", "/points"]).Some? <==> MentionsLidar(input))
      && At(doc, ["configById", PANEL_FOLLOW, "followTf"]) == Some(JStr("base_link"))
  {
    var r := GenerateDemoResult(input);
    GenericListLayout(r, MentionsCamera(input), MentionsLidar(input));
    FramesEchoed(r);
  }
}
