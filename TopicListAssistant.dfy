/**
  The assistant variant that works offline and accepts a pasted topic list
  (attempt-following-adrian/foxglove-ai-assistant.jsx): the topic-list
  parser, the result builder with its three branches, the layout document
  and the empty-input guard of the analysis action.
*/
module TopicListAssistant {
  import opened Wrappers
  import opened Text
  import opened Json
  import opened Analysis

  // ---------------------------------------------------------------------------
  // Classification of a topic name

  /** One row of the ordered classification table: any keyword selects the type. */
  datatype Rule = Rule(keywords: seq<string>, msgType: string)

  /** The table the parser's if/else chain encodes, first row first. */
  const TYPE_RULES: seq<Rule> := [
    Rule(["image", "camera"], IMAGE_TYPE),
    Rule(["point", "velodyne"], POINTCLOUD_TYPE),
    Rule(["scan"], LASERSCAN_TYPE),
    Rule(["imu"], IMU_TYPE),
    Rule(["odom"], ODOMETRY_TYPE),
    Rule(["tf"], TF_TYPE),
    Rule(["gps", "nav"], NAVSATFIX_TYPE)
  ]

  /** Some keyword of `rule` occurs in `name` (case-sensitively). */
  predicate Fires(name: string, rule: Rule) {
    exists k :: 0 <= k < |rule.keywords| && Contains(name, rule.keywords[k])
  }

  /** Index of the first rule that fires on `name`. */
  function FirstRule(name: string, rules: seq<Rule>): (r: Option<nat>)
    ensures r.Some? ==> r.value < |rules|
  {
    if rules == [] then None
    else if Fires(name, rules[0]) then Some(0)
    else
      match FirstRule(name, rules[1..])
      case Some(i) => Some(i + 1)
      case None => None
  }

  /** `FirstRule` finds a rule that fires, no earlier rule fires, and it fails only when none fires. */
  lemma {:induction false} FirstRuleSpec(name: string, rules: seq<Rule>)
    ensures var r := FirstRule(name, rules);
      && (r.Some? ==> r.value < |rules| && Fires(name, rules[r.value]))
      && (r.Some? ==> forall j :: 0 <= j < r.value ==> !Fires(name, rules[j]))
      && (r.None? <==> forall j :: 0 <= j < |rules| ==> !Fires(name, rules[j]))
  {
    if rules != [] && !Fires(name, rules[0]) {
      FirstRuleSpec(name, rules[1..]);
      assert forall j :: 1 <= j < |rules| ==> rules[j] == rules[1..][j - 1];
    }
  }

  /** Reference classification: the type of the first rule that fires, "unknown" if none does. */
  function ClassifyByRules(name: string): string {
    match FirstRule(name, TYPE_RULES)
    case Some(i) => TYPE_RULES[i].msgType
    case None => UNKNOWN_TYPE
  }

  lemma FiresPair(name: string, a: string, b: string, t: string)
    ensures Fires(name, Rule([a, b], t)) <==> Contains(name, a) || Contains(name, b)
  {
    if Contains(name, a) {
      assert [a, b][0] == a;
    } else if Contains(name, b) {
      assert [a, b][1] == b;
    }
  }

  lemma FiresSingle(name: string, a: string, t: string)
    ensures Fires(name, Rule([a], t)) <==> Contains(name, a)
  {
    if Contains(name, a) {
      assert [a][0] == a;
    }
  }

  /** Each row of `TYPE_RULES` fires exactly on its keywords. */
  lemma TypeRulesFire(name: string)
    ensures Fires(name, TYPE_RULES[0]) <==> Contains(name, "image") || Contains(name, "camera")
    ensures Fires(name, TYPE_RULES[1]) <==> Contains(name, "point") || Contains(name, "velodyne")
    ensures Fires(name, TYPE_RULES[2]) <==> Contains(name, "scan")
    ensures Fires(name, TYPE_RULES[3]) <==> Contains(name, "imu")
    ensures Fires(name, TYPE_RULES[4]) <==> Contains(name, "odom")
    ensures Fires(name, TYPE_RULES[5]) <==> Contains(name, "tf")
    ensures Fires(name, TYPE_RULES[6]) <==> Contains(name, "gps") || Contains(name, "nav")
  {
    FiresPair(name, "image", "camera", IMAGE_TYPE);
    FiresPair(name, "point", "velodyne", POINTCLOUD_TYPE);
    FiresSingle(name, "scan", LASERSCAN_TYPE);
    FiresSingle(name, "imu", IMU_TYPE);
    FiresSingle(name, "odom", ODOMETRY_TYPE);
    FiresSingle(name, "tf", TF_TYPE);
    FiresPair(name, "gps", "nav", NAVSATFIX_TYPE);
  }

  /** The first rule that fires is the one `FirstRule` picks, whatever later rules say. */
  lemma FirstFiringRule(name: string, rules: seq<Rule>, i: nat)
    requires i < |rules| && Fires(name, rules[i])
    requires forall j :: 0 <= j < i ==> !Fires(name, rules[j])
    ensures FirstRule(name, rules) == Some(i)
  {
    FirstRuleSpec(name, rules);
    var r := FirstRule(name, rules);
    assert r.Some? && Fires(name, rules[r.value]);
  }

  /** First match wins: the first row of the table that fires decides the type. */
  lemma FirstMatchWins(name: string, i: nat)
    requires i < |TYPE_RULES| && Fires(name, TYPE_RULES[i])
    requires forall j :: 0 <= j < i ==> !Fires(name, TYPE_RULES[j])
    ensures ClassifyByRules(name) == TYPE_RULES[i].msgType
  {
    FirstFiringRule(name, TYPE_RULES, i);
  }

  /** The type of a parsed topic, chosen by the parser's if/else chain (`let type` reassigned). */
  method ClassifyTopicName(name: string) returns (msgType: string)
    ensures msgType == ClassifyByRules(name)
  {
    TypeRulesFire(name);
    FirstRuleSpec(name, TYPE_RULES);
    msgType := UNKNOWN_TYPE;
    if Contains(name, "image") || Contains(name, "camera") {
      msgType := IMAGE_TYPE;
      FirstMatchWins(name, 0);
    } else if Contains(name, "point") || Contains(name, "velodyne") {
      msgType := POINTCLOUD_TYPE;
      FirstMatchWins(name, 1);
    } else if Contains(name, "scan") {
      msgType := LASERSCAN_TYPE;
      FirstMatchWins(name, 2);
    } else if Contains(name, "imu") {
      msgType := IMU_TYPE;
      FirstMatchWins(name, 3);
    } else if Contains(name, "odom") {
      msgType := ODOMETRY_TYPE;
      FirstMatchWins(name, 4);
    } else if Contains(name, "tf") {
      msgType := TF_TYPE;
      FirstMatchWins(name, 5);
    } else if Contains(name, "gps") || Contains(name, "nav") {
      msgType := NAVSATFIX_TYPE;
      FirstMatchWins(name, 6);
    } else {
      assert forall j :: 0 <= j < |TYPE_RULES| ==> !Fires(name, TYPE_RULES[j]);
    }
  }

  /** A name is "unknown" exactly when it contains none of the ten keywords. */
  lemma UnknownIffNoKeyword(name: string)
    ensures ClassifyByRules(name) == UNKNOWN_TYPE <==>
      && !Contains(name, "image") && !Contains(name, "camera")
      && !Contains(name, "point") && !Contains(name, "velodyne")
      && !Contains(name, "scan") && !Contains(name, "imu") && !Contains(name, "odom")
      && !Contains(name, "tf") && !Contains(name, "gps") && !Contains(name, "nav")
  {
    TypeRulesFire(name);
    FirstRuleSpec(name, TYPE_RULES);
    var r := FirstRule(name, TYPE_RULES);
    if r.Some? {
      assert TYPE_RULES[r.value].msgType != UNKNOWN_TYPE;
    }
  }

  lemma UpperCaseNameMissesSensorKeywords(name: string)
    requires name == "/Camera/Image"
    ensures !Contains(name, "image") && !Contains(name, "camera")
    ensures !Contains(name, "point") && !Contains(name, "velodyne") && !Contains(name, "scan")
  {
    NotContainedForAbsentChar(name, "image", 0);
    NotContainedForAbsentChar(name, "camera", 0);
    NotContainedForAbsentChar(name, "point", 0);
    NotContainedForAbsentChar(name, "velodyne", 0);
    NotContainedForAbsentChar(name, "scan", 0);
  }

  lemma UpperCaseNameMissesOtherKeywords(name: string)
    requires name == "/Camera/Image"
    ensures !Contains(name, "imu") && !Contains(name, "odom") && !Contains(name, "tf")
    ensures !Contains(name, "gps") && !Contains(name, "nav")
  {
    NotContainedForAbsentChar(name, "imu", 0);
    NotContainedForAbsentChar(name, "odom", 0);
    NotContainedForAbsentChar(name, "tf", 0);
    NotContainedForAbsentChar(name, "gps", 1);
    NotContainedForAbsentChar(name, "nav", 0);
  }

  /** Matching is case-sensitive: an upper-case camera topic matches no row at all. */
  lemma CaseSensitiveClassification(name: string)
    requires name == "/Camera/Image"
    ensures ClassifyByRules(name) == UNKNOWN_TYPE
  {
    UpperCaseNameMissesSensorKeywords(name);
    UpperCaseNameMissesOtherKeywords(name);
    UnknownIffNoKeyword(name);
  }

  // ---------------------------------------------------------------------------
  // Parsing the pasted topic list

  /** `/[,\n]/`: the list is split at every comma and line feed. */
  predicate IsListSeparator(c: char) {
    c == ',' || c == '\n'
  }

  /** `l && l.startsWith('/')`. */
  predicate IsTopicLine(l: string) {
    l != [] && StartsWith(l, "/")
  }

  /** The pieces of the list, each trimmed. */
  function TrimmedPieces(text: string): (r: seq<string>)
    ensures |r| == |SplitOn(text, IsListSeparator)|
  {
    StripEach(SplitOn(text, IsListSeparator))
  }

  /** `pieces.map(l => l.trim())`. */
  function StripEach(pieces: seq<string>): (r: seq<string>)
    ensures |r| == |pieces|
  {
    if pieces == [] then [] else [Strip(pieces[0], IsJsSpace)] + StripEach(pieces[1..])
  }

  lemma {:induction false} StripEachAt(pieces: seq<string>, k: nat)
    requires k < |pieces|
    ensures StripEach(pieces)[k] == Strip(pieces[k], IsJsSpace)
  {
    if k > 0 {
      StripEachAt(pieces[1..], k - 1);
    }
  }

  /** Keeps the topic lines, in order. */
  function KeepTopicLines(lines: seq<string>): (r: seq<string>)
    ensures |r| <= |lines|
  {
    if lines == [] then []
    else (if IsTopicLine(lines[0]) then [lines[0]] else []) + KeepTopicLines(lines[1..])
  }

  function TopicLines(text: string): seq<string> {
    KeepTopicLines(TrimmedPieces(text))
  }

  const USER_TOPIC_DESCRIPTION := "User-provided topic"

  /** The topic a kept line yields. */
  function TopicOfLine(line: string): Topic {
    var name := FirstToken(line, IsJsSpace);
    Topic(name, ClassifyByRules(name), USER_TOPIC_DESCRIPTION, HIGH)
  }

  function TopicsOf(lines: seq<string>): (r: seq<Topic>)
    ensures |r| == |lines|
  {
    if lines == [] then [] else [TopicOfLine(lines[0])] + TopicsOf(lines[1..])
  }

  lemma {:induction false} TopicsOfAt(lines: seq<string>, k: nat)
    requires k < |lines|
    ensures TopicsOf(lines)[k] == TopicOfLine(lines[k])
  {
    if k > 0 {
      TopicsOfAt(lines[1..], k - 1);
    }
  }

  /** What `parseTopicList` returns; `None` stands for `null`. */
  function ParsedTopics(text: string): Option<seq<Topic>> {
    if Strip(text, IsJsSpace) == [] then None
    else
      var lines := TopicLines(text);
      if |lines| > 0 then Some(TopicsOf(lines))
      else None
  }

  /** `parseTopicList`: one topic per kept line, or null. */
  method ParseTopicList(topicText: string) returns (parsed: Option<seq<Topic>>)
    ensures parsed == ParsedTopics(topicText)
  {
    if Strip(topicText, IsJsSpace) == [] {
      return None;
    }
    var lines := TopicLines(topicText);
    var topics: seq<Topic> := [];
    for i := 0 to |lines|
      invariant |topics| == i
      invariant forall k :: 0 <= k < i ==> topics[k] == TopicOfLine(lines[k])
    {
      var name := FirstToken(lines[i], IsJsSpace);
      var msgType := ClassifyTopicName(name);
      topics := topics + [Topic(name, msgType, USER_TOPIC_DESCRIPTION, HIGH)];
    }
    forall k | 0 <= k < |lines| ensures TopicsOf(lines)[k] == TopicOfLine(lines[k]) {
      TopicsOfAt(lines, k);
    }
    assert topics == TopicsOf(lines);
    parsed := if |topics| > 0 then Some(topics) else None;
  }

  /** Adds one to every index. */
  function Shift(xs: seq<nat>): (r: seq<nat>)
    ensures |r| == |xs| && forall j :: 0 <= j < |xs| ==> r[j] == xs[j] + 1
  {
    if xs == [] then [] else [xs[0] + 1] + Shift(xs[1..])
  }

  /** The positions of the topic lines among `lines`. */
  function KeptIndices(lines: seq<string>): seq<nat> {
    if lines == [] then []
    else (if IsTopicLine(lines[0]) then [0] else []) + Shift(KeptIndices(lines[1..]))
  }

  /** Each kept line is the topic line at its recorded position. */
  lemma {:induction false} KeptIndicesMap(lines: seq<string>)
    ensures |KeptIndices(lines)| == |KeepTopicLines(lines)|
    ensures forall j :: 0 <= j < |KeptIndices(lines)| ==> KeptIndices(lines)[j] < |lines|
    ensures forall j :: 0 <= j < |KeptIndices(lines)| ==>
      KeepTopicLines(lines)[j] == lines[KeptIndices(lines)[j]] && IsTopicLine(KeepTopicLines(lines)[j])
  {
    if lines != [] {
      var tail := lines[1..];
      KeptIndicesMap(tail);
      var rest, kept := KeptIndices(tail), KeepTopicLines(tail);
      var pre := if IsTopicLine(lines[0]) then [0] else [];
      var preLines := if IsTopicLine(lines[0]) then [lines[0]] else [];
      var idx, out := KeptIndices(lines), KeepTopicLines(lines);
      assert idx == pre + Shift(rest);
      assert out == preLines + kept;
      forall j | 0 <= j < |idx|
        ensures idx[j] < |lines| && out[j] == lines[idx[j]] && IsTopicLine(out[j])
      {
        if j >= |pre| {
          var k := j - |pre|;
          assert idx[j] == rest[k] + 1 && out[j] == kept[k];
          assert tail[rest[k]] == lines[rest[k] + 1];
        }
      }
    }
  }

  /** The kept lines keep their input order. */
  lemma {:induction false} KeptIndicesIncrease(lines: seq<string>)
    ensures forall j :: 0 < j < |KeptIndices(lines)| ==> KeptIndices(lines)[j - 1] < KeptIndices(lines)[j]
  {
    if lines != [] {
      KeptIndicesIncrease(lines[1..]);
      var rest := KeptIndices(lines[1..]);
      var pre := if IsTopicLine(lines[0]) then [0] else [];
      var idx := KeptIndices(lines);
      assert idx == pre + Shift(rest);
      forall j | 0 < j < |idx| ensures idx[j - 1] < idx[j] {
        var k := j - |pre|;
        assert idx[j] == rest[k] + 1;
        if k > 0 {
          assert idx[j - 1] == rest[k - 1] + 1;
        }
      }
    }
  }

  /** No topic line is dropped. */
  lemma {:induction false} KeptIndicesComplete(lines: seq<string>)
    ensures forall i :: 0 <= i < |lines| && IsTopicLine(lines[i]) ==> i in KeptIndices(lines)
  {
    if lines != [] {
      var tail := lines[1..];
      KeptIndicesComplete(tail);
      var rest := KeptIndices(tail);
      var idx := KeptIndices(lines);
      var pre := if IsTopicLine(lines[0]) then [0] else [];
      assert idx == pre + Shift(rest);
      forall i | 0 <= i < |lines| && IsTopicLine(lines[i]) ensures i in idx {
        if i > 0 {
          assert tail[i - 1] == lines[i];
          var j :| 0 <= j < |rest| && rest[j] == i - 1;
          assert idx[|pre| + j] == i;
        }
      }
    }
  }

  /**
    `parseTopicList` yields null exactly when no trimmed piece starts with '/'
    (a white-space-only text in particular), so the result builder falls
    through to the description-based branches.
  */
  lemma ParsedNullIff(text: string)
    ensures ParsedTopics(text).None? <==>
      forall k :: 0 <= k < |TrimmedPieces(text)| ==> !IsTopicLine(TrimmedPieces(text)[k])
    ensures AllOf(text, IsJsSpace) ==> ParsedTopics(text).None?
  {
    var pieces := TrimmedPieces(text);
    KeptIndicesMap(pieces);
    KeptIndicesComplete(pieces);
    var idx := KeptIndices(pieces);
    StripEmptyIff(text, IsJsSpace);
    if AllOf(text, IsJsSpace) {
      SplitKeepsAllOf(text, IsListSeparator, IsJsSpace);
      forall k | 0 <= k < |pieces| ensures !IsTopicLine(pieces[k]) {
        StripEachAt(SplitOn(text, IsListSeparator), k);
        StripEmptyIff(SplitOn(text, IsListSeparator)[k], IsJsSpace);
      }
    }
    if |TopicLines(text)| > 0 {
      assert IsTopicLine(pieces[idx[0]]);
    }
  }

  /**
    Each kept line yields one topic: its first white-space-free token as the
    name (so the name starts with '/'), the table's type, priority "high" and
    description "User-provided topic".
  */
  lemma ParsedTopicsShape(text: string)
    requires ParsedTopics(text).Some?
    ensures var ts := ParsedTopics(text).value; var lines := TopicLines(text);
      && |ts| == |lines| > 0
      && forall i :: 0 <= i < |ts| ==>
           && ts[i].name == FirstToken(lines[i], IsJsSpace)
           && StartsWith(ts[i].name, "/")
           && ts[i].msgType == ClassifyByRules(ts[i].name)
           && ts[i].priority == HIGH
           && ts[i].description == USER_TOPIC_DESCRIPTION
  {
    var lines := TopicLines(text);
    var ts := ParsedTopics(text).value;
    KeptIndicesMap(TrimmedPieces(text));
    forall i | 0 <= i < |ts| ensures ts[i] == TopicOfLine(lines[i]) && StartsWith(ts[i].name, "/") {
      TopicsOfAt(lines, i);
      TopicOfLineSlash(lines[i]);
    }
  }

  /** The name taken from a kept line starts with its '/'. */
  lemma TopicOfLineSlash(line: string)
    requires IsTopicLine(line)
    ensures StartsWith(TopicOfLine(line).name, "/")
  {
    assert line[0] == '/';
    assert !IsJsSpace('/');
    assert FirstToken(line, IsJsSpace)[0] == '/';
  }

  // ---------------------------------------------------------------------------
  // The analysis result

  datatype TopicListResult = TopicListResult(
    datasetType: string,
    topics: seq<Topic>,
    frameSettings: FrameSettings,
    pointCloudSettings: PointCloudSettings,
    layoutSummary: string,
    detectedLidarTopic: string,
    detectedImageTopic: string)

  const KITTI360_PHRASE := "kitti-360 downloaded example"
  const CUSTOM_DATASET := "Custom Dataset (topics provided)"
  const KITTI360_DATASET := "KITTI-360 Downloaded Example"
  const KITTI_DATASET := "KITTI Dataset (standard ROS names)"
  const ROS_DATASET := "ROS Dataset"
  const DEFAULT_LIDAR_TOPIC := "/velodyne_points"
  const DEFAULT_IMAGE_TOPIC := "/camera/image_raw"

  const FIXED_FRAME := "map"
  const FIXED_FRAME_REASON := "World-fixed reference frame"
  const DISPLAY_FRAME_REASON := "Sensor-centric view"
  const COLOR_REASON := "Height-based coloring for obstacle visibility."
  const DEFAULT_NAMES_SUMMARY := "Default ROS topic names - paste your actual topic list for exact match"
  const USING_PREFIX := "Using "
  const USER_TOPICS_SUFFIX := " user-provided topics"

  predicate HasLidar(description: string) {
    var lower := Lower(description);
    Contains(lower, "lidar") || Contains(lower, "velodyne") || Contains(lower, "point")
  }

  predicate HasCamera(description: string) {
    var lower := Lower(description);
    Contains(lower, "camera") || Contains(lower, "stereo") || Contains(lower, "image")
  }

  const TF_TOPIC := Topic("/tf", TF_TYPE, "Transform tree", HIGH)
  const CAMERA_TOPIC := Topic(DEFAULT_IMAGE_TOPIC, IMAGE_TYPE, "Camera feed", HIGH)
  const LIDAR_TOPIC := Topic(DEFAULT_LIDAR_TOPIC, POINTCLOUD_TYPE, "LiDAR point cloud", HIGH)
  const KITTI360_CAMERA := Topic("/camera_00_semantic/image", IMAGE_TYPE, "KITTI-360 semantic camera", HIGH)
  const KITTI360_LIDAR := Topic("/velodyne_pointcloud", POINTCLOUD_TYPE, "KITTI-360 Velodyne LiDAR", HIGH)

  /** The fixed list of the downloaded KITTI-360 example. */
  const KITTI360_TOPICS := [KITTI360_CAMERA, KITTI360_LIDAR, TF_TOPIC]

  /** The standard ROS names chosen from keywords of the description. */
  function GenericTopics(hasCamera: bool, hasLidar: bool): seq<Topic> {
    (if hasCamera then [CAMERA_TOPIC] else []) + (if hasLidar then [LIDAR_TOPIC] else []) + [TF_TOPIC]
  }

  /** Decimal digits of `n`, as a template literal prints it. */
  function DecimalString(n: nat): (r: string)
    ensures r != []
  {
    var d := ['0' + (n % 10) as char];
    if n < 10 then d else DecimalString(n / 10) + d
  }

  /** The topic list `generateResult` settles on, by branch precedence. */
  function ResultTopics(description: string, topicText: string): seq<Topic> {
    var parsed := ParsedTopics(topicText);
    if parsed.Some? then parsed.value
    else if Contains(Lower(description), KITTI360_PHRASE) then KITTI360_TOPICS
    else GenericTopics(HasCamera(description), HasLidar(description))
  }

  function DatasetType(description: string, topicText: string): string {
    var lower := Lower(description);
    if ParsedTopics(topicText).Some? then CUSTOM_DATASET
    else if Contains(lower, KITTI360_PHRASE) then KITTI360_DATASET
    else if Contains(lower, "kitti") then KITTI_DATASET
    else ROS_DATASET
  }

  const POINTCLOUD_SETTINGS := PointCloudSettings(4, "colormap", "z", 0, 30, COLOR_REASON)

  /** The record built from a settled topic list. */
  function ResultFor(datasetType: string, topics: seq<Topic>, userProvided: bool): TopicListResult {
    var pointCloudTopic := Find(topics, HasPointCloudType);
    var imageTopic := Find(topics, HasImageType);
    TopicListResult(
      datasetType,
      topics,
      FrameSettings(FIXED_FRAME, FIXED_FRAME_REASON,
        if pointCloudTopic.Some? then "velodyne" else "base_link", DISPLAY_FRAME_REASON),
      POINTCLOUD_SETTINGS,
      if userProvided then USING_PREFIX + DecimalString(|topics|) + USER_TOPICS_SUFFIX
      else DEFAULT_NAMES_SUMMARY,
      NameOr(pointCloudTopic, DEFAULT_LIDAR_TOPIC),
      NameOr(imageTopic, DEFAULT_IMAGE_TOPIC))
  }

  /** `generateResult`. */
  function GenerateResult(description: string, topicText: string): TopicListResult {
    ResultFor(DatasetType(description, topicText), ResultTopics(description, topicText),
      ParsedTopics(topicText).Some?)
  }

  /**
    Branch precedence: parsed topics win and make the description irrelevant
    to the topic list; without them the pasted text is irrelevant altogether.
  */
  lemma BranchPrecedence(d1: string, d2: string, t1: string, t2: string)
    ensures ParsedTopics(t1).Some? ==>
      && GenerateResult(d1, t1).topics == ParsedTopics(t1).value
      && GenerateResult(d1, t1).datasetType == CUSTOM_DATASET
      && GenerateResult(d1, t1).topics == GenerateResult(d2, t1).topics
    ensures ParsedTopics(t1).None? && ParsedTopics(t2).None? ==>
      GenerateResult(d1, t1) == GenerateResult(d1, t2)
    ensures ParsedTopics(t1).None? && Contains(Lower(d1), KITTI360_PHRASE) ==>
      GenerateResult(d1, t1).topics == KITTI360_TOPICS
  {
  }

  /**
    Without parsed topics or the example phrase, the list is camera (iff a
    camera keyword), then lidar (iff a lidar keyword), then "/tf": never
    empty and always ending with the transform tree.
  */
  lemma GenericBranchShape(description: string, topicText: string)
    requires ParsedTopics(topicText).None? && !Contains(Lower(description), KITTI360_PHRASE)
    ensures var ts := ResultTopics(description, topicText);
      && |ts| == 1 + (if HasCamera(description) then 1 else 0) + (if HasLidar(description) then 1 else 0)
      && ts[|ts| - 1] == TF_TOPIC
      && ((exists i :: 0 <= i < |ts| && ts[i].name == DEFAULT_IMAGE_TOPIC) <==> HasCamera(description))
      && ((exists i :: 0 <= i < |ts| && ts[i].name == DEFAULT_LIDAR_TOPIC) <==> HasLidar(description))
      && forall i :: 0 <= i < |ts| ==> ts[i].priority == HIGH
  {
    GenericTopicsShape(HasCamera(description), HasLidar(description));
  }

  lemma GenericTopicsShape(hasCamera: bool, hasLidar: bool)
    ensures var ts := GenericTopics(hasCamera, hasLidar);
      && |ts| == 1 + (if hasCamera then 1 else 0) + (if hasLidar then 1 else 0)
      && ts[|ts| - 1] == TF_TOPIC
      && ((exists i :: 0 <= i < |ts| && ts[i].name == DEFAULT_IMAGE_TOPIC) <==> hasCamera)
      && ((exists i :: 0 <= i < |ts| && ts[i].name == DEFAULT_LIDAR_TOPIC) <==> hasLidar)
      && forall i :: 0 <= i < |ts| ==> ts[i].priority == HIGH
  {
    var ts := GenericTopics(hasCamera, hasLidar);
    var cam := if hasCamera then 1 else 0;
    if hasCamera {
      assert ts[0].name == DEFAULT_IMAGE_TOPIC;
    }
    if hasLidar {
      assert ts[cam].name == DEFAULT_LIDAR_TOPIC;
    }
    assert DEFAULT_IMAGE_TOPIC != DEFAULT_LIDAR_TOPIC;
    assert DEFAULT_IMAGE_TOPIC != "/tf" && DEFAULT_LIDAR_TOPIC != "/tf";
  }

  /**
    For whatever list was settled on, the display frame follows the velodyne
    exactly when some topic has a point-cloud type; the fixed frame is always
    "map" and the point-cloud settings are constant.
  */
  lemma FrameSettingsChoice(datasetType: string, topics: seq<Topic>, userProvided: bool)
    ensures var r := ResultFor(datasetType, topics, userProvided);
      && r.topics == topics
      && (r.frameSettings.displayFrame == "velodyne" <==>
          exists i :: 0 <= i < |topics| && HasPointCloudType(topics[i]))
      && (r.frameSettings.displayFrame == "velodyne" || r.frameSettings.displayFrame == "base_link")
      && r.frameSettings.fixedFrame == FIXED_FRAME
      && r.pointCloudSettings == PointCloudSettings(4, "colormap", "z", 0, 30, COLOR_REASON)
  {
    FindSpec(topics, HasPointCloudType);
  }

  /**
    The detected topics are the names of the first point-cloud-typed and the
    first image-typed topics, or the standard defaults when there is none.
  */
  lemma DetectedTopicsAreFirstMatches(datasetType: string, topics: seq<Topic>, userProvided: bool)
    ensures var r := ResultFor(datasetType, topics, userProvided);
      && ((forall i :: 0 <= i < |topics| ==> !HasPointCloudType(topics[i])) ==> r.detectedLidarTopic == DEFAULT_LIDAR_TOPIC)
      && (forall i :: IsFirst(topics, HasPointCloudType, i) ==> r.detectedLidarTopic == OrElse(topics[i].name, DEFAULT_LIDAR_TOPIC))
      && ((forall i :: 0 <= i < |topics| ==> !HasImageType(topics[i])) ==> r.detectedImageTopic == DEFAULT_IMAGE_TOPIC)
      && (forall i :: IsFirst(topics, HasImageType, i) ==> r.detectedImageTopic == OrElse(topics[i].name, DEFAULT_IMAGE_TOPIC))
  {
    FindSpec(topics, HasPointCloudType);
    FindSpec(topics, HasImageType);
    forall i | IsFirst(topics, HasPointCloudType, i)
      ensures Find(topics, HasPointCloudType) == Some(topics[i])
    {
      FindIsFirst(topics, HasPointCloudType, i);
    }
    forall i | IsFirst(topics, HasImageType, i)
      ensures Find(topics, HasImageType) == Some(topics[i])
    {
      FindIsFirst(topics, HasImageType, i);
    }
  }

  /** The downloaded-example branch follows the velodyne and detects its two named sensors. */
  lemma Kitti360ExampleDetection(description: string, topicText: string)
    requires ParsedTopics(topicText).None? && Contains(Lower(description), KITTI360_PHRASE)
    ensures var r := GenerateResult(description, topicText);
      && r.datasetType == KITTI360_DATASET
      && r.frameSettings.displayFrame == "velodyne"
      && r.detectedLidarTopic == KITTI360_LIDAR.name
      && r.detectedImageTopic == KITTI360_CAMERA.name
  {
    var topics := ResultTopics(description, topicText);
    assert topics == KITTI360_TOPICS;
    Kitti360TopicsFirstMatches(topics);
    FindIsFirst(topics, HasPointCloudType, 1);
    FindIsFirst(topics, HasImageType, 0);
  }

  lemma Kitti360TopicsFirstMatches(topics: seq<Topic>)
    requires topics == KITTI360_TOPICS
    ensures IsFirst(topics, HasPointCloudType, 1)
    ensures IsFirst(topics, HasImageType, 0)
  {
    PointCloudTypeMentioned();
    ImageTypeMentioned();
    NotContainedForAbsentChar(IMAGE_TYPE, "PointCloud", 0);
  }

  // ---------------------------------------------------------------------------
  // The layout document

  const THREE_D_PANEL := "3D!1"
  const IMAGE_PANEL := "Image!1"

  /** How the lidar topic is drawn: visible, point size 4. */
  const LIDAR_DISPLAY := Obj([Flag("visible", true), Member("pointSize", JNum(4))])

  const CAMERA_STATE := Obj([
    Flag("perspective", true),
    Member("distance", JNum(75)),
    Member("phi", JNum(80)),
    Member("thetaOffset", JNum(0)),
    Member("targetOffset", JArr([JNum(0), JNum(0), JNum(0)]))])

  const GRID_LAYERS := Obj([Member("grid", Obj([Flag("visible", true)]))])

  /** The 3D panel: camera pose, the detected lidar topic and the grid. */
  function PanelEntries(lidarTopic: string): seq<Member> {
    [ Member("cameraState", CAMERA_STATE),
      Member("followMode", JStr("follow-pose")),
      Member("topics", Obj([Member(lidarTopic, LIDAR_DISPLAY)])),
      Member("layers", GRID_LAYERS)]
  }

  function ConfigEntries(r: TopicListResult): seq<Member> {
    [ Member(THREE_D_PANEL, Obj(PanelEntries(r.detectedLidarTopic))),
      Member(IMAGE_PANEL, Obj([Member("imageTopic", JStr(r.detectedImageTopic))]))]
  }

  const SPLIT_LAYOUT := Obj([
    Member("direction", JStr("row")),
    Member("first", JStr(THREE_D_PANEL)),
    Member("second", JStr(IMAGE_PANEL)),
    Member("splitPercentage", JNum(60))])

  function LayoutEntries(r: TopicListResult): seq<Member> {
    [ Member("configById", Obj(ConfigEntries(r))),
      Member("globalVariables", Obj([])),
      Member("userNodes", Obj([])),
      Member("playbackConfig", Obj([Member("speed", JNum(1))])),
      Member("layout", SPLIT_LAYOUT)]
  }

  /** `generateFoxgloveLayout`, as a document tree; `None` stands for the empty string. */
  function GenerateLayout(result: Option<TopicListResult>): Option<Json> {
    match result
    case None => None
    case Some(r) => Some(Obj(LayoutEntries(r)))
  }

  lemma LayoutConfigStep(r: TopicListResult, path: seq<string>)
    ensures At(Obj(LayoutEntries(r)), ["configById"] + path) == At(Obj(ConfigEntries(r)), path)
  {
    AtObj(LayoutEntries(r), 0, ["configById"] + path);
    assert (["configById"] + path)[1..] == path;
  }

  lemma ConfigPanelStep(r: TopicListResult, path: seq<string>)
    ensures At(Obj(ConfigEntries(r)), [THREE_D_PANEL] + path) == At(Obj(PanelEntries(r.detectedLidarTopic)), path)
    ensures At(Obj(ConfigEntries(r)), [IMAGE_PANEL] + path) == At(Obj([Member("imageTopic", JStr(r.detectedImageTopic))]), path)
  {
    AtObj(ConfigEntries(r), 0, [THREE_D_PANEL] + path);
    assert ([THREE_D_PANEL] + path)[1..] == path;
    AtObj(ConfigEntries(r), 1, [IMAGE_PANEL] + path);
    assert ([IMAGE_PANEL] + path)[1..] == path;
  }

  lemma PanelTopicsStep(lidarTopic: string)
    ensures At(Obj(PanelEntries(lidarTopic)), ["topics"]) == Some(JObj([Member(lidarTopic, LIDAR_DISPLAY)]))
  {
    AtObj(PanelEntries(lidarTopic), 2, ["topics"]);
    assert Build([Member(lidarTopic, LIDAR_DISPLAY)]) == Put([], lidarTopic, LIDAR_DISPLAY);
  }

  lemma ImageTopicStep(imageTopic: string)
    ensures At(Obj([Member("imageTopic", JStr(imageTopic))]), ["imageTopic"]) == Some(JStr(imageTopic))
  {
    AtObj([Member("imageTopic", JStr(imageTopic))], 0, ["imageTopic"]);
  }

  /**
    There is a layout exactly when there is a result; its 3D panel shows
    exactly the detected lidar topic and its image panel the detected image topic.
  */
  lemma LayoutUsesDetectedTopics(result: Option<TopicListResult>)
    ensures GenerateLayout(result).None? <==> result.None?
    ensures result.Some? ==>
      var doc := GenerateLayout(result).value;
      && At(doc, ["configById", THREE_D_PANEL, "topics"]) ==
           Some(JObj([Member(result.value.detectedLidarTopic, LIDAR_DISPLAY)]))
      && At(doc, ["configById", IMAGE_PANEL, "imageTopic"]) == Some(JStr(result.value.detectedImageTopic))
  {
    if result.Some? {
      LidarTopicShown(result.value);
      ImageTopicShown(result.value);
    }
  }

  /** The 3D panel shows exactly the detected lidar topic. */
  lemma LidarTopicShown(r: TopicListResult)
    ensures At(GenerateLayout(Some(r)).value, ["configById", THREE_D_PANEL, "topics"]) ==
      Some(JObj([Member(r.detectedLidarTopic, LIDAR_DISPLAY)]))
  {
    LayoutConfigStep(r, [THREE_D_PANEL, "topics"]);
    assert ["configById"] + [THREE_D_PANEL, "topics"] == ["configById", THREE_D_PANEL, "topics"];
    ConfigPanelStep(r, ["topics"]);
    assert [THREE_D_PANEL] + ["topics"] == [THREE_D_PANEL, "topics"];
    PanelTopicsStep(r.detectedLidarTopic);
  }

  /** The image panel shows exactly the detected image topic. */
  lemma ImageTopicShown(r: TopicListResult)
    ensures At(GenerateLayout(Some(r)).value, ["configById", IMAGE_PANEL, "imageTopic"]) == Some(JStr(r.detectedImageTopic))
  {
    LayoutConfigStep(r, [IMAGE_PANEL, "imageTopic"]);
    assert ["configById"] + [IMAGE_PANEL, "imageTopic"] == ["configById", IMAGE_PANEL, "imageTopic"];
    ConfigPanelStep(r, ["imageTopic"]);
    assert [IMAGE_PANEL] + ["imageTopic"] == [IMAGE_PANEL, "imageTopic"];
    ImageTopicStep(r.detectedImageTopic);
  }

  /** The guard holds exactly for white-space-only descriptions. */
  lemma EmptyInputGuard(description: string)
    ensures Strip(description, IsJsSpace) == [] <==> AllOf(description, IsJsSpace)
  {
    StripEmptyIff(description, IsJsSpace);
  }
}
