/**
  The analysis result both assistant variants build: the recommended topics,
  the frame choice and the point-cloud rendering settings, together with the
  first-match search (`Array.prototype.find`) used to pick primary topics.
*/
module Analysis {
  import opened Wrappers
  import opened Text

  /** Message type names the classifiers emit. */
  const IMAGE_TYPE := "sensor_msgs/Image"
  const POINTCLOUD_TYPE := "sensor_msgs/PointCloud2"
  const LASERSCAN_TYPE := "sensor_msgs/LaserScan"
  const IMU_TYPE := "sensor_msgs/Imu"
  const ODOMETRY_TYPE := "nav_msgs/Odometry"
  const TF_TYPE := "tf2_msgs/TFMessage"
  const NAVSATFIX_TYPE := "sensor_msgs/NavSatFix"
  const CAMERAINFO_TYPE := "sensor_msgs/CameraInfo"
  const UNKNOWN_TYPE := "unknown"

  /** Topic priorities. */
  const HIGH := "high"
  const MEDIUM := "medium"

  datatype Topic = Topic(name: string, msgType: string, description: string, priority: string)

  datatype FrameSettings = FrameSettings(
    fixedFrame: string,
    fixedFrameReason: string,
    displayFrame: string,
    displayFrameReason: string)

  datatype PointCloudSettings = PointCloudSettings(
    pointSize: int,
    colorMode: string,
    colorField: string,
    valueMin: int,
    valueMax: int,
    reasoning: string)

  /** `topics` has its first `p`-topic at index `i`. */
  predicate IsFirst(topics: seq<Topic>, p: Topic -> bool, i: int) {
    0 <= i < |topics| && p(topics[i]) && forall j :: 0 <= j < i ==> !p(topics[j])
  }

  /** `topics.find(p)`. */
  function Find(topics: seq<Topic>, p: Topic -> bool): Option<Topic> {
    if topics == [] then None
    else if p(topics[0]) then Some(topics[0])
    else Find(topics[1..], p)
  }

  /** `find` fails exactly when no topic satisfies `p`, and otherwise returns one at a first index. */
  lemma {:induction false} FindSpec(topics: seq<Topic>, p: Topic -> bool)
    ensures Find(topics, p).None? <==> forall j :: 0 <= j < |topics| ==> !p(topics[j])
    ensures Find(topics, p).Some? ==> exists i :: IsFirst(topics, p, i) && topics[i] == Find(topics, p).value
  {
    if topics != [] {
      if p(topics[0]) {
        assert IsFirst(topics, p, 0);
      } else {
        FindSpec(topics[1..], p);
        var r := Find(topics[1..], p);
        if r.Some? {
          var i :| IsFirst(topics[1..], p, i) && topics[1..][i] == r.value;
          assert IsFirst(topics, p, i + 1);
        } else {
          assert forall j :: 1 <= j < |topics| ==> topics[j] == topics[1..][j - 1];
        }
      }
    }
  }

  /** `find` returns the topic at the first index where `p` holds. */
  lemma FindIsFirst(topics: seq<Topic>, p: Topic -> bool, i: int)
    requires IsFirst(topics, p, i)
    ensures Find(topics, p) == Some(topics[i])
  {
    FindSpec(topics, p);
    var r := Find(topics, p);
    assert r.Some? by {
      assert p(topics[i]);
    }
    var j :| IsFirst(topics, p, j) && topics[j] == r.value;
    assert p(topics[i]) && p(topics[j]);
  }

  /** JavaScript `a || b` on strings: the empty string is falsy. */
  function OrElse(a: string, b: string): string {
    if a != [] then a else b
  }

  /** `t.type.includes('PointCloud')`. */
  predicate HasPointCloudType(t: Topic) {
    Contains(t.msgType, "PointCloud")
  }

  /** `t.type.includes('Image')`. */
  predicate HasImageType(t: Topic) {
    Contains(t.msgType, "Image")
  }

  /** The point-cloud type name mentions "PointCloud". */
  lemma PointCloudTypeMentioned()
    ensures Contains(POINTCLOUD_TYPE, "PointCloud")
  {
    assert OccursAt(POINTCLOUD_TYPE, "PointCloud", 12);
  }

  /** The image type name mentions "Image". */
  lemma ImageTypeMentioned()
    ensures Contains(IMAGE_TYPE, "Image")
  {
    assert OccursAt(IMAGE_TYPE, "Image", 12);
  }

  /** `topic?.name || fallback`. */
  function NameOr(topic: Option<Topic>, fallback: string): string {
    match topic
    case Some(t) => OrElse(t.name, fallback)
    case None => fallback
  }
}
