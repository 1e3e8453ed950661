# Foxglove layout assistant and KITTI-to-MCAP converter, in Dafny

This project models the decision logic of a small robotics-visualisation
toolkit and proves properties of it. The toolkit has three parts.

- **The offline assistant** (`attempt-following-adrian/foxglove-ai-assistant.jsx`).
  - It turns a dataset description and an optional pasted topic list into an analysis result.
  - `parseTopicList` splits the list at commas and newlines and keeps the lines that start with `/`. It names each topic by the line's first token and classifies it with a first-match-wins chain of substring rules.
  - `generateResult` prefers the parsed topics. Next it tries the KITTI-360 downloaded-example preset. Otherwise it builds a keyword-driven generic list.
  - `generateFoxgloveLayout` builds a two-panel Foxglove layout around the detected LiDAR and image topics.
  - `analyzeDataset` refuses a blank description, then delivers the result from a timer.
- **The online assistant** (`foxglove-ai-assistant.jsx`).
  - It asks a remote service for the analysis. It extracts the first-`{`-to-last-`}` text of the reply and parses it.
  - On any failure it shows the error, then falls back after a delay to the local `generateDemoResult`, which is either a KITTI-360 preset or a generic list.
  - Its `generateFoxgloveLayout` builds a four-panel layout. The layer object of the point-cloud topic has the key `colorMode` twice, and the later value wins.
- **The converter** (`data-pipeline/kitti_to_mcap.py`).
  - It pairs each LiDAR scan of a KITTI drive with the same-named camera image.
  - It registers three protobuf schemas, each carrying a file-descriptor set, and their channels.
  - It publishes the static transforms once: map→camera, plus camera→velodyne when a calibration file is given and parses.
  - It then writes every frame's point cloud and JPEG image at the frame's timestamp. Per-frame failures are counted, not raised. It fails if nothing at all was written.

Modules:

| Module | What it models |
|---|---|
| `Wrappers` | `Option` and `Result` |
| `Text` | JS `trim` and Python `strip`, `split`, `includes`, first token, lower-casing and index search |
| `Json` | document trees and JS object-literal key semantics for keys that are not array indices |
| `Analysis` | topics and `Array.prototype.find` |
| `TopicListAssistant`, `TopicListSession` | the offline assistant |
| `DemoAssistant`, `DemoSession` | the online assistant |
| `KittiCalib` | the calibration parser |
| `ProtoDescriptors` | the descriptor set |
| `ProtoEnums` | the enum setter |
| `KittiPointCloud` | scan reading and point-cloud conversion |
| `KittiFrames` | `find_kitti_files` |
| `KittiConvert` | `convert_kitti_to_mcap` |

How the JavaScript is modelled:

- The component state of each assistant is a class whose methods update its fields.
- The timers are a queue of pending analyses. The online request is split at its `await` into a start and a reply. The layout document is an `Option<Json>` tree.

How the converter is modelled:

- Its loops are methods with loop invariants, each proved equal to a specification function.
- A recording is the sequence of calls made on the MCAP writer: schema, channel and message records.
- Files are read through functions carried in an `Inputs` value.

Details of the code that the model keeps:

- The online assistant's generic result uses the value range -2 to 10 (`foxglove-ai-assistant.jsx:181-182`). Its KITTI preset (`foxglove-ai-assistant.jsx:140-141`) and the offline assistant use 0 to 30.
- The online assistant's generic result uses the display frame `base_link` on both branches of its LiDAR test (`foxglove-ai-assistant.jsx:174`).
- The HTTP status of the reply is never checked (`foxglove-ai-assistant.jsx:69-70`). A reply without text content yields `''`, which fails only as an unparsable reply (`foxglove-ai-assistant.jsx:73-76`).
- The online `analyzeDataset` is asynchronous. It returns at its first `await`, and its reply is handled later. Other replies and earlier fallback timers can be handled in between, so a fallback result can appear next to a later analysis's error.

## Model

| member | source | states |
|---|---|---|
| TopicListAssistant.FirstRuleSpec | attempt-following-adrian/foxglove-ai-assistant.jsx:48-54 | The chosen rule fires and no earlier rule fires. No rule is chosen exactly when none fires (first match wins). |
| TopicListAssistant.TypeRulesFire | attempt-following-adrian/foxglove-ai-assistant.jsx:48-54 | Each of the seven rules fires exactly when the name contains one of its branch's keywords. |
| TopicListAssistant.FirstMatchWins | attempt-following-adrian/foxglove-ai-assistant.jsx:48-54 | A name gets the type of the first rule that fires, whatever the later rules would give. |
| TopicListAssistant.ClassifyTopicName | attempt-following-adrian/foxglove-ai-assistant.jsx:46-54 | The if/else-if chain gives the same type as the first firing rule of the ordered keyword table. |
| TopicListAssistant.UnknownIffNoKeyword | attempt-following-adrian/foxglove-ai-assistant.jsx:46-54 | A name stays "unknown" exactly when it contains none of the ten keywords. |
| TopicListAssistant.CaseSensitiveClassification | attempt-following-adrian/foxglove-ai-assistant.jsx:48-54 | Matching is case-sensitive: "/Camera/Image" is classified "unknown". |
| TopicListAssistant.ParseTopicList | attempt-following-adrian/foxglove-ai-assistant.jsx:38-60 | The loop over the kept lines returns what the split/trim/filter pipeline specifies, with one topic per kept line or null. |
| TopicListAssistant.KeptIndicesMap | attempt-following-adrian/foxglove-ai-assistant.jsx:41 | Every kept line is a line of the input at a recorded index, non-empty and starting with '/'. |
| TopicListAssistant.KeptIndicesIncrease | attempt-following-adrian/foxglove-ai-assistant.jsx:41 | The filter keeps the lines in input order. |
| TopicListAssistant.KeptIndicesComplete | attempt-following-adrian/foxglove-ai-assistant.jsx:41 | Every line that passes the filter is kept. |
| TopicListAssistant.ParsedNullIff | attempt-following-adrian/foxglove-ai-assistant.jsx:38-60 | The parser returns null exactly when no trimmed piece is a topic line. A blank text gives null. |
| TopicListAssistant.ParsedTopicsShape | attempt-following-adrian/foxglove-ai-assistant.jsx:44-57 | There is one topic per kept line, in order. Each is named by its line's first token (which starts with '/'), typed by the classifier, high priority and "User-provided topic". |
| TopicListAssistant.BranchPrecedence | attempt-following-adrian/foxglove-ai-assistant.jsx:74-94 | Parsed topics win: the dataset is the custom one, with the same topics whatever the description. Without them the topic text is irrelevant, and the KITTI-360 phrase selects the preset. |
| TopicListAssistant.GenericBranchShape | attempt-following-adrian/foxglove-ai-assistant.jsx:86-94 | The generic list has a camera topic iff a camera keyword occurs and a LiDAR topic iff a LiDAR keyword occurs. /tf is last and every topic is high priority. |
| TopicListAssistant.FrameSettingsChoice | attempt-following-adrian/foxglove-ai-assistant.jsx:100-112 | The display frame is "velodyne" iff some topic type contains "PointCloud", else "base_link". The fixed frame is "map" and the point-cloud settings are the constants. |
| TopicListAssistant.DetectedTopicsAreFirstMatches | attempt-following-adrian/foxglove-ai-assistant.jsx:97-117 | The detected LiDAR and image topics are the names of the first PointCloud- and Image-typed topics. The defaults apply when there is none or the name is empty. |
| TopicListAssistant.Kitti360ExampleDetection | attempt-following-adrian/foxglove-ai-assistant.jsx:78-85 | The KITTI-360 preset detects its Velodyne and semantic-camera topics and displays the "velodyne" frame. |
| TopicListAssistant.LayoutUsesDetectedTopics | attempt-following-adrian/foxglove-ai-assistant.jsx:121-165 | The layout is empty iff there is no result. The 3D panel's topics hold exactly the detected LiDAR topic, and the image panel shows the detected image topic. |
| TopicListAssistant.LidarTopicShown | attempt-following-adrian/foxglove-ai-assistant.jsx:135-140 | The 3D panel's topics object holds exactly the detected LiDAR topic, visible with point size 4. |
| TopicListAssistant.ImageTopicShown | attempt-following-adrian/foxglove-ai-assistant.jsx:147-149 | The image panel's imageTopic is the detected image topic. |
| TopicListAssistant.EmptyInputGuard | attempt-following-adrian/foxglove-ai-assistant.jsx:24 | A description trims to empty exactly when it is all whitespace. |
| TopicListSession.AssistantState.AnalyzeDataset | attempt-following-adrian/foxglove-ai-assistant.jsx:23-36 | A blank description sets the error and changes nothing else. Otherwise it sets loading, clears error and result, and queues the current inputs for the timer. |
| TopicListSession.AssistantState.TimerFires | attempt-following-adrian/foxglove-ai-assistant.jsx:32-35 | The oldest queued inputs yield the result and loading ends. The error and the inputs are untouched. |
| DemoAssistant.KittiDemoResult | foxglove-ai-assistant.jsx:101-146 | A description mentioning "kitti" in any case gets the four preset topics in order, only the calibration at medium priority. The frames are map/velodyne_frame, point size 5 and range 0 to 30. |
| DemoAssistant.GenericDemoResult | foxglove-ai-assistant.jsx:148-186 | Otherwise the list has /camera/image_raw iff "camera" occurs and /points iff "lidar" or "velodyne" occurs. /tf is last and every topic is high priority. The frames are map/base_link and the range is -2 to 10. |
| DemoAssistant.ExtractObjectSpec | foxglove-ai-assistant.jsx:73-76 | There is no match exactly when no '{' is followed by a '}'. Otherwise the match runs from the first '{' to the last '}' after it, and every braced span lies within it. |
| DemoAssistant.ExtractObjectIdempotent | foxglove-ai-assistant.jsx:73 | The extracted text starts with '{' and ends with '}', and extracting from it again gives it back. |
| DemoAssistant.PointCloudLayer | foxglove-ai-assistant.jsx:189-216 | There is no layout iff there is no result. The layers hold "grid" and the first topic naming a point cloud with the settings' layer, and nothing else. |
| DemoAssistant.VisibleTopics | foxglove-ai-assistant.jsx:237-240 | The 3D topics hold exactly /tf and the selected point-cloud topic, both visible. |
| DemoAssistant.CameraTopicFallback | foxglove-ai-assistant.jsx:243 | cameraTopic is the first Image-typed topic's name, or /camera/image_raw when there is none. |
| DemoAssistant.CalibrationTopicIff | foxglove-ai-assistant.jsx:244 | calibrationTopic is present iff some topic name contains "calibration", and it is the first such name. |
| DemoAssistant.FramesEchoed | foxglove-ai-assistant.jsx:252-259 | The global variables repeat the fixed and display frames. The follow panel tracks the display frame. |
| DemoAssistant.LayerColorModeOverridden | foxglove-ai-assistant.jsx:204-208 | The duplicate colorMode key reads "colormap", the later value, whatever mode the settings give. pointSize is the settings' point size. |
| DemoAssistant.LayerValueRange | foxglove-ai-assistant.jsx:210-213 | The layer's minValue and maxValue are the settings' range. |
| DemoAssistant.KittiSelections | foxglove-ai-assistant.jsx:192-194 | On the KITTI preset the layout selects the Velodyne cloud, the semantic camera and its calibration. |
| DemoAssistant.KittiDemoLayout | foxglove-ai-assistant.jsx:189-259 | The KITTI preset's layout shows /velodyne_pointcloud with its settings, the camera and calibration topics, and follows velodyne_frame. |
| DemoAssistant.GenericSelections | foxglove-ai-assistant.jsx:192-194 | On the generic list the cloud is /points iff LiDAR was mentioned, the image is the camera iff it was mentioned, and no calibration is found. |
| DemoAssistant.GenericListLayout | foxglove-ai-assistant.jsx:199-244 | For any result carrying the generic list: cameraTopic is /camera/image_raw, there is no calibrationTopic, and a /points layer exists iff LiDAR is present. |
| DemoAssistant.GenericDemoLayout | foxglove-ai-assistant.jsx:149-259 | The generic result's layout has no calibration, has a /points layer iff LiDAR was mentioned, and follows base_link. |
| DemoSession.UnparsableIffNoBraces | foxglove-ai-assistant.jsx:69-79 | A reply is "could not parse" exactly when it has no braced span. A parsed result comes from parsing some braced span of the reply. |
| DemoSession.DemoState.StartAnalysis | foxglove-ai-assistant.jsx:16-27 | Runs up to the request's `await`. A blank description only sets the error. Otherwise loading starts, error and result are cleared, and a request carrying the current description is outstanding. |
| DemoSession.DemoState.ReplyArrives | foxglove-ai-assistant.jsx:69-92 | Any outstanding request may settle next. A parsed reply becomes the result and leaves the error alone. A failure records the error, leaves the result alone and queues the fallback for that request's description. Loading ends either way. |
| DemoSession.DemoState.FallbackFires | foxglove-ai-assistant.jsx:86-89 | The oldest queued description's demo result becomes the result and the error is cleared. Loading and the outstanding requests are untouched, so it can fire while a later analysis is loading. |
| DemoSession.FallbackDuringLaterRequest | foxglove-ai-assistant.jsx:16-93 | When two analyses of a description fail in turn and the first fallback fires while the second request is outstanding, the first fallback's demo result is shown next to the second error. |
| Analysis.FindSpec | foxglove-ai-assistant.jsx:192-194 | find gives nothing iff no topic satisfies the test. Otherwise it gives the first satisfying topic. |
| Analysis.FindIsFirst | attempt-following-adrian/foxglove-ai-assistant.jsx:97-98 | When topic i is the first to satisfy the test, find returns it. |
| Text.StripSlice | attempt-following-adrian/foxglove-ai-assistant.jsx:41 | trim returns a slice of the text with only whitespace cut off before and after it. |
| Text.StripEmptyIff | data-pipeline/kitti_to_mcap.py:127-128 | A stripped line is empty exactly when it is all whitespace. |
| Text.FirstToken | attempt-following-adrian/foxglove-ai-assistant.jsx:45 | The first token is a prefix without whitespace, ending at the text's end or at a whitespace character. |
| Text.TokensCoverVisible | data-pipeline/kitti_to_mcap.py:132 | The tokens of split() are non-empty and free of whitespace, and together they are exactly the text's non-whitespace characters. |
| Text.SplitRoundTrip | attempt-following-adrian/foxglove-ai-assistant.jsx:41 | Interleaving the pieces of split with the separators gives back the text, with one more piece than separators. |
| Text.IndexOfSpec | data-pipeline/kitti_to_mcap.py:130 | The index is that of the first occurrence of the character, and it is absent iff the character does not occur. |
| Text.LastIndexOfSpec | data-pipeline/kitti_to_mcap.py:276 | The index is that of the last occurrence of the character, and it is absent iff the character does not occur. |
| Json.BuildGet | foxglove-ai-assistant.jsx:201-208 | Reading a key of an object literal gives the last value written for it. |
| Json.BuildKeys | foxglove-ai-assistant.jsx:201-208 | An object literal's keys are in first-occurrence order, each once. This is JS order for keys that are not array indices, and every key the layouts build is such a key. |
| Json.LastWriter | foxglove-ai-assistant.jsx:205-208 | The last member with a key determines its value. |
| KittiCalib.ParseKittiCalibration | data-pipeline/kitti_to_mcap.py:115-144 | The loop over the lines returns what the line-by-line function `ParseCalibration` gives. |
| KittiCalib.LastAssignedSpec | data-pipeline/kitti_to_mcap.py:133-140 | A key's value is the values of the last line assigning it. The key is absent iff no line assigns it. |
| KittiCalib.FirstMalformedLineRaises | data-pipeline/kitti_to_mcap.py:133-139 | The first R or T line with the wrong number of values raises with its key and count, whatever follows it. |
| KittiCalib.LastAssignmentsWin | data-pipeline/kitti_to_mcap.py:123-144 | Without such lines the result is the last R and T. It fails iff one of them is never assigned. |
| KittiCalib.ParsedArities | data-pipeline/kitti_to_mcap.py:133-144 | A parsed calibration has nine rotation values and three translation values. |
| KittiCalib.IgnoredLineIrrelevant | data-pipeline/kitti_to_mcap.py:127-133 | Removing a line that assigns neither R nor T does not change the result. |
| KittiCalib.BlankOrColonFreeIgnored | data-pipeline/kitti_to_mcap.py:127-129 | Blank lines and lines without ':' are skipped. |
| KittiCalib.SplitAtFirstColon | data-pipeline/kitti_to_mcap.py:127-140 | For any raw line, surrounding white space included, the key is the stripped text before the first ':'. It selects R, T or nothing, and the values are the tokens of everything after that ':', further colons included. |
| ProtoDescriptors.AddFile | data-pipeline/kitti_to_mcap.py:36-48 | The recursive add_file performs exactly the specified visit. |
| ProtoDescriptors.BuildFileDescriptorSet | data-pipeline/kitti_to_mcap.py:24-51 | The set built from an empty start is the specified descriptor set of the message's file. |
| ProtoDescriptors.VisitAppends | data-pipeline/kitti_to_mcap.py:36-48 | A visit keeps what was there and appends only unseen named files, in depth-first pre-order, never a name twice. |
| ProtoDescriptors.DescriptorSetSpec | data-pipeline/kitti_to_mcap.py:33-51 | The set has distinct, non-empty names in depth-first pre-order, with the root first. It is empty iff the root has no name. |
| ProtoDescriptors.DirectDependenciesIncluded | data-pipeline/kitti_to_mcap.py:47-48 | Every named import of an added file ends up seen. |
| ProtoEnums.NameToNumberSpec | data-pipeline/kitti_to_mcap.py:63 | The table holds exactly the lower-cased value names, each mapped to the number of the last value with that name. |
| ProtoEnums.NoCandidateMatches | data-pipeline/kitti_to_mcap.py:64-72 | Nothing is chosen exactly when no lower-cased candidate is in the table. |
| ProtoEnums.FirstMatchingCandidateWins | data-pipeline/kitti_to_mcap.py:64-68 | The first matching candidate decides. Later ones are not consulted. |
| ProtoEnums.ChoiceIsCaseInsensitive | data-pipeline/kitti_to_mcap.py:59-68 | A candidate equal up to case to a value's name selects that value's number. |
| ProtoEnums.CandidateCaseIrrelevant | data-pipeline/kitti_to_mcap.py:65 | Candidate lists equal up to case make the same choice. |
| ProtoEnums.ProtoMessage.SetEnumFieldByPreferredNames | data-pipeline/kitti_to_mcap.py:54-72 | The field is set to the chosen number. Otherwise the error says why (not an enum field, or no match) and the message is unchanged. |
| KittiPointCloud.ReadLidarBin | data-pipeline/kitti_to_mcap.py:146-152 | The reshape succeeds iff the word count is a multiple of 4. The result is then an N×4 array of the words. |
| KittiPointCloud.ConvertPointCloudToProto | data-pipeline/kitti_to_mcap.py:160-226 | The conversion returns what the function `PointCloudOf` gives: shape errors, enum errors, the unsupported-layout error, or the filled message. |
| KittiPointCloud.KeepColumnsSpec | data-pipeline/kitti_to_mcap.py:179-186 | Each row of the kept data is the first k columns of the same row of the input. |
| KittiPointCloud.ElementFieldSpec | data-pipeline/kitti_to_mcap.py:190-202 | An entry is filled with its name, offset and a count of one where the schema has them. Its element type is set through the enum setter, which alone can fail. |
| KittiPointCloud.ElementFieldsStops | data-pipeline/kitti_to_mcap.py:190-202 | The first failing entry's error ends the conversion. |
| KittiPointCloud.ElementFieldsSpec | data-pipeline/kitti_to_mcap.py:189-202 | When every entry succeeds, the fields are the entries in order. |
| KittiPointCloud.PointCloudFields | data-pipeline/kitti_to_mcap.py:164-208 | The conversion fails iff the element-type choice fails. On success there are 4 fields (3 when there are 3 columns) at offsets 4·i, and frame "velodyne". The stride, 16 or 12, goes in point_stride, or in point_step when the schema lacks point_stride; the other stays unset, and both stay unset when the schema has neither. |
| KittiPointCloud.PointCloudPoints | data-pipeline/kitti_to_mcap.py:173-218 | The row count goes in point_count. When the schema lacks point_count but has width and height, it goes in width with height 1. All three stay unset when neither applies. Each row of the data is the row's first 4 (or 3) values. |
| KittiPointCloud.KittiScanLayout | data-pipeline/kitti_to_mcap.py:146-218 | A KITTI scan converts to 4 fields with stride 16, and its data is exactly the file's words. |
| KittiFrames.StemOfScan | data-pipeline/kitti_to_mcap.py:276 | A scan's name is its stem followed by ".bin". |
| KittiFrames.SortNamesSpec | data-pipeline/kitti_to_mcap.py:270-271 | sorted orders the names and keeps each as often as it occurs. |
| KittiFrames.FindKittiFiles | data-pipeline/kitti_to_mcap.py:253-282 | The directory checks and the matching loop return what the function `FindFrames` gives. |
| KittiFrames.MatchFramesSpec | data-pipeline/kitti_to_mcap.py:274-280 | The frames are the scans whose same-named image exists, in order. Each frame is named by its stem and carries that image. |
| KittiFrames.FindFramesSpec | data-pipeline/kitti_to_mcap.py:261-282 | A missing LiDAR directory raises first, then a missing camera directory. Otherwise the frames are exactly the paired .bin entries, sorted, each with its stem and image. |
| KittiConvert.RegisterChannels | data-pipeline/kitti_to_mcap.py:322-358 | It registers the three schemas with their descriptor sets and the three channels, in the converter's order. |
| KittiConvert.BuildStaticTransforms | data-pipeline/kitti_to_mcap.py:360-397 | It fails iff the calibration file is malformed. Otherwise it gives the static transforms. |
| KittiConvert.StaticTransformsSpec | data-pipeline/kitti_to_mcap.py:360-397 | The first transform is map→camera identity. A camera→velodyne transform from R and T (9 and 3 values) follows iff a calibration file exists. |
| KittiConvert.ConvertScan | data-pipeline/kitti_to_mcap.py:420-422 | Reading and converting a scan gives the cloud, or nothing when either step raises. |
| KittiConvert.ScanStamped | data-pipeline/kitti_to_mcap.py:164-170 | A converted cloud carries the frame's timestamp and the "velodyne" frame where the schema has those fields. |
| KittiConvert.FrameRecordsSpec | data-pipeline/kitti_to_mcap.py:416-472 | A frame writes its cloud first and its JPEG image last, each only when it succeeds, stamped with the frame's time. |
| KittiConvert.WriteFrames | data-pipeline/kitti_to_mcap.py:410-475 | The loop's counts are the specified ok counts, ok + fail covers every frame, and its records are the specified messages. |
| KittiConvert.LoopRecordsSpec | data-pipeline/kitti_to_mcap.py:416-475 | The loop writes one message per successful scan or image, on the LiDAR or camera topic, with log time = publish time. |
| KittiConvert.LoopTimesBounded | data-pipeline/kitti_to_mcap.py:416-417 | With a non-negative step, every message lies between the start time and the last frame's time. |
| KittiConvert.LoopTimesOrdered | data-pipeline/kitti_to_mcap.py:416-417 | With a non-negative step, the messages are in non-decreasing time order. |
| KittiConvert.NoScanWritten | data-pipeline/kitti_to_mcap.py:420-437 | No scan is written exactly when every frame's scan fails. |
| KittiConvert.NoImageWritten | data-pipeline/kitti_to_mcap.py:445-472 | No image is written exactly when every frame's image fails. |
| KittiConvert.ConvertKittiToMcap | data-pipeline/kitti_to_mcap.py:285-490 | The converter returns the specified outcome: a missing directory, no frames (nothing written), or a bad calibration (after the registrations). Otherwise the registrations, the TF message at the start time and the frame messages, and it fails iff nothing was written. |

## Left out

- Floating point: the calibration values and the scan words are kept as opaque tokens and words. `float()` and the float32 reinterpretation are not modelled.
- `_rotation_matrix_to_quaternion_xyzw`: floating-point arithmetic. The camera→velodyne rotation is recorded as the calibration's R values.
- `convert_image_to_proto`, `read_camera_image`: image decoding and JPEG encoding are summarised by an `ImageRead` value (unreadable, or decoded with encoding that succeeds or fails).
- `ReadLidarBin`: a file whose byte count is not a multiple of 4 is not modelled, because the scan is given as float32 words.
- File I/O is not modelled, because the model has no file system. This covers glob, `exists`, `open`, the MCAP writer's byte format, `start`/`finish`, `flush` and `fsync`. Directory listings are entry names, and the recording is the sequence of schema, channel and message calls.
- `time.time()` and `int(1e9 / frame_rate)`, because they read a clock or use floating point. They are the `startNs` and `stepNs` parameters. So the model does not capture the `ZeroDivisionError` that a frame rate of 0 raises after the frame search and before the output is opened (`kitti_to_mcap.py:315`).
- Protobuf serialisation, because it is a foreign library. A descriptor set is its list of files, and messages are values.
- Exceptions raised by the writer inside the per-frame `try` blocks, because the writer is outside the model.
- `hasattr` probing, because it is runtime reflection. The message schema is given as the set of field names it has.
- `print` and the debug output, because they are I/O.
- `main`, argument parsing and download_kitti.py, because they are outside the modelled core.
- `ProtoDescriptors.DescriptorSetSpec`: does not prove that every reachable file is included, only that the set is a duplicate-free sub-sequence of the depth-first pre-order. Inclusion holds only when names identify files. `DirectDependenciesIncluded` proves it for the direct imports.
- `Text.Lower`, because the model has no Unicode case tables. `toLowerCase` and `str.lower` are modelled on ASCII letters only.
- `JSON.stringify` formatting, because it is text layout. The layouts are document trees, and the empty string or null is `None`.
- The remote request, because it is network I/O. Its reply is a parameter (the text, or the thrown message), and `JSON.parse` is a function parameter.
- React rendering, clipboard and download, because they are user-interface I/O.
- Timers and the event loop, because they are scheduling. Timers are a queue of pending analyses fired in order; like the source, a resubmission does not cancel an earlier one. Which outstanding reply or timer is handled next is the caller's choice of method and argument.
- `Json.BuildKeys`: array-index keys such as "0" or "42" are not modelled. JS enumerates them first, in ascending order, and `JSON.stringify` prints them in that order; the model keeps first-occurrence order for every key. No layout builds such a key: topic names start with '/' or contain "points".
