/**
  Pairing the LiDAR scans of a KITTI drive with its camera images
  (`find_kitti_files` in kitti_to_mcap.py). The two data directories are
  given by their entry names; the file system itself is not modelled.
*/
module KittiFrames {
  import opened Wrappers
  import opened Text

  /**
    A drive directory: the entry names of `velodyne_points/data` and of
    `image_02/data`, each `None` when that directory does not exist.
  */
  datatype KittiDir = KittiDir(velodyneData: Option<seq<string>>, imageData: Option<set<string>>)

  datatype FindError = MissingLidarDir | MissingCameraDir

  /** A frame: its number (the scan's stem), the scan's file name and the image's file name. */
  datatype Frame = Frame(frameId: string, lidarFile: string, imageFile: string)

  predicate EndsWith(s: string, suffix: string) {
    |suffix| <= |s| && s[|s| - |suffix|..] == suffix
  }

  /**
    `Path.stem`: the name without its last suffix, where a suffix starts at
    the last '.' provided that dot is neither the first nor the last character.
  */
  function Stem(name: string): string {
    match LastIndexOf(name, '.')
    case Some(i) => if 0 < i < |name| - 1 then name[..i] else name
    case None => name
  }

  /** A scan's file name is its stem followed by `.bin`, unless the name is `.bin` itself. */
  lemma StemOfScan(name: string)
    requires EndsWith(name, ".bin") && |name| > 4
    ensures Stem(name) + ".bin" == name
  {
    LastIndexOfSpec(name, '.');
    assert name[|name| - 4] == '.';
    var i := LastIndexOf(name, '.').value;
    assert i == |name| - 4;
    assert name[..i] + name[i..] == name;
  }

  /** The entries the pattern `*.bin` matches, in listing order. */
  function BinFiles(entries: seq<string>): seq<string> {
    Filter(entries, IsBin)
  }

  predicate IsBin(name: string) {
    EndsWith(name, ".bin")
  }

  /** The elements of `xs` that satisfy `p`, in their order. */
  function Filter(xs: seq<string>, p: string -> bool): (r: seq<string>)
    ensures forall k :: 0 <= k < |r| ==> p(r[k])
    decreases |xs|
  {
    if xs == [] then []
    else if p(xs[|xs| - 1]) then Filter(xs[..|xs| - 1], p) + [xs[|xs| - 1]]
    else Filter(xs[..|xs| - 1], p)
  }

  // ---------------------------------------------------------------------------
  // Python's ordering of file names, and `sorted`

  /** Python's `<=` on strings: code point by code point, a prefix first. */
  predicate NameLe(a: string, b: string)
    decreases |a|
  {
    a == [] || (b != [] && (a[0] < b[0] || (a[0] == b[0] && NameLe(a[1..], b[1..]))))
  }

  lemma {:induction false} NameLeTotal(a: string, b: string)
    ensures NameLe(a, b) || NameLe(b, a)
    decreases |a|
  {
    if a != [] && b != [] && a[0] == b[0] {
      NameLeTotal(a[1..], b[1..]);
    }
  }

  lemma {:induction false} NameLeTransitive(a: string, b: string, c: string)
    requires NameLe(a, b) && NameLe(b, c)
    ensures NameLe(a, c)
    decreases |a|
  {
    if a != [] && b != [] && c != [] && a[0] == b[0] && b[0] == c[0] {
      NameLeTransitive(a[1..], b[1..], c[1..]);
    }
  }

  predicate Sorted(xs: seq<string>) {
    forall i, j :: 0 <= i < j < |xs| ==> NameLe(xs[i], xs[j])
  }

  /** `x` placed before the first element of the sorted `xs` it does not exceed. */
  function Insert(x: string, xs: seq<string>): seq<string>
    decreases |xs|
  {
    if xs == [] || NameLe(x, xs[0]) then [x] + xs else [xs[0]] + Insert(x, xs[1..])
  }

  lemma {:induction false} InsertSorted(x: string, xs: seq<string>)
    requires Sorted(xs)
    ensures Sorted(Insert(x, xs)) && multiset(Insert(x, xs)) == multiset(xs) + multiset{x}
    decreases |xs|
  {
    if xs == [] {
    } else if NameLe(x, xs[0]) {
      forall j | 0 <= j < |xs| ensures NameLe(x, xs[j]) {
        if j > 0 { NameLeTransitive(x, xs[0], xs[j]); }
      }
    } else {
      NameLeTotal(x, xs[0]);
      InsertSorted(x, xs[1..]);
      assert xs == [xs[0]] + xs[1..];
      InsertBounded(x, xs[1..], xs[0]);
    }
  }

  /** A lower bound of `x` and of every name of `xs` bounds every name of the insertion. */
  lemma InsertBounded(x: string, xs: seq<string>, low: string)
    requires NameLe(low, x) && forall k :: 0 <= k < |xs| ==> NameLe(low, xs[k])
    requires multiset(Insert(x, xs)) == multiset(xs) + multiset{x}
    ensures forall k :: 0 <= k < |Insert(x, xs)| ==> NameLe(low, Insert(x, xs)[k])
  {
    var r := Insert(x, xs);
    forall k | 0 <= k < |r| ensures NameLe(low, r[k]) {
      assert r[k] in multiset(xs) + multiset{x};
    }
  }

  /** `sorted(names)`, as an insertion sort. */
  function SortNames(names: seq<string>): seq<string>
    decreases |names|
  {
    if names == [] then [] else Insert(names[0], SortNames(names[1..]))
  }

  /** The sort orders the names and keeps each as often as it occurs. */
  lemma {:induction false} SortNamesSpec(names: seq<string>)
    ensures Sorted(SortNames(names)) && multiset(SortNames(names)) == multiset(names)
    decreases |names|
  {
    if names != [] {
      SortNamesSpec(names[1..]);
      InsertSorted(names[0], SortNames(names[1..]));
      assert names == [names[0]] + names[1..];
    }
  }

  // ---------------------------------------------------------------------------
  // Pairing

  /** The image file a scan is paired with: its stem with `.png`. */
  function ImageName(lidarFile: string): string {
    Stem(lidarFile) + ".png"
  }

  /** The frames the loop appends for these scans, in their order, given the image directory's entries. */
  function MatchFrames(lidarFiles: seq<string>, images: set<string>): seq<Frame>
    decreases |lidarFiles|
  {
    if lidarFiles == [] then []
    else
      var file := lidarFiles[|lidarFiles| - 1];
      var init := MatchFrames(lidarFiles[..|lidarFiles| - 1], images);
      if ImageName(file) in images then init + [Frame(Stem(file), file, ImageName(file))] else init
  }

  /** What `find_kitti_files` returns or raises. */
  function FindFrames(dir: KittiDir): Result<seq<Frame>, FindError> {
    if dir.velodyneData.None? then Err(MissingLidarDir)
    else if dir.imageData.None? then Err(MissingCameraDir)
    else Ok(MatchFrames(SortNames(BinFiles(dir.velodyneData.value)), dir.imageData.value))
  }

  /**
    `find_kitti_files`: the directory checks, then one pass over the sorted
    scans appending each one whose same-named image exists. The listing of
    the images, which the function sorts but never reads, is left out.
  */
  method FindKittiFiles(dir: KittiDir) returns (res: Result<seq<Frame>, FindError>)
    ensures res == FindFrames(dir)
  {
    if dir.velodyneData.None? {
      return Err(MissingLidarDir);
    }
    if dir.imageData.None? {
      return Err(MissingCameraDir);
    }
    var images := dir.imageData.value;
    var lidarFiles := SortNames(BinFiles(dir.velodyneData.value));
    var frames: seq<Frame> := [];
    for n := 0 to |lidarFiles|
      invariant frames == MatchFrames(lidarFiles[..n], images)
    {
      assert lidarFiles[..n + 1][..n] == lidarFiles[..n];
      var frameId := Stem(lidarFiles[n]);
      var imageFile := frameId + ".png";
      if imageFile in images {
        frames := frames + [Frame(frameId, lidarFiles[n], imageFile)];
      }
    }
    assert lidarFiles[..|lidarFiles|] == lidarFiles;
    return Ok(frames);
  }

  // ---------------------------------------------------------------------------
  // What the frames are

  function LidarFiles(frames: seq<Frame>): (r: seq<string>)
    ensures |r| == |frames| && forall k :: 0 <= k < |frames| ==> r[k] == frames[k].lidarFile
  {
    seq(|frames|, k requires 0 <= k < |frames| => frames[k].lidarFile)
  }

  /** A scan that is paired: a `.bin` entry whose image exists. */
  predicate Paired(name: string, images: set<string>) {
    IsBin(name) && ImageName(name) in images
  }

  /** The frames are the paired scans, each named after its stem and with its image. */
  lemma {:induction false} MatchFramesSpec(lidarFiles: seq<string>, images: set<string>)
    ensures var frames := MatchFrames(lidarFiles, images);
      && LidarFiles(frames) == Filter(lidarFiles, name => ImageName(name) in images)
      && forall k :: 0 <= k < |frames| ==>
           frames[k].frameId == Stem(frames[k].lidarFile) &&
           frames[k].imageFile == frames[k].frameId + ".png" && frames[k].imageFile in images
    decreases |lidarFiles|
  {
    if lidarFiles != [] {
      MatchFramesSpec(lidarFiles[..|lidarFiles| - 1], images);
    }
  }

  /** A filtered sequence holds each element satisfying the filter as often as the sequence does, and no other. */
  lemma {:induction false} FilterCount(xs: seq<string>, p: string -> bool, x: string)
    ensures multiset(Filter(xs, p))[x] == if p(x) then multiset(xs)[x] else 0
    decreases |xs|
  {
    if xs != [] {
      FilterCount(xs[..|xs| - 1], p, x);
      assert xs == xs[..|xs| - 1] + [xs[|xs| - 1]];
    }
  }

  lemma {:induction false} FilterSorted(xs: seq<string>, p: string -> bool)
    requires Sorted(xs)
    ensures Sorted(Filter(xs, p))
    decreases |xs|
  {
    if xs != [] {
      var init := xs[..|xs| - 1];
      assert Sorted(init);
      FilterSorted(init, p);
      var f := Filter(init, p);
      forall k | 0 <= k < |f| ensures NameLe(f[k], xs[|xs| - 1]) {
        FilterCount(init, p, f[k]);
        assert f[k] in multiset(init);
      }
    }
  }

  /**
    `find_kitti_files`: a missing LiDAR directory raises, then a missing
    camera directory; otherwise the frames are exactly the paired scans
    (each as often as listed), in sorted order, each with its stem as frame
    number and the same-named image.
  */
  lemma FindFramesSpec(dir: KittiDir)
    ensures FindFrames(dir) == Err(MissingLidarDir) <==> dir.velodyneData.None?
    ensures FindFrames(dir) == Err(MissingCameraDir) <==> dir.velodyneData.Some? && dir.imageData.None?
    ensures FindFrames(dir).Ok? ==>
      var frames, entries, images := FindFrames(dir).value, dir.velodyneData.value, dir.imageData.value;
      && Sorted(LidarFiles(frames))
      && multiset(LidarFiles(frames)) == multiset(Filter(entries, name => Paired(name, images)))
      && forall k :: 0 <= k < |frames| ==>
           frames[k].frameId == Stem(frames[k].lidarFile) &&
           frames[k].imageFile == frames[k].frameId + ".png" && frames[k].imageFile in images
  {
    if dir.velodyneData.Some? && dir.imageData.Some? {
      var entries, images := dir.velodyneData.value, dir.imageData.value;
      var sorted := SortNames(BinFiles(entries));
      var hasImage := name => ImageName(name) in images;
      SortNamesSpec(BinFiles(entries));
      MatchFramesSpec(sorted, images);
      FilterSorted(sorted, hasImage);
      var frames := MatchFrames(sorted, images);
      forall x
        ensures multiset(LidarFiles(frames))[x] == multiset(Filter(entries, name => Paired(name, images)))[x]
      {
        FilterCount(sorted, hasImage, x);
        FilterCount(entries, IsBin, x);
        FilterCount(entries, name => Paired(name, images), x);
      }
    }
  }
}
