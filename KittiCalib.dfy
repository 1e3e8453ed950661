/**
  The reader of KITTI rotation/translation calibration files
  (`_parse_kitti_r_t_calib` in kitti_to_mcap.py): lines of the form
  `key: values`, of which only `R` (nine values, a row-major 3x3 rotation)
  and `T` (three values, a translation) matter. Values stay the text tokens
  the file holds; their conversion to floating point is not modelled.
*/
module KittiCalib {
  import opened Wrappers
  import opened Text

  /** The two keys the reader keeps. */
  datatype Key = R | T

  /** How many values a line with this key must carry. */
  function Arity(k: Key): nat {
    match k
    case R => 9
    case T => 3
  }

  /** What one line of the file contributes. */
  datatype Entry = Ignored | Assign(key: Key, values: seq<string>)

  datatype CalibError =
    /** An R or T line with the wrong number of values (the `ValueError` of the arity checks). */
    | BadArity(key: Key, got: nat)
    /** R or T never assigned (the final `ValueError`). */
    | MissingRT

  /** The parsed calibration: the value tokens of R (nine) and of T (three). */
  datatype Calibration = Calibration(rotation: seq<string>, translation: seq<string>)

  /**
    One raw line: stripped; blank lines and lines without ':' are skipped;
    the key is the stripped text before the first ':' and the values the
    white-space separated tokens after it.
  */
  function ClassifyLine(raw: string): Entry {
    var line := Strip(raw, IsPySpace);
    if line == [] then Ignored
    else match IndexOf(line, ':')
      case None => Ignored
      case Some(i) =>
        var key := Strip(line[..i], IsPySpace);
        var values := Tokens(Strip(line[i + 1..], IsPySpace), IsPySpace);
        if key == "R" then Assign(R, values)
        else if key == "T" then Assign(T, values)
        else Ignored
  }

  predicate Malformed(e: Entry) {
    e.Assign? && |e.values| != Arity(e.key)
  }

  predicate Assigns(e: Entry, k: Key) {
    e.Assign? && e.key == k
  }

  /** The reader's verdict once every line is read, from what R and T hold. */
  function Complete(r: Option<seq<string>>, t: Option<seq<string>>): Result<Calibration, CalibError> {
    if r.None? || t.None? then Err(MissingRT) else Ok(Calibration(r.value, t.value))
  }

  /** The reader on the remaining `lines`, with R and T holding `r` and `t`. */
  function Scan(lines: seq<string>, r: Option<seq<string>>, t: Option<seq<string>>): Result<Calibration, CalibError>
    decreases |lines|
  {
    if lines == [] then Complete(r, t)
    else
      var e := ClassifyLine(lines[0]);
      if Malformed(e) then Err(BadArity(e.key, |e.values|))
      else Scan(lines[1..], if Assigns(e, R) then Some(e.values) else r, if Assigns(e, T) then Some(e.values) else t)
  }

  /** What the reader returns for a file with these lines. */
  function ParseCalibration(lines: seq<string>): Result<Calibration, CalibError> {
    Scan(lines, None, None)
  }

  /** `_parse_kitti_r_t_calib`: the reader's loop over the file's lines, reassigning R and T. */
  method ParseKittiCalibration(lines: seq<string>) returns (res: Result<Calibration, CalibError>)
    ensures res == ParseCalibration(lines)
  {
    var r: Option<seq<string>> := None;
    var t: Option<seq<string>> := None;
    for n := 0 to |lines|
      invariant Scan(lines[n..], r, t) == ParseCalibration(lines)
    {
      assert lines[n..][1..] == lines[n + 1..];
      var e := ClassifyLine(lines[n]);
      if e.Assign? {
        if |e.values| != Arity(e.key) {
          return Err(BadArity(e.key, |e.values|));
        }
        if e.key == R {
          r := Some(e.values);
        } else {
          t := Some(e.values);
        }
      }
    }
    if r.None? || t.None? {
      return Err(MissingRT);
    }
    return Ok(Calibration(r.value, t.value));
  }

  // ---------------------------------------------------------------------------
  // A reference reading: the first malformed line decides the error,
  // otherwise the last assignment of each key wins.

  /** The values of the last line of `lines` that assigns `k`, if any. */
  function LastAssigned(lines: seq<string>, k: Key): Option<seq<string>>
    decreases |lines|
  {
    if lines == [] then None
    else
      var later := LastAssigned(lines[1..], k);
      var e := ClassifyLine(lines[0]);
      if later.Some? then later else if Assigns(e, k) then Some(e.values) else None
  }

  lemma {:induction false} LastAssignedSpec(lines: seq<string>, k: Key)
    ensures LastAssigned(lines, k).None? <==> forall i :: 0 <= i < |lines| ==> !Assigns(ClassifyLine(lines[i]), k)
    ensures LastAssigned(lines, k).Some? ==>
      exists i :: 0 <= i < |lines| && ClassifyLine(lines[i]) == Assign(k, LastAssigned(lines, k).value) &&
        forall j :: i < j < |lines| ==> !Assigns(ClassifyLine(lines[j]), k)
    decreases |lines|
  {
    if lines != [] {
      var rest := lines[1..];
      LastAssignedSpec(rest, k);
      assert forall i :: 1 <= i < |lines| ==> lines[i] == rest[i - 1];
      if LastAssigned(rest, k).Some? {
        var i :| 0 <= i < |rest| && ClassifyLine(rest[i]) == Assign(k, LastAssigned(rest, k).value) &&
          forall j :: i < j < |rest| ==> !Assigns(ClassifyLine(rest[j]), k);
        assert ClassifyLine(lines[i + 1]) == Assign(k, LastAssigned(lines, k).value);
      } else if Assigns(ClassifyLine(lines[0]), k) {
        assert ClassifyLine(lines[0]) == Assign(k, LastAssigned(lines, k).value);
      }
    }
  }

  /** Before the first malformed line nothing raises, and that line raises. */
  lemma {:induction false} ScanMalformed(lines: seq<string>, r: Option<seq<string>>, t: Option<seq<string>>, i: nat)
    requires i < |lines| && Malformed(ClassifyLine(lines[i]))
    requires forall j :: 0 <= j < i ==> !Malformed(ClassifyLine(lines[j]))
    ensures Scan(lines, r, t) == Err(BadArity(ClassifyLine(lines[i]).key, |ClassifyLine(lines[i]).values|))
    decreases i
  {
    if i > 0 {
      var e := ClassifyLine(lines[0]);
      assert !Malformed(e);
      var rest := lines[1..];
      assert rest[i - 1] == lines[i];
      assert forall j :: 0 <= j < i - 1 ==> rest[j] == lines[j + 1];
      ScanMalformed(rest, if Assigns(e, R) then Some(e.values) else r, if Assigns(e, T) then Some(e.values) else t, i - 1);
    }
  }

  /** Without malformed lines, the last assignment of each key wins over what was held before. */
  lemma {:induction false} ScanWellFormed(lines: seq<string>, r: Option<seq<string>>, t: Option<seq<string>>)
    requires forall i :: 0 <= i < |lines| ==> !Malformed(ClassifyLine(lines[i]))
    ensures Scan(lines, r, t) == Complete(Prefer(LastAssigned(lines, R), r), Prefer(LastAssigned(lines, T), t))
    decreases |lines|
  {
    if lines != [] {
      var e := ClassifyLine(lines[0]);
      assert !Malformed(e);
      var rest := lines[1..];
      assert forall i :: 0 <= i < |rest| ==> rest[i] == lines[i + 1];
      ScanWellFormed(rest, if Assigns(e, R) then Some(e.values) else r, if Assigns(e, T) then Some(e.values) else t);
    }
  }

  /** `a` when it holds a value, else `b`. */
  function Prefer<X>(a: Option<X>, b: Option<X>): Option<X> {
    if a.Some? then a else b
  }

  /** The first R or T line with the wrong number of values raises, whatever follows it. */
  lemma FirstMalformedLineRaises(lines: seq<string>, i: nat)
    requires i < |lines| && Malformed(ClassifyLine(lines[i]))
    requires forall j :: 0 <= j < i ==> !Malformed(ClassifyLine(lines[j]))
    ensures ParseCalibration(lines) == Err(BadArity(ClassifyLine(lines[i]).key, |ClassifyLine(lines[i]).values|))
  {
    ScanMalformed(lines, None, None, i);
  }

  /**
    Without malformed lines, R and T are the values of their last lines, and
    the reader raises exactly when one of them has no line.
  */
  lemma LastAssignmentsWin(lines: seq<string>)
    requires forall i :: 0 <= i < |lines| ==> !Malformed(ClassifyLine(lines[i]))
    ensures ParseCalibration(lines) == Complete(LastAssigned(lines, R), LastAssigned(lines, T))
  {
    ScanWellFormed(lines, None, None);
  }

  /** A successful reading holds exactly nine rotation and three translation values. */
  lemma {:induction false} ParsedArities(lines: seq<string>, r: Option<seq<string>>, t: Option<seq<string>>)
    requires r.Some? ==> |r.value| == 9
    requires t.Some? ==> |t.value| == 3
    ensures Scan(lines, r, t).Ok? ==>
      |Scan(lines, r, t).value.rotation| == 9 && |Scan(lines, r, t).value.translation| == 3
    decreases |lines|
  {
    if lines != [] {
      var e := ClassifyLine(lines[0]);
      if !Malformed(e) {
        ParsedArities(lines[1..], if Assigns(e, R) then Some(e.values) else r, if Assigns(e, T) then Some(e.values) else t);
      }
    }
  }

  /** A line the reader ignores can be dropped without changing the verdict. */
  lemma {:induction false} IgnoredLineIrrelevant(pre: seq<string>, line: string, post: seq<string>)
    requires ClassifyLine(line) == Ignored
    ensures ParseCalibration(pre + [line] + post) == ParseCalibration(pre + post)
  {
    IgnoredLineScan(pre, line, post, None, None);
  }

  lemma {:induction false} IgnoredLineScan(pre: seq<string>, line: string, post: seq<string>,
                                           r: Option<seq<string>>, t: Option<seq<string>>)
    requires ClassifyLine(line) == Ignored
    ensures Scan(pre + [line] + post, r, t) == Scan(pre + post, r, t)
    decreases |pre|
  {
    if pre == [] {
      assert ([] + [line] + post)[1..] == post;
      assert [] + post == post;
    } else {
      assert (pre + [line] + post)[0] == (pre + post)[0] == pre[0];
      assert (pre + [line] + post)[1..] == pre[1..] + [line] + post;
      assert (pre + post)[1..] == pre[1..] + post;
      var e := ClassifyLine(pre[0]);
      IgnoredLineScan(pre[1..], line, post,
        if Assigns(e, R) then Some(e.values) else r, if Assigns(e, T) then Some(e.values) else t);
    }
  }

  /** A blank line, or one without ':', is ignored. */
  lemma BlankOrColonFreeIgnored(raw: string)
    requires Strip(raw, IsPySpace) == [] || ':' !in Strip(raw, IsPySpace)
    ensures ClassifyLine(raw) == Ignored
  {
    IndexOfSpec(Strip(raw, IsPySpace), ':');
  }

  /**
    The key is split off at the first ':' only: on any raw line that strips
    to a text with no ':' before the first one, the stripped text before it
    selects R, T or nothing, and everything after it (further colons
    included) gives the values.
  */
  lemma SplitAtFirstColon(raw: string, key: string, rest: string)
    requires ':' !in key && Strip(raw, IsPySpace) == key + ":" + rest
    ensures ClassifyLine(raw) ==
      if Strip(key, IsPySpace) == "R" then Assign(R, Tokens(Strip(rest, IsPySpace), IsPySpace))
      else if Strip(key, IsPySpace) == "T" then Assign(T, Tokens(Strip(rest, IsPySpace), IsPySpace))
      else Ignored
  {
    var line := key + ":" + rest;
    IndexOfSpec(line, ':');
    assert line[|key|] == ':';
    assert forall k :: 0 <= k < |key| ==> line[k] == key[k];
    var i := IndexOf(line, ':').value;
    assert i == |key|;
    assert line[..i] == key;
    assert line[i + 1..] == rest;
  }
}
