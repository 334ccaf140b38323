/** A model of the wheel-size gate of the Windows CPU pip build.

    The gate takes a path (one wheel file, or a directory holding wheel files)
    and a limit in MiB. A negative limit is clamped to 0 with a notice. Each
    applicable wheel must be at most `limit * 1024 * 1024` bytes; the first one
    that is larger aborts the run with a file-size error naming that wheel and
    the clamped limit. A directory without any `*.whl` child, and a path that
    is neither a wheel file nor a directory, are errors.

    The filesystem is an input value (`Node`): a file with its size, a
    directory with its children in enumeration order, or nothing at all.
    Printed lines are collected in a log instead of being written out.
 */
module WheelSize {

  /** Default limit of the command line, in MiB. */
  const DefaultLimitMB: nat := 170

  /** Bytes in one MiB: the script multiplies by 1024 twice. */
  const BytesPerMB: nat := 1024 * 1024

  /** A child of a directory: its file name and its size in bytes. */
  datatype Entry = Entry(name: string, size: nat)

  /** What a path denotes on the (abstract) filesystem. */
  datatype Node =
    | File(path: string, size: nat)
    | Dir(path: string, entries: seq<Entry>)
    | Absent(path: string)

  /** A wheel about to be checked: its full path and its size in bytes. */
  datatype Wheel = Wheel(path: string, size: nat)

  /** A printed line, reduced to the values it names. */
  datatype Line =
    | LimitClamped(given: int)                  // the negative limit that was replaced by 0
    | WithinLimit(path: string, limitMB: nat)   // a wheel that passed, and the limit it passed

  /** How a run ends: normally, or with one of the script's exceptions. */
  datatype Outcome =
    | Ok
    | FileSizeError(path: string, limitMB: nat) // a wheel over the limit
    | NoWheelFile(path: string)                 // a directory with no `*.whl` child
    | PathNotFound                              // neither a wheel file nor a directory

  /** The printed lines of a run and how it ended. */
  datatype Run = Run(log: seq<Line>, outcome: Outcome)

  /** A file name counts as a wheel when it ends in `.whl`. */
  predicate IsWheelName(name: string)
  {
    |name| >= 4 && name[|name| - 4..] == ".whl"
  }

  /** A wheel name is some name followed by `.whl`, and every such name is a wheel name. */
  lemma WheelNameIsSuffix(name: string)
    ensures IsWheelName(name) <==> exists a: string :: name == a + ".whl"
  {
    if IsWheelName(name) {
      assert name == name[..|name| - 4] + ".whl";
    }
  }

  /** The path of a directory's child. */
  function Child(dir: string, name: string): string
  {
    dir + "/" + name
  }

  /** A child's path has the `.whl` suffix exactly when its own name has it. */
  lemma ChildWheelName(dir: string, name: string)
    ensures IsWheelName(Child(dir, name)) <==> IsWheelName(name)
  {
    var p := Child(dir, name);
    if |name| >= 4 {
      assert p[|p| - 4..] == name[|name| - 4..];
    } else if |p| >= 4 {
      // the last four characters of the path include the separator, which `.whl` does not
      var k := |dir| - (|p| - 4);
      assert p[|p| - 4..][k] == p[|dir|] == '/';
    }
  }

  /** The limit actually used: a negative limit becomes 0. */
  function Clamp(limit: int): (mb: nat)
    ensures mb >= limit
    ensures mb == limit || (limit < 0 && mb == 0)
  {
    if limit < 0 then 0 else limit
  }

  /** The limit in bytes: a whole number of MiB, which converts back to `mb`. */
  function LimitBytes(mb: nat): (b: nat)
    ensures b % BytesPerMB == 0 && b / BytesPerMB == mb
  {
    mb * BytesPerMB
  }

  /** True when a file of `size` bytes is allowed under a limit of `mb` MiB. */
  predicate Fits(size: nat, mb: nat)
    ensures Fits(size, mb) <==> size <= mb * 1024 * 1024
  {
    !(size > LimitBytes(mb))
  }

  /** `_validate_file_size`: one wheel against the limit. */
  function CheckFileSize(w: Wheel, mb: nat): (r: Run)
    ensures r.outcome == Ok <==> Fits(w.size, mb)
    ensures r.outcome == Ok ==> r.log == [WithinLimit(w.path, mb)]
    ensures r.outcome != Ok ==> r == Run([], FileSizeError(w.path, mb))
  {
    if w.size > LimitBytes(mb) then Run([], FileSizeError(w.path, mb))
    else Run([WithinLimit(w.path, mb)], Ok)
  }

  /** The `*.whl` children of a directory, in enumeration order, with their full paths. */
  function Wheels(dir: string, entries: seq<Entry>): (ws: seq<Wheel>)
    ensures |ws| <= |entries|
    ensures ws == [] <==> forall i :: 0 <= i < |entries| ==> !IsWheelName(entries[i].name)
  {
    if entries == [] then []
    else
      var rest := Wheels(dir, entries[1..]);
      if IsWheelName(entries[0].name) then [Wheel(Child(dir, entries[0].name), entries[0].size)] + rest
      else
        assert forall i :: 1 <= i < |entries| ==> entries[i] == entries[1..][i - 1];
        rest
  }

  /** The wheels checked in a directory are exactly its `*.whl` children. */
  lemma {:induction false} WheelsAreWheelEntries(dir: string, entries: seq<Entry>, w: Wheel)
    ensures w in Wheels(dir, entries) <==>
            exists e :: e in entries && IsWheelName(e.name) && w == Wheel(Child(dir, e.name), e.size)
  {
    if entries != [] {
      WheelsAreWheelEntries(dir, entries[1..], w);
      assert forall e :: e in entries <==> e == entries[0] || e in entries[1..];
    }
  }

  /** Listing a directory in two parts lists the wheels of each part in turn. */
  lemma {:induction false} WheelsAppend(dir: string, a: seq<Entry>, b: seq<Entry>)
    ensures Wheels(dir, a + b) == Wheels(dir, a) + Wheels(dir, b)
  {
    if a != [] {
      assert (a + b)[0] == a[0] && (a + b)[1..] == a[1..] + b;
      WheelsAppend(dir, a[1..], b);
    } else {
      assert a + b == b;
    }
  }

  /** The success lines printed for wheels that all pass. */
  function SuccessLines(ws: seq<Wheel>, mb: nat): (lines: seq<Line>)
    ensures |lines| == |ws|
    ensures forall i :: 0 <= i < |ws| ==> lines[i] == WithinLimit(ws[i].path, mb)
  {
    if ws == [] then [] else [WithinLimit(ws[0].path, mb)] + SuccessLines(ws[1..], mb)
  }

  /** One more passing wheel adds its success line at the end. */
  lemma {:induction false} SuccessLinesExtend(ws: seq<Wheel>, i: nat, mb: nat)
    requires i < |ws|
    ensures SuccessLines(ws[..i + 1], mb) == SuccessLines(ws[..i], mb) + [WithinLimit(ws[i].path, mb)]
  {
    if i > 0 {
      assert ws[..i + 1][1..] == ws[1..][..i] && ws[..i][1..] == ws[1..][..i - 1];
      SuccessLinesExtend(ws[1..], i - 1, mb);
    }
  }

  /** The `for wheel in wheels` loop of `main`: check in order, stop at the first failure. */
  function Scan(ws: seq<Wheel>, mb: nat): (r: Run)
    ensures |r.log| <= |ws|
    ensures forall i :: 0 <= i < |r.log| ==> r.log[i].WithinLimit? && r.log[i].limitMB == mb
    ensures r.outcome.Ok? || (r.outcome.FileSizeError? && r.outcome.limitMB == mb)
    decreases |ws|
  {
    if ws == [] then Run([], Ok)
    else
      var first := CheckFileSize(ws[0], mb);
      if first.outcome != Ok then first
      else
        var rest := Scan(ws[1..], mb);
        Run(first.log + rest.log, rest.outcome)
  }

  /** What `main` does once the limit is clamped: classify the path, then check. */
  function Classified(target: Node, mb: nat): (r: Run)
    ensures r.outcome == PathNotFound <==> target.Absent? || (target.File? && !IsWheelName(target.path))
    ensures r.outcome.NoWheelFile? <==>
              target.Dir? && forall i :: 0 <= i < |target.entries| ==> !IsWheelName(target.entries[i].name)
    ensures r.outcome.NoWheelFile? ==> r.outcome.path == target.path
    ensures r.outcome.FileSizeError? ==> r.outcome.limitMB == mb
    ensures forall i :: 0 <= i < |r.log| ==> r.log[i].WithinLimit? && r.log[i].limitMB == mb
  {
    match target
    case File(path, size) =>
      if IsWheelName(path) then CheckFileSize(Wheel(path, size), mb) else Run([], PathNotFound)
    case Dir(path, entries) =>
      var ws := Wheels(path, entries);
      if ws == [] then Run([], NoWheelFile(path)) else Scan(ws, mb)
    case Absent(_) => Run([], PathNotFound)
  }

  /** The clamp notice printed before anything else, when the limit is negative. */
  function ClampNotice(limit: int): (notice: seq<Line>)
    ensures |notice| <= 1
    ensures notice != [] <==> limit < 0
    ensures notice != [] ==> notice[0] == LimitClamped(limit)
  {
    if limit < 0 then [LimitClamped(limit)] else []
  }

  /** What `main` prints and how it ends, for a path and a limit. */
  function ExpectedRun(target: Node, limit: int): (r: Run)
    ensures |ClampNotice(limit)| <= |r.log| && r.log[..|ClampNotice(limit)|] == ClampNotice(limit)
    ensures r.outcome == Ok ==> |r.log| > |ClampNotice(limit)|
    ensures r.outcome.FileSizeError? ==> r.outcome.limitMB == Clamp(limit)
  {
    var body := Classified(target, Clamp(limit));
    Run(ClampNotice(limit) + body.log, body.outcome)
  }

  // ---------------------------------------------------------------------------
  // The directory loop, characterised without recursion

  /** The loop ends normally exactly when every wheel fits, and then prints one line per wheel. */
  lemma {:induction false} ScanAllWithin(ws: seq<Wheel>, mb: nat)
    ensures Scan(ws, mb).outcome == Ok <==> forall i :: 0 <= i < |ws| ==> Fits(ws[i].size, mb)
    ensures Scan(ws, mb).outcome == Ok ==> Scan(ws, mb).log == SuccessLines(ws, mb)
  {
    if ws != [] {
      ScanAllWithin(ws[1..], mb);
      assert forall i :: 1 <= i < |ws| ==> ws[i] == ws[1..][i - 1];
      if Scan(ws, mb).outcome == Ok {
        assert SuccessLines(ws, mb) == [WithinLimit(ws[0].path, mb)] + SuccessLines(ws[1..], mb);
      }
    }
  }

  /** The first wheel that does not fit aborts the loop, after one line per wheel before it. */
  lemma {:induction false} ScanAbortsAtFirst(ws: seq<Wheel>, mb: nat, k: nat)
    requires k < |ws|
    requires forall j :: 0 <= j < k ==> Fits(ws[j].size, mb)
    requires !Fits(ws[k].size, mb)
    ensures Scan(ws, mb) == Run(SuccessLines(ws[..k], mb), FileSizeError(ws[k].path, mb))
  {
    if k > 0 {
      assert forall j :: 0 <= j < k - 1 ==> ws[1..][j] == ws[j + 1];
      ScanAbortsAtFirst(ws[1..], mb, k - 1);
      assert ws[1..][..k - 1] == ws[1..k];
      assert SuccessLines(ws[..k], mb) == [WithinLimit(ws[0].path, mb)] + SuccessLines(ws[1..k], mb);
    }
  }

  // ---------------------------------------------------------------------------
  // `main`

  /** The `for wheel in wheels` loop of `main`: after the lines already printed,
      check each wheel in order and stop at the first one over the limit. */
  method CheckWheels(wheels: seq<Wheel>, mb: nat, printed: seq<Line>) returns (log: seq<Line>, outcome: Outcome)
    ensures log == printed + Scan(wheels, mb).log
    ensures outcome == Scan(wheels, mb).outcome
  {
    log := printed;
    var i := 0;
    while i < |wheels|
      invariant 0 <= i <= |wheels|
      invariant forall j :: 0 <= j < i ==> Fits(wheels[j].size, mb)
      invariant log == printed + SuccessLines(wheels[..i], mb)
    {
      var r := CheckFileSize(wheels[i], mb);
      if r.outcome != Ok {
        ScanAbortsAtFirst(wheels, mb, i);
        log := log + r.log;
        outcome := r.outcome;
        return;
      }
      SuccessLinesExtend(wheels, i, mb);
      log := log + r.log;
      i := i + 1;
    }
    ScanAllWithin(wheels, mb);
    assert wheels[..i] == wheels;
    outcome := Ok;
  }

  /** `main`: clamp the limit, classify the path, then check the wheel or the directory's wheels. */
  method ValidateWheelSize(target: Node, limit: int) returns (log: seq<Line>, outcome: Outcome)
    ensures Run(log, outcome) == ExpectedRun(target, limit)
  {
    log := [];
    var lim := limit;
    if lim < 0 {
      log := log + [LimitClamped(lim)];
      lim := 0;
    }
    match target {
      case File(path, size) =>
        if IsWheelName(path) {
          var r := CheckFileSize(Wheel(path, size), lim);
          log := log + r.log;
          outcome := r.outcome;
        } else {
          outcome := PathNotFound;
        }
      case Dir(path, entries) =>
        var wheels := Wheels(path, entries);
        if |wheels| > 0 {
          log, outcome := CheckWheels(wheels, lim, log);
        } else {
          outcome := NoWheelFile(path);
        }
      case Absent(_) =>
        outcome := PathNotFound;
    }
  }
}
