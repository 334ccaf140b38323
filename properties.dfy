/** Properties of the wheel-size gate, stated over `ExpectedRun`, which
    `ValidateWheelSize` is proved to follow. */
module WheelSizeProperties {
  import opened WheelSize

  /** A negative limit is announced first, and every later line and any size
      error name the clamped limit, never the negative one. */
  lemma ClampNoticeFirst(target: Node, limit: int)
    ensures var r := ExpectedRun(target, limit);
      (limit < 0 <==> |r.log| > 0 && r.log[0].LimitClamped?) &&
      (limit < 0 ==> r.log[0] == LimitClamped(limit)) &&
      (forall i :: 0 <= i < |r.log| && (limit >= 0 || i > 0) ==>
         r.log[i].WithinLimit? && r.log[i].limitMB == Clamp(limit)) &&
      (r.outcome.FileSizeError? ==> r.outcome.limitMB == Clamp(limit))
  {
  }

  /** A single wheel passes exactly when it is at most `limit * 1024 * 1024` bytes
      (with the clamped limit); otherwise the error names that wheel and the clamped limit. */
  lemma SingleWheelVerdict(path: string, size: nat, limit: int)
    requires IsWheelName(path)
    ensures var r := ExpectedRun(File(path, size), limit);
      (r.outcome == Ok <==> size <= Clamp(limit) * 1024 * 1024) &&
      (r.outcome == Ok ==> r.log == ClampNotice(limit) + [WithinLimit(path, Clamp(limit))]) &&
      (r.outcome != Ok ==> r == Run(ClampNotice(limit), FileSizeError(path, Clamp(limit))))
  {
  }

  /** An empty wheel passes under every limit, negative ones included. */
  lemma EmptyWheelPasses(path: string, limit: int)
    requires IsWheelName(path)
    ensures ExpectedRun(File(path, 0), limit) == Run(ClampNotice(limit) + [WithinLimit(path, Clamp(limit))], Ok)
  {
  }

  /** A file without the `.whl` suffix is rejected like a missing path, whatever its size. */
  lemma NonWheelFileRejected(path: string, size: nat, limit: int)
    requires !IsWheelName(path)
    ensures ExpectedRun(File(path, size), limit) == ExpectedRun(Absent(path), limit)
    ensures ExpectedRun(File(path, size), limit) == Run(ClampNotice(limit), PathNotFound)
  {
  }

  /** A child that is not a wheel has no effect on a directory's run, wherever it is listed. */
  lemma {:induction false} NonWheelEntryIgnored(dir: string, before: seq<Entry>, e: Entry, after: seq<Entry>, limit: int)
    requires !IsWheelName(e.name)
    ensures ExpectedRun(Dir(dir, before + [e] + after), limit) == ExpectedRun(Dir(dir, before + after), limit)
  {
    WheelsAppend(dir, before + [e], after);
    WheelsAppend(dir, before, [e]);
    WheelsAppend(dir, before, after);
    assert Wheels(dir, [e]) == [] by {
      assert [e][1..] == [];
    }
    assert Wheels(dir, before + [e] + after) == Wheels(dir, before + after);
  }

  /** A directory fails with "no wheel file", after printing nothing but the clamp notice,
      exactly when none of its children is a wheel. */
  lemma NoWheelsIff(dir: string, entries: seq<Entry>, limit: int)
    ensures ExpectedRun(Dir(dir, entries), limit) == Run(ClampNotice(limit), NoWheelFile(dir))
        <==> forall i :: 0 <= i < |entries| ==> !IsWheelName(entries[i].name)
  {
  }

  /** A directory with wheels passes exactly when each of its wheels fits, and then prints
      one success line per wheel, in enumeration order. */
  lemma DirectoryAllPass(dir: string, entries: seq<Entry>, limit: int)
    requires Wheels(dir, entries) != []
    ensures var ws, r := Wheels(dir, entries), ExpectedRun(Dir(dir, entries), limit);
      (r.outcome == Ok <==> forall i :: 0 <= i < |ws| ==> ws[i].size <= Clamp(limit) * 1024 * 1024) &&
      (r.outcome == Ok ==>
         |r.log| == |ClampNotice(limit)| + |ws| &&
         r.log == ClampNotice(limit) + SuccessLines(ws, Clamp(limit)))
  {
    ScanAllWithin(Wheels(dir, entries), Clamp(limit));
  }

  /** The first wheel over the limit ends the run with its error, after exactly one
      success line for each wheel listed before it. */
  lemma DirectoryAbortsAtFirst(dir: string, entries: seq<Entry>, limit: int, k: nat)
    requires k < |Wheels(dir, entries)|
    requires forall j :: 0 <= j < k ==> Fits(Wheels(dir, entries)[j].size, Clamp(limit))
    requires !Fits(Wheels(dir, entries)[k].size, Clamp(limit))
    ensures var ws := Wheels(dir, entries);
      ExpectedRun(Dir(dir, entries), limit)
        == Run(ClampNotice(limit) + SuccessLines(ws[..k], Clamp(limit)), FileSizeError(ws[k].path, Clamp(limit)))
  {
    ScanAbortsAtFirst(Wheels(dir, entries), Clamp(limit), k);
  }

  /** Raising the limit never turns a pass into a failure, and lowering it never
      turns a size error into a pass. */
  lemma MonotoneInLimit(target: Node, lo: int, hi: int)
    requires lo <= hi
    ensures ExpectedRun(target, lo).outcome == Ok ==> ExpectedRun(target, hi).outcome == Ok
    ensures ExpectedRun(target, hi).outcome.FileSizeError? ==> ExpectedRun(target, lo).outcome.FileSizeError?
  {
    match target
    case Dir(dir, entries) =>
      var ws := Wheels(dir, entries);
      ScanAllWithin(ws, Clamp(lo));
      ScanAllWithin(ws, Clamp(hi));
    case _ =>
  }
}
