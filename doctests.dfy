/** The examples embedded in the script's docstrings, as lemmas. The temporary
    directory and file names are arbitrary, so they are parameters. */
module WheelSizeDoctests {
  import opened WheelSize

  /** The fixture directory: 1 MiB, 2 MiB, 3 MiB and 0 bytes, in this enumeration order. */
  function Fixtures(): seq<Entry>
  {
    [Entry("a.whl", 1048576), Entry("b.whl", 2097152), Entry("t.txt", 3145728), Entry("0.whl", 0)]
  }

  /** An empty temporary file passes at 3 MiB; once 5 MiB are written, it fails naming the file and 3. */
  lemma DoctestValidateFileSize(path: string)
    ensures CheckFileSize(Wheel(path, 0), 3) == Run([WithinLimit(path, 3)], Ok)
    ensures CheckFileSize(Wheel(path, 1024 * 1024 * 5), 3) == Run([], FileSizeError(path, 3))
  {
  }

  /** `main(0.whl, -1)`: the clamp notice, then one success line at limit 0. */
  lemma DoctestEmptyWheelNegativeLimit(temp: string)
    ensures ExpectedRun(File(Child(temp, "0.whl"), 0), -1)
         == Run([LimitClamped(-1), WithinLimit(Child(temp, "0.whl"), 0)], Ok)
  {
  }

  /** `main(t.txt, 5)`: an existing file that is not a wheel is rejected as a bad path. */
  lemma DoctestTextFileRejected(temp: string)
    ensures ExpectedRun(File(Child(temp, "t.txt"), 3145728), 5) == Run([], PathNotFound)
  {
    ChildWheelName(temp, "t.txt");
  }

  /** `main(temp, 2)` for the fixtures listed in creation order: three success lines; `b.whl`,
      exactly 2 MiB, passes and `t.txt` is skipped. `DirectoryAllPass` gives the pass for any order. */
  lemma DoctestDirectoryLimit2(temp: string)
    ensures ExpectedRun(Dir(temp, Fixtures()), 2)
         == Run([WithinLimit(Child(temp, "a.whl"), 2),
                 WithinLimit(Child(temp, "b.whl"), 2),
                 WithinLimit(Child(temp, "0.whl"), 2)], Ok)
  {
    var fx := Fixtures();
    assert IsWheelName("a.whl") && IsWheelName("b.whl") && IsWheelName("0.whl") && !IsWheelName("t.txt");
    var a, b, z := Wheel(Child(temp, "a.whl"), 1048576), Wheel(Child(temp, "b.whl"), 2097152), Wheel(Child(temp, "0.whl"), 0);
    assert fx[3..][1..] == [];
    assert Wheels(temp, fx[3..]) == [z];
    assert fx[2..][1..] == fx[3..];
    assert Wheels(temp, fx[2..]) == [z];
    assert fx[1..][1..] == fx[2..];
    assert Wheels(temp, fx[1..]) == [b, z];
    assert Wheels(temp, fx) == [a, b, z];
    var ws := [a, b, z];
    assert ws[1..][1..][1..] == [];
    assert Scan(ws[2..], 2) == Run([WithinLimit(z.path, 2)], Ok);
    assert Scan(ws[1..], 2) == Run([WithinLimit(b.path, 2), WithinLimit(z.path, 2)], Ok);
  }

  /** `main(b.whl, 1)`: a 2 MiB wheel fails at 1 MiB, naming the wheel and 1. */
  lemma DoctestWheelOverLimit1(temp: string)
    ensures ExpectedRun(File(Child(temp, "b.whl"), 2097152), 1) == Run([], FileSizeError(Child(temp, "b.whl"), 1))
  {
  }
}
