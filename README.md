# Wheel-size gate of the Windows CPU pip build

This project models `validate_wheel_size.py`, the check that TensorFlow's Windows
CPU pip build runs on its built wheels, and proves properties of that model.

The script takes a path and a limit in MiB (default 170). A negative limit is
replaced by 0, and a notice is printed first. If the path is an existing file
whose name ends in `.whl`, that file is checked. If it is a directory, its
`*.whl` children are checked one by one in enumeration order. Anything else is
rejected with a `ValueError`. A wheel passes when its size in bytes is at most
`limit * 1024 * 1024`; a passing wheel prints one line. The first wheel over the
limit raises `FileSizeError`, naming that wheel and the clamped limit, and the
run stops there. A directory without any `*.whl` child raises a `ValueError` of
its own.

Files:

- `validate_wheel_size.dfy`, module `WheelSize`: the data model, the check of
  one file (`CheckFileSize`), the directory listing (`Wheels`), the loop over
  the wheels (`Scan` as a specification, `CheckWheels` as the loop itself),
  `main` (`ValidateWheelSize`) and its specification `ExpectedRun`.
- `properties.dfy`, module `WheelSizeProperties`: what the gate promises,
  stated over `ExpectedRun`.
- `doctests.dfy`, module `WheelSizeDoctests`: each docstring example of the
  script as a lemma.

How the model is built:

- The filesystem is an input value. `Node` is a file with its size, a
  directory with its children in enumeration order, or an absent path. The
  glob's order depends on the filesystem, so the model takes it as given.
- A printed line is kept as the values it names: `LimitClamped(given)` for
  the clamp notice, `WithinLimit(path, limitMB)` for a passing wheel. A run
  returns its log and an `Outcome`. The outcome is `Ok`, `FileSizeError(path,
  limitMB)`, `NoWheelFile(path)` (the `ValueError` at line 153) or
  `PathNotFound` (the `ValueError` at line 155).
- `main` is the method `ValidateWheelSize`. Like the script, it reassigns the
  limit when that is negative. Its `for wheel in wheels` loop is the method
  `CheckWheels`, which returns early at the first oversized wheel. The script
  exits the loop by raising at that point. Both methods are proved to produce
  exactly the log and outcome of the specification functions `ExpectedRun`
  and `Scan`. The lemmas are stated over those functions.

A wheel of exactly the limit passes, because the comparison is `>` (line 90).
The docstring at lines 129-132 shows `b.whl` (2 MiB) passing at limit 2, and
`DoctestDirectoryLimit2` proves it.

## Model

| member | source | states |
|---|---|---|
| `WheelSize.Clamp` | tensorflow/tools/ci_build/windows/cpu/pip/validate_wheel_size.py:141-143 | the limit used is never below the given one; it is the given limit, or 0 when the given limit is negative |
| `WheelSize.CheckFileSize` | tensorflow/tools/ci_build/windows/cpu/pip/validate_wheel_size.py:62-93 | a wheel passes iff it fits the limit; a pass prints one line naming the wheel and the limit; a failure prints nothing and is `FileSizeError` naming the wheel and the limit |
| `WheelSize.WheelNameIsSuffix` | tensorflow/tools/ci_build/windows/cpu/pip/validate_wheel_size.py:145-148 | a name passes the wheel test (the `.whl` suffix of line 145, the `*.whl` pattern of line 148) iff it is some name followed by `.whl` (a name of four characters or more is not required separately: `.whl` itself qualifies) |
| `WheelSize.LimitBytes` | tensorflow/tools/ci_build/windows/cpu/pip/validate_wheel_size.py:89 | the byte limit is a whole number of MiB that converts back to the limit in MiB |
| `WheelSize.Fits` | tensorflow/tools/ci_build/windows/cpu/pip/validate_wheel_size.py:90 | a file fits iff its size is at most the limit times 1024 * 1024 bytes, so equality fits |
| `WheelSize.ClampNotice` | tensorflow/tools/ci_build/windows/cpu/pip/validate_wheel_size.py:141-142 | the notice is one line, present iff the limit is negative, and names the given limit |
| `WheelSize.Classified` | tensorflow/tools/ci_build/windows/cpu/pip/validate_wheel_size.py:145-155 | after clamping, the path is rejected as a bad path iff it is absent or a file without the `.whl` suffix; the "no wheel file" error comes iff it is a directory with no `*.whl` child and names that directory; every line printed and any size error name the limit in use |
| `WheelSize.ExpectedRun` | tensorflow/tools/ci_build/windows/cpu/pip/validate_wheel_size.py:141-155 | the clamp notice comes before anything else; a passing run prints at least one success line; a size error names the clamped limit |
| `WheelSize.Wheels` | tensorflow/tools/ci_build/windows/cpu/pip/validate_wheel_size.py:148-149 | the listing is empty iff no child's name ends in `.whl`, and it is never longer than the directory |
| `WheelSize.WheelsAreWheelEntries` | tensorflow/tools/ci_build/windows/cpu/pip/validate_wheel_size.py:148 | a wheel is checked iff it comes from a child named `*.whl`, with that child's path and size |
| `WheelSize.WheelsAppend` | tensorflow/tools/ci_build/windows/cpu/pip/validate_wheel_size.py:148 | the wheels of a listing split in two are the wheels of the first part followed by those of the second, so enumeration order is kept |
| `WheelSize.SuccessLines` | tensorflow/tools/ci_build/windows/cpu/pip/validate_wheel_size.py:93 | one success line per wheel, in order, the i-th naming the i-th wheel and the limit |
| `WheelSize.Scan` | tensorflow/tools/ci_build/windows/cpu/pip/validate_wheel_size.py:150-151 | the loop prints at most one line per wheel, each a success line with the limit in use; it ends normally or with a `FileSizeError` carrying that limit |
| `WheelSize.ScanAllWithin` | tensorflow/tools/ci_build/windows/cpu/pip/validate_wheel_size.py:150-151 | the loop ends normally iff every wheel fits, and then it has printed exactly one success line per wheel |
| `WheelSize.ScanAbortsAtFirst` | tensorflow/tools/ci_build/windows/cpu/pip/validate_wheel_size.py:150-151 | when wheel k is the first that does not fit, the loop prints success lines for exactly the wheels before k and fails with wheel k's path and the limit |
| `WheelSize.CheckWheels` | tensorflow/tools/ci_build/windows/cpu/pip/validate_wheel_size.py:149-151 | the loop, with its early exit, appends exactly the lines of `Scan` to what was printed before and ends with `Scan`'s outcome |
| `WheelSize.ValidateWheelSize` | tensorflow/tools/ci_build/windows/cpu/pip/validate_wheel_size.py:141-155 | `main` prints exactly the lines of `ExpectedRun` and ends with its outcome, for every path and limit |
| `WheelSizeProperties.ClampNoticeFirst` | tensorflow/tools/ci_build/windows/cpu/pip/validate_wheel_size.py:141-146 | the first line is the clamp notice iff the limit is negative, and it names the given limit; every other line and any size error name the clamped limit |
| `WheelSizeProperties.SingleWheelVerdict` | tensorflow/tools/ci_build/windows/cpu/pip/validate_wheel_size.py:89-93 | a single wheel passes iff its size is at most the clamped limit times 1024 * 1024 bytes, so a wheel of exactly the limit passes; otherwise the error names the wheel and the clamped limit |
| `WheelSizeProperties.EmptyWheelPasses` | tensorflow/tools/ci_build/windows/cpu/pip/validate_wheel_size.py:123-125 | a zero-byte wheel passes under every limit, after the clamp notice when the limit is negative |
| `WheelSizeProperties.NonWheelFileRejected` | tensorflow/tools/ci_build/windows/cpu/pip/validate_wheel_size.py:145-155 | a file without the `.whl` suffix gets the same result as a missing path, whatever its size |
| `WheelSizeProperties.NonWheelEntryIgnored` | tensorflow/tools/ci_build/windows/cpu/pip/validate_wheel_size.py:148-153 | adding a non-wheel child anywhere in a directory changes nothing in the run |
| `WheelSizeProperties.NoWheelsIff` | tensorflow/tools/ci_build/windows/cpu/pip/validate_wheel_size.py:149-153 | a directory's whole run is the clamp notice (if any) followed by the "no wheel file" error naming it, iff none of its children is a wheel |
| `WheelSizeProperties.DirectoryAllPass` | tensorflow/tools/ci_build/windows/cpu/pip/validate_wheel_size.py:149-151 | a directory with wheels passes iff every wheel is within the limit in bytes, and then it prints one success line per wheel after the notice |
| `WheelSizeProperties.DirectoryAbortsAtFirst` | tensorflow/tools/ci_build/windows/cpu/pip/validate_wheel_size.py:150-151 | the first oversized wheel ends the run with its own error, after one success line for each wheel before it |
| `WheelSizeProperties.MonotoneInLimit` | tensorflow/tools/ci_build/windows/cpu/pip/validate_wheel_size.py:89-90 | a pass at a limit stays a pass at any higher limit, and a size error at a limit is a size error at any lower limit |
| `WheelSize.ChildWheelName` | tensorflow/tools/ci_build/windows/cpu/pip/validate_wheel_size.py:148 | a child's full path has the `.whl` suffix iff the child's own name has it |
| `WheelSizeDoctests.DoctestValidateFileSize` | tensorflow/tools/ci_build/windows/cpu/pip/validate_wheel_size.py:74-87 | an empty file passes at 3 MiB; a 5 MiB file fails at 3 MiB, naming the file and 3 |
| `WheelSizeDoctests.DoctestEmptyWheelNegativeLimit` | tensorflow/tools/ci_build/windows/cpu/pip/validate_wheel_size.py:123-125 | `0.whl` at limit -1 prints the clamp notice, then a success line at limit 0 |
| `WheelSizeDoctests.DoctestTextFileRejected` | tensorflow/tools/ci_build/windows/cpu/pip/validate_wheel_size.py:126-128 | `t.txt` at limit 5 prints nothing and is rejected as a bad path |
| `WheelSizeDoctests.DoctestDirectoryLimit2` | tensorflow/tools/ci_build/windows/cpu/pip/validate_wheel_size.py:113-132 | for the fixtures listed in creation order, the directory at limit 2 prints success lines for `a.whl`, `b.whl` and `0.whl` and passes; the listing order depends on the filesystem, and `DirectoryAllPass` gives the pass for any order |
| `WheelSizeDoctests.DoctestWheelOverLimit1` | tensorflow/tools/ci_build/windows/cpu/pip/validate_wheel_size.py:133-135 | `b.whl` (2 MiB) at limit 1 fails, naming `b.whl` and 1 |

## Left out

- `parse_args` (lines 28-59) is a thin wrapper over `argparse`. Only its default limit of 170 MiB is kept, as `DefaultLimitMB`.
- `sanity_tests.py` asserts facts about the installed TensorFlow package. Those are calls into a library the model cannot see.
- Filesystem access (`stat`, `is_file`, `is_dir`, `glob`) is replaced by the `Node` input value. The glob's enumeration order is taken as the given order of a directory's children.
- The suffix test is "the name ends in `.whl`". Pathlib's rules for dotfiles (a file named just `.whl` has no suffix) are not modelled.
- Case folding is not modelled. On Windows the glob `*.whl` also matches `X.WHL`, while a lone `X.WHL` path fails the exact `suffix == ".whl"` test at line 145; the model's `.whl` test is case-sensitive in both places.
- A directory's children are files only. A sub-directory named `*.whl` would match the glob and then be measured by `stat`; the model has no such child.
- A child's path is written as the directory, `/`, and the name. The separator on Windows is not modelled.
- The wording of printed lines and error messages is left out. Each line and error keeps only the path and limit it names.
- The `str`-to-`Path` coercion (lines 138-139), the doctest runner and the `__main__` dispatch (lines 158-165) are process plumbing. The process exit status is not modelled either; a non-`Ok` outcome stands for the uncaught exception.
