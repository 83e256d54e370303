/**
 * The line selection of `read_file_range` (tools/file_tools.py): lines are
 * numbered from 1 and the range is inclusive. Reading the file is outside
 * the model; what `readlines` returned (each line with its own line ending)
 * or the message of the exception it raised is an input.
 */
module FileTools {
  import opened Common

  /** What opening and reading the file gave. */
  datatype ReadOutcome = Lines(lines: seq<string>) | ReadFailed(message: string)

  /** `"".join(parts)`. */
  function Concat(parts: seq<string>): string
    decreases |parts|
  {
    if parts == [] then "" else Concat(parts[..|parts| - 1]) + parts[|parts| - 1]
  }

  lemma {:induction false} ConcatAppend(a: seq<string>, b: seq<string>)
    ensures Concat(a + b) == Concat(a) + Concat(b)
    decreases |b|
  {
    if b == [] {
      assert a + b == a;
    } else {
      var init := b[..|b| - 1];
      ConcatAppend(a, init);
      assert (a + b)[..|a + b| - 1] == a + init;
      assert Concat(a + b) == Concat(a + init) + b[|b| - 1];
    }
  }

  /** `lines[start - 1:end]` for a range inside the file: lines `start` to `end`, both included. */
  function Selected(lines: seq<string>, start: int, end: int): (r: seq<string>)
    requires 1 <= start <= end <= |lines|
    ensures |r| == end - start + 1
    ensures forall i :: 0 <= i < |r| ==> r[i] == lines[start - 1 + i]
  {
    lines[start - 1..end]
  }

  function InvalidRange(start: int, end: int): string
  {
    "Invalid line range: start=" + IntToString(start) + ", end=" + IntToString(end)
  }

  /** `ReadFileRangeTool.execute`: the range is checked before the file is read, then clamped to its length. */
  function ReadRange(path: string, start: int, end: int, read: ReadOutcome): (r: string)
    ensures start < 1 || end < start ==> r == InvalidRange(start, end)
    ensures 1 <= start <= end && read.ReadFailed? ==> r == "Error reading file range " + path + ": " + read.message
    ensures 1 <= start <= end && read.Lines? && start > |read.lines| ==> r == ""
    ensures 1 <= start <= end && read.Lines? && start <= |read.lines| ==>
              r == Concat(Selected(read.lines, start, if end < |read.lines| then end else |read.lines|))
  {
    if start < 1 || end < start then InvalidRange(start, end)
    else match read
      case ReadFailed(m) => "Error reading file range " + path + ": " + m
      case Lines(lines) =>
        if start > |lines| then ""
        else
          var last := if end < |lines| then end else |lines|;
          Concat(lines[start - 1..last])
  }

  // ---------------------------------------------------------------------------
  // Properties
  // ---------------------------------------------------------------------------

  /** The invalid-range message is never the empty string, so it cannot be mistaken for a range past the end. */
  lemma InvalidRangeIsNotEmpty(path: string, start: int, end: int, read: ReadOutcome)
    requires start < 1 || end < start
    ensures ReadRange(path, start, end, read) != ""
  {
    assert |InvalidRange(start, end)| > 0;
  }

  /** A range that reaches past the last line gives the same text as one that stops at it. */
  lemma ClampedToLength(path: string, start: int, end: int, lines: seq<string>)
    requires 1 <= start <= |lines| <= end
    ensures ReadRange(path, start, end, Lines(lines)) == ReadRange(path, start, |lines|, Lines(lines))
  {
  }

  /** Reading lines 1 to the last (or beyond) gives back the whole text. */
  lemma WholeFile(path: string, end: int, lines: seq<string>)
    requires 1 <= |lines| <= end
    ensures ReadRange(path, 1, end, Lines(lines)) == Concat(lines)
  {
    assert lines[0..|lines|] == lines;
  }

  /** Two adjacent ranges together read the same text as the range that covers both. */
  lemma AdjacentRanges(path: string, start: int, mid: int, end: int, lines: seq<string>)
    requires 1 <= start <= mid < end <= |lines|
    ensures ReadRange(path, start, mid, Lines(lines)) + ReadRange(path, mid + 1, end, Lines(lines))
            == ReadRange(path, start, end, Lines(lines))
  {
    assert lines[start - 1..end] == lines[start - 1..mid] + lines[mid..end];
    ConcatAppend(lines[start - 1..mid], lines[mid..end]);
  }
}
