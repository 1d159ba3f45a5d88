/**
 * Reassembly of terminal-wrapped command output.  A physical line that
 * starts with whitespace continues the logical line before it; blank lines
 * are dropped; every other line opens a new logical line.
 */
module LineMerger {
  import opened Text
  import opened Seqs

  /** A non-blank physical line that opens a new logical line. */
  predicate IsHead(line: string) {
    !IsBlank(line) && !IsSpace(line[0])
  }

  /** A non-blank physical line that continues the current logical line. */
  predicate IsContinuation(line: string) {
    !IsBlank(line) && IsSpace(line[0])
  }

  /** The first non-blank line is a continuation: nothing precedes it to extend. */
  predicate LeadingContinuation(lines: seq<string>) {
    var nb := Filter(NotBlank, lines);
    nb != [] && IsContinuation(nb[0])
  }

  /** The merging loop's state: the logical lines already emitted and the one being built ("" for none). */
  datatype Accumulator = Accumulator(merged: seq<string>, current: string)

  /** One turn of the merging loop. */
  function Step(acc: Accumulator, line: string): Accumulator {
    if IsBlank(line) then acc
    else if IsSpace(line[0]) then Accumulator(acc.merged, acc.current + " " + Strip(line))
    else Accumulator(if acc.current != "" then acc.merged + [acc.current] else acc.merged, Strip(line))
  }

  /** The loop's state after it has consumed `lines`. */
  function Scan(lines: seq<string>): Accumulator
    decreases |lines|
  {
    if lines == [] then Accumulator([], "")
    else Step(Scan(lines[..|lines| - 1]), lines[|lines| - 1])
  }

  /** The logical line still being built is emitted at the end of input. */
  function Flush(acc: Accumulator): seq<string> {
    if acc.current != "" then acc.merged + [acc.current] else acc.merged
  }

  /** The logical lines of `lines`. */
  function Merged(lines: seq<string>): seq<string> {
    Flush(Scan(lines))
  }

  /**
   * `merge_wrapped_lines(raw_output)`: walk the lines of `raw`, accumulating
   * continuations onto the current logical line.
   */
  method MergeWrappedLines(raw: string) returns (mergedLines: seq<string>)
    ensures mergedLines == Merged(SplitLines(raw))
    ensures forall line :: line in mergedLines ==> line != ""
  {
    var lines := SplitLines(raw);
    mergedLines := [];
    var current := "";
    for i := 0 to |lines|
      invariant Scan(lines[..i]) == Accumulator(mergedLines, current)
    {
      var line := lines[i];
      assert lines[..i + 1][..i] == lines[..i];
      if IsBlank(line) {
        continue;
      }
      if IsSpace(line[0]) {
        current := current + " " + Strip(line);
      } else {
        if current != "" {
          mergedLines := mergedLines + [current];
        }
        current := Strip(line);
      }
    }
    assert lines[..|lines|] == lines;
    if current != "" {
      mergedLines := mergedLines + [current];
    }
    MergedLinesNonEmpty(lines);
  }

  // ---------------------------------------------------------------------
  // What the loop keeps true

  /**
   * After any prefix: nothing is being built exactly when only blank lines
   * were seen, and then nothing has been emitted either; every emitted line
   * is non-empty; and the emitted lines plus the one being built number the
   * heads seen, plus one for a leading continuation.
   */
  lemma {:induction false} ScanInvariant(lines: seq<string>)
    ensures var acc := Scan(lines);
            && (acc.current == "" <==> Filter(NotBlank, lines) == [])
            && (acc.current == "" ==> acc.merged == [])
            && (forall line :: line in acc.merged ==> line != "")
            && |acc.merged| + (if acc.current != "" then 1 else 0)
               == |Filter(IsHead, lines)| + (if LeadingContinuation(lines) then 1 else 0)
    decreases |lines|
  {
    if lines != [] {
      var prefix, line := lines[..|lines| - 1], lines[|lines| - 1];
      assert lines == prefix + [line];
      ScanInvariant(prefix);
      FilterSnoc(NotBlank, prefix, line);
      FilterSnoc(IsHead, prefix, line);
      var nb := Filter(NotBlank, prefix);
      if nb != [] {
        assert Filter(NotBlank, lines)[0] == nb[0];
      }
    }
  }

  // ---------------------------------------------------------------------
  // Properties of the merger

  /** Every logical line is non-empty. */
  lemma MergedLinesNonEmpty(lines: seq<string>)
    ensures forall line :: line in Merged(lines) ==> line != ""
  {
    ScanInvariant(lines);
  }

  /** There are no logical lines exactly when every physical line is blank. */
  lemma MergedEmptyIffAllBlank(lines: seq<string>)
    ensures Merged(lines) == [] <==> forall line :: line in lines ==> IsBlank(line)
  {
    ScanInvariant(lines);
    FilterMembers(NotBlank, lines);
    if Filter(NotBlank, lines) == [] {
      forall line | line in lines ensures IsBlank(line) {
        assert line !in Filter(NotBlank, lines);
      }
    } else {
      assert Filter(NotBlank, lines)[0] in Filter(NotBlank, lines);
    }
  }

  /**
   * One logical line per head, plus one when the first non-blank line is a
   * continuation (that line then starts a logical line of its own).
   */
  lemma MergedCount(lines: seq<string>)
    ensures |Merged(lines)| == |Filter(IsHead, lines)| + (if LeadingContinuation(lines) then 1 else 0)
  {
    ScanInvariant(lines);
  }

  lemma ScanSnoc(lines: seq<string>, line: string)
    ensures Scan(lines + [line]) == Step(Scan(lines), line)
  {
    assert (lines + [line])[..|lines|] == lines;
  }

  /** A blank line changes nothing. */
  lemma MergedSnocBlank(lines: seq<string>, line: string)
    requires IsBlank(line)
    ensures Merged(lines + [line]) == Merged(lines)
  {
    ScanSnoc(lines, line);
  }

  /** A head line adds its stripped text as a new last logical line, after all earlier ones. */
  lemma MergedSnocHead(lines: seq<string>, line: string)
    requires IsHead(line)
    ensures Merged(lines + [line]) == Merged(lines) + [Strip(line)]
  {
    ScanSnoc(lines, line);
  }

  /**
   * A continuation line extends the last logical line by exactly one space and
   * its stripped text; with no logical line yet, it starts one that begins
   * with a space.
   */
  lemma MergedSnocContinuation(lines: seq<string>, line: string)
    requires IsContinuation(line)
    ensures var m := Merged(lines);
            Merged(lines + [line]) ==
              if m == [] then [" " + Strip(line)]
              else m[..|m| - 1] + [m[|m| - 1] + " " + Strip(line)]
  {
    ScanSnoc(lines, line);
    ScanInvariant(lines);
    var acc := Scan(lines);
    if acc.current == "" {
      assert "" + " " + Strip(line) == " " + Strip(line);
    } else {
      var m := Merged(lines);
      assert m == acc.merged + [acc.current];
      assert m[..|m| - 1] == acc.merged;
    }
  }

  /** Extending a non-empty string keeps its first character. */
  lemma ExtendKeepsSpacePrefix(x: string, y: string)
    requires x != ""
    ensures StartsWith(x + y, " ") <==> StartsWith(x, " ")
  {
    assert (x + y)[0] == x[0];
  }

  /** The first logical line begins with a space exactly when input opens with a continuation. */
  lemma {:induction false} MergedLeadingSpace(lines: seq<string>)
    ensures LeadingContinuation(lines) <==> Merged(lines) != [] && StartsWith(Merged(lines)[0], " ")
    decreases |lines|
  {
    if lines != [] {
      var prefix, line := lines[..|lines| - 1], lines[|lines| - 1];
      assert lines == prefix + [line];
      FilterSnoc(NotBlank, prefix, line);
      if IsBlank(line) {
        MergedSnocBlank(prefix, line);
        MergedLeadingSpace(prefix);
      } else if Filter(NotBlank, prefix) == [] {
        LeadingSpaceFirstLine(prefix, line);
      } else {
        MergedLeadingSpace(prefix);
        LeadingContinuationSnoc(prefix, line);
        ScanInvariant(prefix);
        FirstMergedSnoc(prefix, line);
      }
    }
  }

  /** The first non-blank line alone decides whether the first logical line begins with a space. */
  lemma LeadingSpaceFirstLine(prefix: seq<string>, line: string)
    requires Filter(NotBlank, prefix) == [] && !IsBlank(line)
    ensures LeadingContinuation(prefix + [line]) <==>
            Merged(prefix + [line]) != [] && StartsWith(Merged(prefix + [line])[0], " ")
  {
    FilterSnoc(NotBlank, prefix, line);
    ScanInvariant(prefix);
    assert Merged(prefix) == [];
    assert Filter(NotBlank, prefix + [line]) == [line];
    if IsSpace(line[0]) {
      MergedSnocContinuation(prefix, line);
    } else {
      MergedSnocHead(prefix, line);
      assert Strip(line)[0] == line[0];
    }
  }

  /** Once a non-blank line has been seen, later lines do not change whether input opens with a continuation. */
  lemma LeadingContinuationSnoc(prefix: seq<string>, line: string)
    requires Filter(NotBlank, prefix) != []
    ensures LeadingContinuation(prefix + [line]) == LeadingContinuation(prefix)
  {
    FilterSnoc(NotBlank, prefix, line);
    assert Filter(NotBlank, prefix + [line])[0] == Filter(NotBlank, prefix)[0];
  }

  /** Once there is a logical line, a later non-blank line leaves the first one's first character alone. */
  lemma FirstMergedSnoc(prefix: seq<string>, line: string)
    requires Merged(prefix) != [] && !IsBlank(line)
    ensures Merged(prefix + [line]) != []
    ensures StartsWith(Merged(prefix + [line])[0], " ") == StartsWith(Merged(prefix)[0], " ")
  {
    var m := Merged(prefix);
    MergedLinesNonEmpty(prefix);
    assert m[0] in m;
    if IsSpace(line[0]) {
      MergedSnocContinuation(prefix, line);
      ExtendLastKeepsFirst(m, Strip(line));
    } else {
      MergedSnocHead(prefix, line);
      assert (m + [Strip(line)])[0] == m[0];
    }
  }

  /** Extending the last of some non-empty lines leaves the first line's first character alone. */
  lemma ExtendLastKeepsFirst(m: seq<string>, x: string)
    requires m != [] && m[0] != ""
    ensures var e := m[..|m| - 1] + [m[|m| - 1] + " " + x];
            e != [] && (StartsWith(e[0], " ") <==> StartsWith(m[0], " "))
  {
    var e := m[..|m| - 1] + [m[|m| - 1] + " " + x];
    if |m| == 1 {
      assert e[0] == m[0] + (" " + x);
      ExtendKeepsSpacePrefix(m[0], " " + x);
    } else {
      assert e[0] == m[0];
    }
  }

  /** A trimmed line with no surrounding whitespace. */
  predicate IsTrimmed(s: string) {
    s != [] && !IsSpace(s[0]) && !IsSpace(s[|s| - 1])
  }

  /** Two records that fit their lines stay two logical lines, unchanged. */
  lemma MergedTwoRecords(first: string, second: string)
    requires IsTrimmed(first) && IsTrimmed(second)
    ensures Merged([first, second]) == [first, second]
  {
    StripTrimmed(first);
    StripTrimmed(second);
    MergedSnocHead([], first);
    assert [] + [first] == [first];
    MergedSnocHead([first], second);
    assert [first] + [second] == [first, second];
  }

  /**
   * Two records, the first wrapped once: the indented piece is glued onto
   * the first record with a single space.
   */
  lemma MergeWrappedRecord(first: string, pad: string, rest: string, second: string)
    requires IsTrimmed(first) && IsTrimmed(rest) && IsTrimmed(second)
    requires pad != [] && IsBlank(pad)
    ensures Merged([first, pad + rest, second]) == [first + " " + rest, second]
  {
    var c := pad + rest;
    assert c[|pad|] == rest[0];
    assert c[|c| - 1] == rest[|rest| - 1];
    assert IsHead(first) && IsHead(second) && IsContinuation(c);
    StripTrimmed(first);
    StripTrimmed(second);
    StripFrom(c, |pad|);
    assert c[|pad|..] == rest;
    MergedSnocHead([], first);
    assert [] + [first] == [first];
    MergedSnocContinuation([first], c);
    assert [first] + [c] == [first, c];
    assert [first][..0] == [];
    MergedSnocHead([first, c], second);
    assert [first, c] + [second] == [first, c, second];
  }

  /** The wrapped second line of a record is joined onto the first. */
  lemma MergeExample()
    ensures Merged(["Device-A", "  continued", "Device-B"]) == ["Device-A continued", "Device-B"]
  {
    var wrapped := "  " + "continued";
    assert forall i | 0 <= i < 11 :: wrapped[i] == "  continued"[i];
    assert wrapped == "  continued";
    var joined := "Device-A" + " " + "continued";
    assert forall i | 0 <= i < 18 :: joined[i] == "Device-A continued"[i];
    assert joined == "Device-A continued";
    MergeWrappedRecord("Device-A", "  ", "continued", "Device-B");
  }
}
