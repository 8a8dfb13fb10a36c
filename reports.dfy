/**
 * What an analyzer reports with the registry the class actually builds:
 * only the line-length and indentation checks are implemented, so a line
 * yields S001, S002, both or nothing.
 */
module Reports {
  import opened Wrappers
  import opened Rules
  import opened Checks

  /** The line-length check returns S001 on a long line and '' otherwise. */
  lemma LineLengthOutcome(line: string)
    ensures CheckOutcome(LineLength, line) == Some(if TooLong(line) then "S001" else "")
  {
    ErrorCodeTable();
  }

  /** The indentation check returns S002 on a badly indented line and '' otherwise. */
  lemma IndentationOutcome(line: string)
    ensures CheckOutcome(Indentation, line) == Some(if BadIndentation(line) then "S002" else "")
  {
    ErrorCodeTable();
  }

  /** The line-length check alone. */
  lemma LineLengthErrors(line: string)
    ensures LineErrors(line, [LineLength]) == if TooLong(line) then ["S001"] else []
  {
    LineLengthOutcome(line);
    SingleCheckErrors(line, LineLength);
    Reported(CheckOutcome(LineLength, line), "S001", TooLong(line));
  }

  /** The indentation check alone. */
  lemma IndentationErrors(line: string)
    ensures LineErrors(line, [Indentation]) == if BadIndentation(line) then ["S002"] else []
  {
    IndentationOutcome(line);
    SingleCheckErrors(line, Indentation);
    Reported(CheckOutcome(Indentation, line), "S002", BadIndentation(line));
  }

  /** The class's registry split into its implemented checks and its stubs. */
  lemma SplitRegistryErrors(line: string, implemented: seq<Check>, stubs: seq<Check>)
    requires implemented == [LineLength] + [Indentation]
    requires stubs == [Semicolon, Spaces, Todo, BlankLines]
    ensures LineErrors(line, implemented + stubs)
         == (if TooLong(line) then ["S001"] else []) + (if BadIndentation(line) then ["S002"] else [])
  {
    LineLengthErrors(line);
    IndentationErrors(line);
    LineErrorsAppend(line, [LineLength], [Indentation]);
    StubsCheckNothing(line, implemented, stubs);
  }

  /**
   * With the class's registry a line yields S001 when it is too long, then
   * S002 when its indentation is off, and nothing else.
   */
  lemma ClassLineErrors(line: string)
    ensures LineErrors(line, AllChecks)
         == (if TooLong(line) then ["S001"] else []) + (if BadIndentation(line) then ["S002"] else [])
  {
    var implemented: seq<Check>, stubs: seq<Check> := [LineLength] + [Indentation], [Semicolon, Spaces, Todo, BlankLines];
    assert AllChecks == implemented + stubs;
    SplitRegistryErrors(line, implemented, stubs);
  }

  /** With the class's registry, S001 is reported on a line exactly when it is too long, S002 exactly when it is badly indented. */
  lemma ClassLineCodes(line: string)
    ensures "S001" in LineErrors(line, AllChecks) <==> TooLong(line)
    ensures "S002" in LineErrors(line, AllChecks) <==> BadIndentation(line)
  {
    ClassLineErrors(line);
  }

  /**
   * Over a whole file with the class's registry, S001 is reported exactly
   * when some line is too long and S002 exactly when some line is badly
   * indented.
   */
  lemma FileErrorsOfClass(lines: seq<string>)
    ensures "S001" in ErrorsFor(lines, AllChecks) <==> exists l :: l in lines && TooLong(l)
    ensures "S002" in ErrorsFor(lines, AllChecks) <==> exists l :: l in lines && BadIndentation(l)
  {
    ErrorsForContains(lines, AllChecks, "S001");
    ErrorsForContains(lines, AllChecks, "S002");
    forall l | l in lines
      ensures "S001" in LineErrors(l, AllChecks) <==> TooLong(l)
      ensures "S002" in LineErrors(l, AllChecks) <==> BadIndentation(l)
    {
      ClassLineCodes(l);
    }
  }

  /** The first line of the small file below reports nothing. */
  lemma ExampleFirstLine()
    ensures LineErrors("import os\n", AllChecks) == []
  {
    ClassLineErrors("import os\n");
    assert LeadingSpaces("import os\n") == 0;
  }

  /** Its second line is indented by three spaces: S002. */
  lemma ExampleSecondLine()
    ensures LineErrors("   x = 1\n", AllChecks) == ["S002"]
  {
    ClassLineErrors("   x = 1\n");
    assert LeadingSpaces("   x = 1\n") == 3;
  }

  /** Its third line is indented by four spaces: nothing. */
  lemma ExampleThirdLine()
    ensures LineErrors("    y = 2\n", AllChecks) == []
  {
    ClassLineErrors("    y = 2\n");
    assert LeadingSpaces("    y = 2\n") == 4;
  }

  /** The codes of a small file: only its second line, indented by three spaces, is reported. */
  lemma ExampleFileErrors(lines: seq<string>)
    requires lines == ["import os\n", "   x = 1\n", "    y = 2\n"]
    ensures ErrorsFor(lines, AllChecks) == ["S002"]
  {
    ExampleFirstLine();
    ExampleSecondLine();
    ExampleThirdLine();
    ErrorsForSingle(lines[0], AllChecks);
    ErrorsForSingle(lines[1], AllChecks);
    ErrorsForSingle(lines[2], AllChecks);
    assert lines == [lines[0]] + [lines[1]] + [lines[2]];
    ErrorsForAppend([lines[0]], [lines[1]], AllChecks);
    ErrorsForAppend([lines[0]] + [lines[1]], [lines[2]], AllChecks);
  }
}
