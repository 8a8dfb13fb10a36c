/**
 * `CodeAnalyzer` itself: a fresh instance registers its checks, and
 * `perform_checks` runs every registered check on every line and keeps the
 * codes reported.
 */
module Analyzer {
  import opened Rules
  import opened Checks
  import opened Members
  import opened Reports

  class CodeAnalyzer {
    const pathToFile: string
    var errors: seq<string>
    var checks: seq<Check>

    /** Every stored error is one of the two codes the implemented checks report. */
    predicate OnlyImplementedCodes()
      reads this
    {
      forall e :: e in errors ==> e == "S001" || e == "S002"
    }

    /** `CodeAnalyzer(path_to_file)`: no errors yet, and the registry built. */
    constructor (pathToFile: string)
      ensures this.pathToFile == pathToFile
      ensures errors == [] && checks == AllChecks
      ensures OnlyImplementedCodes()
    {
      this.pathToFile := pathToFile;
      errors := [];
      checks := [];
      new;
      assert WellFormedMembers(ClassMembers) by { RegistryOfClass(); }
      PrepareChecks(ClassMembers);
      assert Registry(ClassMembers) == AllChecks by { RegistryOfClass(); }
    }

    /** `__prepare_checks`, over the members `self.__dir__()` lists. */
    method PrepareChecks(members: seq<Member>)
      requires WellFormedMembers(members)
      modifies this`checks
      ensures checks == old(checks) + Registry(members)
    {
      for i := 0 to |members|
        invariant WellFormedMembers(members[..i])
        invariant checks == old(checks) + Registry(members[..i])
      {
        assert members[..i + 1][..i] == members[..i];
        var m := members[i];
        if Mangled(CheckMethodPrefix) <= m.name && m.Routine? {
          checks := checks + [m.check.value];
        }
      }
      assert members[..|members|] == members;
    }

    /**
     * `perform_checks`, given the file's lines as `readlines` returns them
     * (each with its newline).  The codes are appended to what is already
     * stored: a second call adds its codes again.
     */
    method PerformChecks(lines: seq<string>)
      modifies this`errors
      ensures errors == old(errors) + ErrorsFor(lines, checks)
      ensures old(OnlyImplementedCodes()) ==> OnlyImplementedCodes()
    {
      ghost var before := errors;
      for ln := 0 to |lines|
        invariant errors == before + ErrorsFor(lines[..ln], checks)
      {
        var l := lines[ln];
        ghost var done := errors;
        for k := 0 to |checks|
          invariant errors == done + LineErrors(l, checks[..k])
        {
          var m := checks[k];
          var checkResult := RunCheck(m, l);
          ghost var previous := errors;
          if Truthy(checkResult) {
            errors := errors + [checkResult.value];
          }
          CheckStep(done, previous, errors, l, checks, k, checkResult);
        }
        assert checks[..|checks|] == checks;
        LineStep(before, done, errors, lines, checks, ln);
      }
      assert lines[..|lines|] == lines;
      ErrorsForCodes(lines, checks);
    }

    /** `get_errors`. */
    function GetErrors(): (r: seq<string>)
      reads this
      ensures r == errors
    {
      errors
    }
  }

  /**
   * An example client in the manner of `main`: a fresh analyzer over a fixed
   * three-line file, whose stored errors are then read back.
   */
  method AnalyzeExample() returns (errors: seq<string>)
    ensures errors == ["S002"]
  {
    var analyzer := new CodeAnalyzer("tmp_test.py");
    var lines := ["import os\n", "   x = 1\n", "    y = 2\n"];
    analyzer.PerformChecks(lines);
    ExampleFileErrors(lines);
    errors := analyzer.GetErrors();
  }

  /**
   * One analyzer, `perform_checks` called once per entry of `files`: however
   * many calls, every stored error is S001 or S002.
   */
  method AnalyzeRepeatedly(files: seq<seq<string>>) returns (errors: seq<string>)
    ensures forall e :: e in errors ==> e == "S001" || e == "S002"
  {
    var analyzer := new CodeAnalyzer("tmp_test.py");
    for i := 0 to |files|
      invariant analyzer.OnlyImplementedCodes()
    {
      analyzer.PerformChecks(files[i]);
    }
    errors := analyzer.GetErrors();
  }
}
