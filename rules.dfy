/**
 * The per-line checks of `CodeAnalyzer`.  Each takes the line and the
 * check's own method name, which is its key in the error-code table.  The
 * two implemented checks return a string (a code, or '' for no finding);
 * the four stubs return None.
 */
module Rules {
  import opened Wrappers

  /** `self.__line_length_limit`. */
  const LineLengthLimit := 79

  /** `self.__error_codes`: method name to diagnostic code. */
  const ErrorCodes: map<string, string> := map[
    "__check_line_length" := "S001",
    "__check_indentation" := "S002",
    "__check_semicolon" := "S003",
    "__check_spaces" := "S004",
    "__check_todo" := "S005",
    "__check_blank_lines" := "S006"
  ]

  /** The table's entries, looked up once. */
  lemma ErrorCodeTable()
    ensures ErrorCodes["__check_line_length"] == "S001"
    ensures ErrorCodes["__check_indentation"] == "S002"
    ensures ErrorCodes["__check_semicolon"] == "S003"
    ensures ErrorCodes["__check_spaces"] == "S004"
    ensures ErrorCodes["__check_todo"] == "S005"
    ensures ErrorCodes["__check_blank_lines"] == "S006"
  {
  }

  /** Python truthiness of a check's result: a non-empty string. */
  predicate Truthy(r: Option<string>)
  {
    r.Some? && r.value != ""
  }

  /** A line that `__check_line_length` flags: longer than the limit. */
  predicate TooLong(line: string)
  {
    |line| > LineLengthLimit
  }

  /**
   * `__check_line_length`: the code when the line, with whatever line
   * terminator it still carries, is longer than the limit.  The table is
   * consulted only then, so only then must the name be a key.
   */
  function CheckLineLength(line: string, methodName: string): (r: Option<string>)
    requires TooLong(line) ==> methodName in ErrorCodes
    ensures r.Some?
    ensures Truthy(r) ==> TooLong(line) && r.value == ErrorCodes[methodName]
    ensures methodName in ErrorCodes ==> (Truthy(r) <==> TooLong(line))
  {
    Some(if |line| > LineLengthLimit then ErrorCodes[methodName] else "")
  }

  /** The number of spaces the line starts with. */
  function LeadingSpaces(line: string): (n: nat)
    ensures n <= |line|
    ensures forall i :: 0 <= i < n ==> line[i] == ' '
    ensures n < |line| ==> line[n] != ' '
  {
    if line == [] || line[0] != ' ' then 0 else 1 + LeadingSpaces(line[1..])
  }

  /** The line starts with a space and its run of leading spaces is not a multiple of four. */
  predicate BadIndentation(line: string)
  {
    |line| > 0 && line[0] == ' ' && LeadingSpaces(line) % 4 != 0
  }

  /** What `__check_indentation` returns. */
  function IndentationResult(line: string, methodName: string): Option<string>
    requires BadIndentation(line) ==> methodName in ErrorCodes
  {
    Some(if BadIndentation(line) then ErrorCodes[methodName] else "")
  }

  /** `__check_indentation`: counts the leading spaces of a line that starts with one. */
  method CheckIndentation(line: string, methodName: string) returns (res: Option<string>)
    requires BadIndentation(line) ==> methodName in ErrorCodes
    ensures res == IndentationResult(line, methodName)
    ensures Truthy(res) ==> BadIndentation(line) && res.value == ErrorCodes[methodName]
    ensures methodName in ErrorCodes ==> (Truthy(res) <==> BadIndentation(line))
  {
    res := Some("");
    var spacesCounter := 0;
    if |line| > 0 && line[0] == ' ' {
      var i := 0;
      while i < |line|
        invariant 0 <= i <= |line|
        invariant spacesCounter == i
        invariant forall k :: 0 <= k < i ==> line[k] == ' '
      {
        if line[i] == ' ' {
          spacesCounter := spacesCounter + 1;
        } else {
          break;
        }
        i := i + 1;
      }
      assert spacesCounter == LeadingSpaces(line);
      if spacesCounter % 4 != 0 {
        res := Some(ErrorCodes[methodName]);
      }
    }
  }

  /** `__check_semicolon`: an unimplemented stub. */
  function CheckSemicolon(line: string, methodName: string): (r: Option<string>)
    ensures r == None
  {
    None
  }

  /** `__check_spaces`: an unimplemented stub. */
  function CheckSpaces(line: string, methodName: string): (r: Option<string>)
    ensures r == None
  {
    None
  }

  /** `__check_todo`: an unimplemented stub. */
  function CheckTodo(line: string, methodName: string): (r: Option<string>)
    ensures r == None
  {
    None
  }

  /** `__check_blank_lines`: an unimplemented stub. */
  function CheckBlankLines(line: string, methodName: string): (r: Option<string>)
    ensures r == None
  {
    None
  }

  /**
   * Lines keep their newline, so a line of exactly 79 visible characters
   * plus its terminator is already too long.
   */
  lemma NewlineCounts(text: string)
    ensures Truthy(CheckLineLength(text + "\n", "__check_line_length")) <==> |text| >= LineLengthLimit
  {
  }

  /**
   * An indentation made of whole groups of four spaces, followed by anything
   * that is not a space, is never flagged; one extra space always is.
   */
  lemma {:induction false} IndentationByFours(k: nat, rest: string)
    requires rest == [] || rest[0] != ' '
    ensures LeadingSpaces(SpaceRun(4 * k) + rest) == 4 * k
    ensures !BadIndentation(SpaceRun(4 * k) + rest)
    ensures BadIndentation(SpaceRun(4 * k + 1) + rest)
  {
    LeadingSpacesOf(4 * k, rest);
    LeadingSpacesOf(4 * k + 1, rest);
  }

  /** `n` spaces. */
  function SpaceRun(n: nat): (s: string)
    ensures |s| == n && forall i :: 0 <= i < n ==> s[i] == ' '
  {
    seq(n, _ => ' ')
  }

  /** `n` spaces followed by something that is not a space start with exactly `n` spaces. */
  lemma {:induction false} LeadingSpacesOf(n: nat, rest: string)
    requires rest == [] || rest[0] != ' '
    ensures LeadingSpaces(SpaceRun(n) + rest) == n
  {
    var line := SpaceRun(n) + rest;
    assert forall i :: 0 <= i < n ==> line[i] == ' ';
    assert n < |line| ==> line[n] != ' ';
  }
}
