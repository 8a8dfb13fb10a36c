/**
 * The six checks and the dispatch of `perform_checks`: each registered
 * check is called on each line, and the codes it reports are kept in
 * line order, then check order.
 */
module Checks {
  import opened Wrappers
  import opened Rules

  /** The six check methods of the class. */
  datatype Check = LineLength | Indentation | Semicolon | Spaces | Todo | BlankLines

  /** A check method's `__name__`, which is also its key in `ErrorCodes`. */
  function MethodName(c: Check): (name: string)
    ensures name in ErrorCodes
  {
    match c
    case LineLength => "__check_line_length"
    case Indentation => "__check_indentation"
    case Semicolon => "__check_semicolon"
    case Spaces => "__check_spaces"
    case Todo => "__check_todo"
    case BlankLines => "__check_blank_lines"
  }

  /** The six checks in definition order. */
  const AllChecks: seq<Check> := [LineLength, Indentation, Semicolon, Spaces, Todo, BlankLines]

  /** What a check returns on a line: `m(l, m.__name__)`. */
  function CheckOutcome(c: Check, line: string): Option<string>
  {
    match c
    case LineLength => CheckLineLength(line, MethodName(c))
    case Indentation => IndentationResult(line, MethodName(c))
    case Semicolon => CheckSemicolon(line, MethodName(c))
    case Spaces => CheckSpaces(line, MethodName(c))
    case Todo => CheckTodo(line, MethodName(c))
    case BlankLines => CheckBlankLines(line, MethodName(c))
  }

  /** One call `m(l, m.__name__)` of the dispatch loop. */
  method RunCheck(c: Check, line: string) returns (r: Option<string>)
    ensures r == CheckOutcome(c, line)
  {
    match c
    case LineLength => r := CheckLineLength(line, MethodName(c));
    case Indentation => r := CheckIndentation(line, MethodName(c));
    case Semicolon => r := CheckSemicolon(line, MethodName(c));
    case Spaces => r := CheckSpaces(line, MethodName(c));
    case Todo => r := CheckTodo(line, MethodName(c));
    case BlankLines => r := CheckBlankLines(line, MethodName(c));
  }

  /** The codes the checks `checks` report on one line, in check order. */
  function LineErrors(line: string, checks: seq<Check>): seq<string>
  {
    if checks == [] then []
    else
      var o := CheckOutcome(checks[|checks| - 1], line);
      LineErrors(line, checks[..|checks| - 1]) + (if Truthy(o) then [o.value] else [])
  }

  /** The codes reported on all of `lines`, line by line. */
  function ErrorsFor(lines: seq<string>, checks: seq<Check>): seq<string>
  {
    if lines == [] then []
    else ErrorsFor(lines[..|lines| - 1], checks) + LineErrors(lines[|lines| - 1], checks)
  }

  /** Running one more check on a line adds its code, if it reports one. */
  lemma LineErrorsStep(line: string, checks: seq<Check>, k: nat)
    requires k < |checks|
    ensures LineErrors(line, checks[..k + 1])
         == LineErrors(line, checks[..k]) + (var o := CheckOutcome(checks[k], line); if Truthy(o) then [o.value] else [])
  {
    assert checks[..k + 1][..k] == checks[..k];
  }

  /** Checking one more line adds that line's codes. */
  lemma ErrorsForStep(lines: seq<string>, checks: seq<Check>, n: nat)
    requires n < |lines|
    ensures ErrorsFor(lines[..n + 1], checks) == ErrorsFor(lines[..n], checks) + LineErrors(lines[n], checks)
  {
    assert lines[..n + 1][..n] == lines[..n];
  }

  /** One pass of the inner dispatch loop keeps its invariant. */
  lemma CheckStep(done: seq<string>, previous: seq<string>, errors: seq<string>, line: string,
                  checks: seq<Check>, k: nat, r: Option<string>)
    requires k < |checks|
    requires previous == done + LineErrors(line, checks[..k])
    requires r == CheckOutcome(checks[k], line)
    requires errors == if Truthy(r) then previous + [r.value] else previous
    ensures errors == done + LineErrors(line, checks[..k + 1])
  {
    LineErrorsStep(line, checks, k);
  }

  /** One pass of the outer dispatch loop keeps its invariant. */
  lemma LineStep(before: seq<string>, done: seq<string>, errors: seq<string>, lines: seq<string>,
                 checks: seq<Check>, n: nat)
    requires n < |lines|
    requires done == before + ErrorsFor(lines[..n], checks)
    requires errors == done + LineErrors(lines[n], checks)
    ensures errors == before + ErrorsFor(lines[..n + 1], checks)
  {
    ErrorsForStep(lines, checks, n);
    AppendAssociative(before, ErrorsFor(lines[..n], checks), LineErrors(lines[n], checks));
  }

  /** Concatenation is associative. */
  lemma AppendAssociative<T>(a: seq<T>, b: seq<T>, c: seq<T>)
    ensures (a + b) + c == a + (b + c)
  {
  }

  // ---------------------------------------------------------------------
  // Properties of the dispatch

  /** One more line at the end of a file adds that line's codes at the end. */
  lemma ErrorsForSnoc(lines: seq<string>, line: string, checks: seq<Check>)
    ensures ErrorsFor(lines + [line], checks) == ErrorsFor(lines, checks) + LineErrors(line, checks)
  {
    assert (lines + [line])[..|lines|] == lines;
  }

  /** The codes of a file are those of its first part followed by those of the rest. */
  lemma {:induction false} ErrorsForAppend(a: seq<string>, b: seq<string>, checks: seq<Check>)
    ensures ErrorsFor(a + b, checks) == ErrorsFor(a, checks) + ErrorsFor(b, checks)
    decreases |b|
  {
    if b == [] {
      assert a + b == a;
    } else {
      var front, last := b[..|b| - 1], b[|b| - 1];
      ErrorsForAppend(a, front, checks);
      assert ErrorsFor(a + b, checks) == ErrorsFor(a + front, checks) + LineErrors(last, checks) by {
        assert a + b == (a + front) + [last];
        ErrorsForSnoc(a + front, last, checks);
      }
      assert ErrorsFor(b, checks) == ErrorsFor(front, checks) + LineErrors(last, checks) by {
        assert b == front + [last];
        ErrorsForSnoc(front, last, checks);
      }
      AppendAssociative(ErrorsFor(a, checks), ErrorsFor(front, checks), LineErrors(last, checks));
    }
  }

  /** Only the two implemented checks ever report, so every code of a line is S001 or S002. */
  lemma {:induction false} LineErrorsCodes(line: string, checks: seq<Check>)
    ensures forall k :: 0 <= k < |LineErrors(line, checks)| ==>
              LineErrors(line, checks)[k] == "S001" || LineErrors(line, checks)[k] == "S002"
  {
    if checks != [] {
      LineErrorsCodes(line, checks[..|checks| - 1]);
    }
  }

  /** Hence every code stored for a file is S001 or S002. */
  lemma {:induction false} ErrorsForCodes(lines: seq<string>, checks: seq<Check>)
    ensures forall k :: 0 <= k < |ErrorsFor(lines, checks)| ==>
              ErrorsFor(lines, checks)[k] == "S001" || ErrorsFor(lines, checks)[k] == "S002"
  {
    if lines != [] {
      ErrorsForCodes(lines[..|lines| - 1], checks);
      LineErrorsCodes(lines[|lines| - 1], checks);
    }
  }

  /** The checks that are implemented: the stubs are dropped. */
  function Implemented(checks: seq<Check>): (r: seq<Check>)
    ensures forall k :: 0 <= k < |r| ==> r[k] == LineLength || r[k] == Indentation
  {
    if checks == [] then []
    else
      var c := checks[|checks| - 1];
      Implemented(checks[..|checks| - 1]) + (if c == LineLength || c == Indentation then [c] else [])
  }

  /** The four stub checks contribute nothing on any line. */
  lemma {:induction false} StubsReportNothing(line: string, checks: seq<Check>)
    ensures LineErrors(line, checks) == LineErrors(line, Implemented(checks))
  {
    if checks != [] {
      var c := checks[|checks| - 1];
      var front := checks[..|checks| - 1];
      StubsReportNothing(line, front);
      var impl := Implemented(front);
      if c == LineLength || c == Indentation {
        assert Implemented(checks) == impl + [c];
        assert (impl + [c])[..|impl|] == impl;
        assert (impl + [c])[|impl|] == c;
      } else {
        assert CheckOutcome(c, line) == None;
        assert Implemented(checks) == impl;
      }
    }
  }

  /** A line's codes under `a + b` are its codes under `a`, then under `b`. */
  lemma {:induction false} LineErrorsAppend(line: string, a: seq<Check>, b: seq<Check>)
    ensures LineErrors(line, a + b) == LineErrors(line, a) + LineErrors(line, b)
    decreases |b|
  {
    if b == [] {
      assert a + b == a;
    } else {
      var front, last := b[..|b| - 1], b[|b| - 1];
      assert b == front + [last];
      assert a + b == (a + front) + [last];
      LineErrorsAppend(line, a, front);
    }
  }

  /** A check that returns its code under a condition, and '' otherwise, reports exactly under that condition. */
  lemma Reported(o: Option<string>, code: string, cond: bool)
    requires code != ""
    requires o == Some(if cond then code else "")
    ensures (if Truthy(o) then [o.value] else []) == if cond then [code] else []
  {
  }

  /** A single check reports on a line what it returns there, when that is truthy. */
  lemma SingleCheckErrors(line: string, c: Check)
    ensures LineErrors(line, [c]) == (var o := CheckOutcome(c, line); if Truthy(o) then [o.value] else [])
  {
    assert [c][..0] == [];
  }

  /** Appending stub checks leaves a line's codes as they were. */
  lemma {:induction false} StubsCheckNothing(line: string, checks: seq<Check>, stubs: seq<Check>)
    requires forall k :: 0 <= k < |stubs| ==> stubs[k] != LineLength && stubs[k] != Indentation
    ensures LineErrors(line, checks + stubs) == LineErrors(line, checks)
    decreases |stubs|
  {
    if stubs != [] {
      var front := stubs[..|stubs| - 1];
      var last := stubs[|stubs| - 1];
      assert stubs == front + [last];
      assert checks + stubs == (checks + front) + [last];
      assert CheckOutcome(last, line) == None;
      StubsCheckNothing(line, checks, front);
    } else {
      assert checks + stubs == checks;
    }
  }

  /** A code is reported on a file exactly when it is reported on one of its lines. */
  lemma {:induction false} ErrorsForContains(lines: seq<string>, checks: seq<Check>, code: string)
    ensures code in ErrorsFor(lines, checks) <==> exists l :: l in lines && code in LineErrors(l, checks)
  {
    if lines != [] {
      var front, last := lines[..|lines| - 1], lines[|lines| - 1];
      assert lines == front + [last];
      ErrorsForContains(front, checks, code);
      if code in LineErrors(last, checks) {
        assert last in lines;
      }
      if l :| l in front && code in LineErrors(l, checks) {
        assert l in lines;
      }
      if l :| l in lines && code in LineErrors(l, checks) {
        assert l in front || l == last;
      }
    }
  }

  /** A file of one line reports that line's codes. */
  lemma ErrorsForSingle(line: string, checks: seq<Check>)
    ensures ErrorsFor([line], checks) == LineErrors(line, checks)
  {
    assert [line][..0] == [];
  }
}
