# CodeAnalyzer, modelled in Dafny

`CodeAnalyzer` is a small per-line style checker for Python source files.
It is created for a file path. On creation it builds a list of check
methods. It does this by scanning its own attribute names for the mangled
prefix `_CodeAnalyzer__check_` and keeping the callable ones.
`perform_checks` then runs every registered check on every line of the
file. It stores each non-empty error code the checks return. `get_errors`
returns the stored codes.

Two checks are implemented:

- **S001** flags a line longer than 79 characters.
- **S002** flags a line indented by a number of spaces that is not a multiple
  of four.

The other four checks (S003 to S006) are stubs that return `None`. The
class also has two lexical helpers, which no check calls yet:

- `__is_in_string` says whether a position lies inside a quoted string;
- `__is_in_comment` says whether it lies inside a `#` comment.

The project has one module per part of the class.

- `wrappers.dfy`: `Option`.
- `scanner.dfy`: Python's `str.find` on one character, and `__is_in_string`.
  `__is_in_string` is given twice: as a specification
  (`Collect`/`DoubleStart`/`FoldFrom`/`InString`), and as the source's
  loops (`ScanQuote`, `IsInString`), which are proved equal to that
  specification. The file also holds `__is_in_comment`, with its three
  outcomes.
- `rules.dfy`: the error-code table, the line-length limit, the two
  implemented checks and the four stubs. A check's result is an
  `Option<string>`. `None` stands for Python's `None`, and `Some(code)`
  for a string, possibly `""`. `Truthy` is Python's truth test on that
  result.
- `checks.dfy`: the six check methods as a datatype and their dispatch.
  It defines `LineErrors` and `ErrorsFor`, what `perform_checks` appends
  for one line and for a whole file, and the lemmas about them.
- `members.dfy`: the attribute listing that `__dir__()` returns, and the
  filter of `__prepare_checks` over it. It proves that the registry the
  class builds is exactly its six check methods.
- `reports.dfy`: what an analyzer with that registry reports. It gives
  S001 and S002 per line and per file, and a worked three-line file.
- `analyzer.dfy`: the `CodeAnalyzer` class. Its fields are `errors` and
  `checks`, and its methods are the constructor, `PrepareChecks`,
  `PerformChecks` and `GetErrors`. Two example clients use it:
  `AnalyzeExample` and `AnalyzeRepeatedly`.

Behaviour pinned down as the code has it:

- The search window of both scanners ends at `pos - 1`, exclusive, so the
  character at `pos - 1` is never looked at. A `pos <= 0` window is the
  whole line, and `pos == 1` is never inside a string.
- The variable `start` is not reset between the single-quote pass and the
  double-quote pass of `__is_in_string`. Double quotes are therefore
  counted only after the last single quote of the window.
- `result` holds all single quotes first, then all double quotes. The fold
  closes only on a quote of the same type. So the answer is "the number of
  single quotes is odd, or the number of double quotes is odd"
  (`InStringParity`).
- A quote preceded by a backslash is skipped, but the scan still moves past
  it. For a quote at index 0, "preceding" is the last character of the
  line, by Python's negative indexing.
- A line terminator that `readlines` keeps counts toward the line length.
  A line ending in a newline is therefore flagged from 79 visible
  characters. The last line of a file without a final newline has no
  terminator, so it is flagged only from 80.
- Errors are bare codes, in line order and then check order. They carry no
  line numbers and are not sorted. A second `perform_checks` appends again.

## Model

| member | source | states |
|---|---|---|
| Scanner.Find | code_analyzer.py:104 | `str.find` of one character in `[start, min(end, len))`: -1 exactly when the window holds no such character, otherwise the first index in the window that holds it |
| Scanner.Collect | code_analyzer.py:129-138 | the quotes collected by one pass are all of the searched kind, and there are no more of them than the line has characters |
| Scanner.LastQuote | code_analyzer.py:131-133 | -1 when the window has no such quote, otherwise the index of the last one, the place the pass leaves `start` just after |
| Scanner.DoubleStart | code_analyzer.py:126-133 | the double-quote pass starts at 0 exactly when the window has no single quote, otherwise just after the last single quote; no single quote lies between that start and the window end |
| Scanner.ScanQuote | code_analyzer.py:130-138 | the `while True` loop of one pass collects exactly the unescaped quotes of the window, in order, and leaves `start` just past the last quote, escaped or not |
| Scanner.IsInString | code_analyzer.py:115-151 | the two passes with their shared `start`, then the fold over `result`, return exactly `InString(line, pos)` |
| Scanner.FoldAppend | code_analyzer.py:143-147 | folding `opened` over a concatenation is folding over the second part from where the first part left it |
| Scanner.FoldUniform | code_analyzer.py:143-147 | over quotes of a single kind, the fold from nothing ends open exactly when their number is odd |
| Scanner.FoldKeepsOpen | code_analyzer.py:144-147 | a quote that is open stays open over any run of quotes of the other kind |
| Scanner.InStringParity | code_analyzer.py:126-150 | a position is in a string exactly when the collected single quotes are odd in number or the collected double quotes are |
| Scanner.InStringWindow | code_analyzer.py:131 | two lines whose first `pos - 1` characters and whose last character agree give the same answer: nothing from `pos - 1` on matters, apart from the wrap-around character |
| Scanner.CollectAgree | code_analyzer.py:131-134 | a pass over a window depends only on the characters inside that window and on the last character of the line |
| Scanner.InStringAtOne | code_analyzer.py:131 | `pos == 1` gives an empty window, so it is never in a string |
| Scanner.CollectClamp | code_analyzer.py:131 | a window end past the line is the same as the line's length |
| Scanner.InStringWholeLine | code_analyzer.py:131 | `pos <= 0`, and any `pos` past the end of the line, search the whole line |
| Scanner.CollectReplaceOther | code_analyzer.py:131-136 | replacing a character that is neither the searched quote nor a backslash, by another such character, changes nothing in a pass |
| Scanner.CollectReplaceQuote | code_analyzer.py:133-136 | removing one quote from the window removes one collected quote when it was not preceded by a backslash, and none when it was |
| Scanner.DoubleQuoteCounted | code_analyzer.py:126-136 | a double quote after the last single quote is counted: removing an escaped one never changes the answer, and removing an unescaped one flips it unless an odd number of single quotes already decides it |
| Scanner.DoublesBeforeLastSingleIgnored | code_analyzer.py:126-133 | a double quote before the last single quote of the window never affects the answer, because the shared `start` has already passed it |
| Scanner.NoQuoteNotInString | code_analyzer.py:140-151 | a window with no quote of either kind is never in a string |
| Scanner.WrapAroundExample | code_analyzer.py:134 | `'abc` is in a string at 0, but `'abc\` is not, because its leading quote counts as preceded by the trailing backslash |
| Scanner.WindowExample | code_analyzer.py:131 | in `x = 'ab` position 6 is in a string, and position 5 is not, because its window stops before the quote |
| Scanner.SharedStartExample | code_analyzer.py:126-133 | `"a` is in a string, but `"a''` is not: the single quotes move `start` past the double quote, which is then never counted |
| Scanner.CommentOutcomeOf | code_analyzer.py:100-113 | the three outcomes of `__is_in_comment`. No `#` in the window gives False. A first `#` outside a string gives True. A first `#` inside a string gives a loop with no end. Each outcome comes with its exact condition in both directions |
| Scanner.IsInComment | code_analyzer.py:92-113 | the loop as written (`start = fp`) ends in exactly the outcome `CommentOutcomeOf` gives; it stops with `Diverges` where the source would repeat the same iteration forever |
| Scanner.CommentScanDiverges | code_analyzer.py:107 | on `'a#` at 0 the first `#` is in a string, so the loop as written does not end, although every `#` of the line is in a string |
| Scanner.IsInCommentFixed | code_analyzer.py:103-113 | with `start = fp + 1`, the answer is True exactly when some `#` of the window lies outside a string |
| Scanner.CommentExample | code_analyzer.py:100-113 | `x = 1  # note` at 0 is in a comment |
| Rules.CheckLineLength | code_analyzer.py:37-52 | always a string. It is non-empty exactly when the line is longer than 79, and it is then the method's code. It is looked up only then, so an unknown name fails only on a long line |
| Rules.NewlineCounts | code_analyzer.py:30-50 | a line as `readlines` gives it, with its newline, is flagged exactly when its text without the newline has 79 characters or more |
| Rules.LeadingSpaces | code_analyzer.py:65-72 | the count of the loop is the length of the run of spaces that opens the line |
| Rules.CheckIndentation | code_analyzer.py:54-77 | the counting loop gives the method's code exactly when the line is non-empty, starts with a space, and its leading spaces are not a multiple of four; otherwise `""` |
| Rules.IndentationByFours | code_analyzer.py:67-75 | an indent of 4k spaces is never flagged, and one of 4k + 1 always is |
| Rules.CheckSemicolon | code_analyzer.py:79-81 | the stub returns `None` |
| Rules.CheckSpaces | code_analyzer.py:83-84 | the stub returns `None` |
| Rules.CheckTodo | code_analyzer.py:86-87 | the stub returns `None` |
| Rules.CheckBlankLines | code_analyzer.py:89-90 | the stub returns `None` |
| Checks.MethodName | code_analyzer.py:12-19 | the `__name__` passed to every check is a key of the error-code table, so no lookup can fail |
| Checks.RunCheck | code_analyzer.py:31-32 | calling a registered check on a line gives that check's outcome |
| Checks.ErrorsForAppend | code_analyzer.py:30-35 | the errors of two stretches of lines are those of the first followed by those of the second |
| Checks.LineErrorsAppend | code_analyzer.py:31-35 | running two lists of checks on a line reports the first list's codes, then the second's |
| Checks.SingleCheckErrors | code_analyzer.py:32-35 | one check on one line appends its result exactly when the result is truthy |
| Checks.LineErrorsCodes | code_analyzer.py:12-35 | every code a line reports is S001 or S002, whatever the list of checks, because only the two implemented checks return a non-empty result |
| Checks.ErrorsForCodes | code_analyzer.py:12-35 | every code a file reports is S001 or S002, whatever the list of checks |
| Checks.Implemented | code_analyzer.py:37-77 | the checks of a list that are not stubs, in order, are line-length and indentation checks only |
| Checks.StubsReportNothing | code_analyzer.py:79-90 | a line reports exactly what the non-stub checks of the list report |
| Checks.StubsCheckNothing | code_analyzer.py:79-90 | appending stub checks to a list changes nothing it reports |
| Checks.ErrorsForContains | code_analyzer.py:30-35 | a code is among the errors of a file exactly when some line of the file reports it |
| Checks.ErrorsForSingle | code_analyzer.py:30-35 | a one-line file reports what its line reports |
| Members.Registry | code_analyzer.py:153-159 | the registry has no more entries than there are members |
| Members.RegistryAppend | code_analyzer.py:154-159 | the registry of two stretches of the listing is the first's followed by the second's |
| Members.RegistryNone | code_analyzer.py:155-158 | a listing with no callable member carrying the prefix registers nothing |
| Members.RegistryExactly | code_analyzer.py:155-159 | a check is registered exactly when some member of the listing is callable, carries the prefix, and is that check |
| Members.RegistryAllRegistered | code_analyzer.py:154-159 | a listing of callable prefixed members registers each of them, in order |
| Members.InstanceMembersUnregistered | code_analyzer.py:3-25 | none of the instance attributes is registered: the data attributes are not callable, and `_CodeAnalyzer__check_method_prefix` is excluded although it carries the prefix |
| Members.LeadingMembersUnregistered | code_analyzer.py:2-35 | `__module__`, `__init__` and `perform_checks` are not registered |
| Members.TrailingMembersUnregistered | code_analyzer.py:92-162 | the scanners, `__prepare_checks`, `get_errors` and the class attributes are not registered |
| Members.CheckMembersCallable | code_analyzer.py:37-90 | each of the six check methods is callable and carries the prefix |
| Members.CheckMembersRegistered | code_analyzer.py:37-90 | the six check methods register as the six checks in definition order |
| Members.RegistryOfClass | code_analyzer.py:153-159 | the registry the class builds from its own listing is exactly its six check methods, in definition order |
| Reports.LineLengthOutcome | code_analyzer.py:48-52 | the line-length check gives `"S001"` on a line longer than 79, and `""` otherwise |
| Reports.IndentationOutcome | code_analyzer.py:64-77 | the indentation check gives `"S002"` on a badly indented line, and `""` otherwise |
| Reports.LineLengthErrors | code_analyzer.py:32-52 | the line-length check appends `S001` for a line longer than 79, and nothing otherwise |
| Reports.IndentationErrors | code_analyzer.py:32-77 | the indentation check appends `S002` for a badly indented line, and nothing otherwise |
| Reports.SplitRegistryErrors | code_analyzer.py:79-90 | the six checks report on a line what the two implemented ones report |
| Reports.ClassLineErrors | code_analyzer.py:31-35 | with the class's registry a line reports `S001` if it is too long, then `S002` if it is badly indented, and nothing else |
| Reports.ClassLineCodes | code_analyzer.py:31-35 | a line reports `S001` exactly when it is too long, and `S002` exactly when it is badly indented |
| Reports.FileErrorsOfClass | code_analyzer.py:30-35 | a file reports `S001` exactly when some line is too long, and `S002` exactly when some line is badly indented |
| Reports.ExampleFileErrors | code_analyzer.py:30-35 | the file `import os`, `   x = 1`, `    y = 2` reports `["S002"]` alone, for the three-space line |
| Analyzer.CodeAnalyzer.constructor | code_analyzer.py:2-26 | a fresh analyzer keeps its path, has no errors, and has registered the six checks in definition order |
| Analyzer.CodeAnalyzer.PrepareChecks | code_analyzer.py:153-159 | the loop appends to `checks` exactly the registry of the listing it is given |
| Analyzer.CodeAnalyzer.PerformChecks | code_analyzer.py:28-35 | the nested loops append to `errors` every truthy result, line by line, and within a line check by check, after what was stored before; if every stored error was S001 or S002 before the call, that still holds after it |
| Analyzer.CodeAnalyzer.GetErrors | code_analyzer.py:161-162 | returns the stored errors |
| Analyzer.AnalyzeExample | code_analyzer.py:165-168 | an example client in the manner of `main`, with the file's lines given: a fresh analyzer over `import os`, `   x = 1`, `    y = 2` stores `["S002"]` |
| Analyzer.AnalyzeRepeatedly | code_analyzer.py:28-35 | one fresh analyzer, `perform_checks` called any number of times on any files: every stored error is S001 or S002 |

## Left out

- Opening the file and `readlines` (code_analyzer.py:29-30) are I/O. `PerformChecks` takes the lines as a parameter, each with the terminator `readlines` keeps, if the file has one there. The line number from `enumerate` is not used by the code and is not modelled.
- `main` reads the file `tmp_test.py` and prints (code_analyzer.py:165-172), which is I/O. `Analyzer.AnalyzeExample` is an example client in its manner, with the file's lines given and the errors returned instead of printed.
- `__error_messages` (code_analyzer.py:4-11) is never read, so it is not modelled.
- `__dir__()` (code_analyzer.py:154) is reflection, and its order depends on the interpreter. The listing is the fixed sequence `Members.ClassMembers`: the instance attributes, then the class's own members in definition order. The attributes inherited from `object` are omitted, because none of them carries the prefix.
- `getattr` and `callable` (code_analyzer.py:157-158) are not modelled as such. A listing entry says whether it is a routine and which check it stands for.
- Rules.CheckLineLength, Rules.CheckIndentation: the `KeyError` of a missing method name is not modelled as an outcome. It is a precondition instead. The precondition is needed only when the line violates the rule, because that is the only case where the lookup happens. Every name the dispatch passes satisfies it (`Checks.MethodName`).
- Scanner.IsInComment: a run that does not end is reported as the outcome `Diverges` and not as a loop without end. The source repeats the same iteration with the same `start` forever, and the model stops at the first such repetition.
- Analyzer.CodeAnalyzer.GetErrors: it returns the value of `errors`. In Python it returns the live list, so a caller's later change to that list would change the analyzer too. That aliasing is not modelled.
- Members.Registry: its own contract gives only a size bound. What it contains is stated by `Members.RegistryExactly` and `Members.RegistryAllRegistered`.
- The scanners use no state of the instance, so they are functions and methods of a module and not of the class.
- The semicolon, spacing, TODO and blank-line rules exist only as stubs (code_analyzer.py:79-90). They are modelled as such, and no behaviour is invented for them.

## Findings

| source | as written | input that shows it | evidently intended | confidence | as-written member | corrected member |
|---|---|---|---|---|---|---|
| code_analyzer.py:107 | `start = fp` after a `#` found inside a string, so the next search finds the same `#` and the loop never ends | `__is_in_comment("'a#", 0)`: the `#` at index 2 is inside the string opened at index 0 | `start = fp + 1`, so the search moves on to the next `#` and answers whether any `#` of the window is outside a string | not executed | Scanner.IsInComment, with Scanner.CommentScanDiverges | Scanner.IsInCommentFixed |
