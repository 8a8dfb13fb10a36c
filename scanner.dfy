/**
 * The lexical context scanner of `CodeAnalyzer`: whether a position of a
 * line lies inside a quoted string (`__is_in_string`) or inside a `#`
 * comment (`__is_in_comment`).  Both are written in the source on top of
 * Python's `str.find`, which is modelled first.
 */
module Scanner {
  import opened Wrappers

  const CommentSymbol := '#'
  const SingleQuote := '\''
  const DoubleQuote := '"'
  const Backslash := '\\'

  function Min(a: int, b: int): int { if a <= b then a else b }

  /**
   * Python's `s.find(c, start, end)` for a one-character `c`: the end is
   * clamped to `|s|`, an empty window (`start >= end`) yields -1, and the
   * result is an absolute index into `s`.
   */
  function Find(s: string, c: char, start: nat, end: nat): (r: int)
    ensures r == -1 || (start <= r < Min(end, |s|) && s[r] == c)
    ensures r == -1 ==> forall i :: start <= i < Min(end, |s|) ==> s[i] != c
    ensures r != -1 ==> forall i :: start <= i < r ==> s[i] != c
    decreases |s| - start
  {
    if start >= Min(end, |s|) then -1
    else if s[start] == c then start
    else Find(s, c, start + 1, end)
  }

  /**
   * The exclusive end of both scanners' search window, `pos - 1 if pos > 0
   * else None`; `None` (no bound) is the length of the line.
   */
  function WindowEnd(line: string, pos: int): nat
  {
    if pos > 0 then pos - 1 else |line|
  }

  /**
   * `line[fp - 1] == '\\'`: the character before index `i`, which for
   * `i == 0` is, by Python's negative indexing, the last one of the line.
   */
  predicate PrecededByBackslash(line: string, i: nat)
    requires i < |line|
  {
    line[if i == 0 then |line| - 1 else i - 1] == Backslash
  }

  // ---------------------------------------------------------------------
  // What `__is_in_string` computes

  /**
   * The quotes `q` that one pass of `__is_in_string` collects from the
   * window `[lo, hi)`: every occurrence of `q` there, from left to right,
   * that is not preceded by a backslash.
   */
  function Collect(line: string, q: char, lo: nat, hi: nat): (r: seq<char>)
    ensures forall k :: 0 <= k < |r| ==> r[k] == q
    ensures |r| <= |line| - lo || lo >= |line|
    decreases |line| - lo
  {
    if lo >= Min(hi, |line|) then []
    else (if line[lo] == q && !PrecededByBackslash(line, lo) then [q] else [])
         + Collect(line, q, lo + 1, hi)
  }

  /** The last index of `q` in the window `[lo, hi)`, escaped or not; -1 if there is none. */
  function LastQuote(line: string, q: char, lo: nat, hi: nat): (r: int)
    ensures r == -1 ==> forall i :: lo <= i < Min(hi, |line|) ==> line[i] != q
    ensures r != -1 ==> lo <= r < Min(hi, |line|) && line[r] == q
    ensures r != -1 ==> forall i :: r < i < Min(hi, |line|) ==> line[i] != q
    decreases |line| - lo
  {
    if lo >= Min(hi, |line|) then -1
    else
      var rest := LastQuote(line, q, lo + 1, hi);
      if rest != -1 then rest else if line[lo] == q then lo else -1
  }

  /** The value of `start` after one pass: just past the last `q` found, or unchanged. */
  function ScanEnd(line: string, q: char, lo: nat, hi: nat): nat
  {
    var last := LastQuote(line, q, lo, hi);
    if last == -1 then lo else last + 1
  }

  /**
   * Where the double-quote pass starts: `start` is not reset after the
   * single-quote pass, so it begins just after the last single quote of
   * the window (escaped or not), or at 0 when there is none.
   */
  function DoubleStart(line: string, pos: int): (r: nat)
    ensures r <= |line|
    ensures r == 0 <==> forall i :: 0 <= i < Min(WindowEnd(line, pos), |line|) ==> line[i] != SingleQuote
    ensures r > 0 ==> r - 1 < Min(WindowEnd(line, pos), |line|) && line[r - 1] == SingleQuote
    ensures forall i :: r <= i < Min(WindowEnd(line, pos), |line|) ==> line[i] != SingleQuote
  {
    ScanEnd(line, SingleQuote, 0, WindowEnd(line, pos))
  }

  /** The unescaped single quotes of the window. */
  function Singles(line: string, pos: int): seq<char>
  {
    Collect(line, SingleQuote, 0, WindowEnd(line, pos))
  }

  /** The unescaped double quotes from `DoubleStart` to the end of the window. */
  function Doubles(line: string, pos: int): seq<char>
  {
    Collect(line, DoubleQuote, DoubleStart(line, pos), WindowEnd(line, pos))
  }

  /** The list `result`: all single quotes first, then all double quotes. */
  function Collected(line: string, pos: int): seq<char>
  {
    Singles(line, pos) + Doubles(line, pos)
  }

  /** One step of the fold: open on any quote, close only on a quote of the same type. */
  function Step(openQuote: Option<char>, c: char): Option<char>
  {
    if openQuote.None? then Some(c)
    else if openQuote.value == c then None
    else openQuote
  }

  /** The fold of `openQuote` over `rs`, from the left. */
  function FoldFrom(openQuote: Option<char>, rs: seq<char>): Option<char>
    decreases |rs|
  {
    if rs == [] then openQuote else FoldFrom(Step(openQuote, rs[0]), rs[1..])
  }

  /** `__is_in_string(line, pos)`: a quote is still open after the fold. */
  predicate InString(line: string, pos: int)
  {
    FoldFrom(None, Collected(line, pos)).Some?
  }

  // ---------------------------------------------------------------------
  // `__is_in_string`, imperatively

  /**
   * The inner `while True` loop of `__is_in_string` for one quote symbol
   * `q`, from `start0` to the window end `e`: it returns the new `start`
   * and the quotes it appended to `result`.
   */
  method ScanQuote(line: string, q: char, start0: nat, e: nat) returns (start: nat, found: seq<char>)
    requires start0 <= |line|
    requires q != Backslash
    ensures found == Collect(line, q, start0, e)
    ensures start == ScanEnd(line, q, start0, e)
    ensures start <= |line|
  {
    start, found := start0, [];
    while true
      invariant start0 <= start <= |line|
      invariant Collect(line, q, start0, e) == found + Collect(line, q, start, e)
      invariant ScanEnd(line, q, start0, e) == ScanEnd(line, q, start, e)
      decreases |line| - start
    {
      var fp := Find(line, q, start, e);
      if fp > -1 {
        PassStep(line, q, start0, start, e, found, fp);
        start := fp + 1;
        if line[if fp == 0 then |line| - 1 else fp - 1] == Backslash {
          continue;
        }
        found := found + [line[fp]];
      } else {
        PassEnd(line, q, start, e);
        break;
      }
    }
  }

  /** `__is_in_string(line, pos)`. */
  method IsInString(line: string, pos: int) returns (b: bool)
    ensures b == InString(line, pos)
  {
    var e := WindowEnd(line, pos);
    var start, singles := ScanQuote(line, SingleQuote, 0, e);
    var _, doubles := ScanQuote(line, DoubleQuote, start, e);
    var result := singles + doubles;
    b := false;
    if |result| > 0 {
      var openQuote: Option<char> := None;
      for i := 0 to |result|
        invariant FoldFrom(None, result) == FoldFrom(openQuote, result[i..])
      {
        assert result[i..][1..] == result[i + 1..];
        if openQuote.None? {
          openQuote := Some(result[i]);
        } else if openQuote.value == result[i] {
          openQuote := None;
        }
      }
      if openQuote.Some? {
        b := true;
      }
    }
  }

  // ---------------------------------------------------------------------
  // Lemmas used by the scanning loop

  /** One iteration of `ScanQuote` that finds the quote at `fp` keeps the loop invariant. */
  lemma PassStep(line: string, q: char, start0: nat, start: nat, e: nat, found: seq<char>, fp: nat)
    requires start0 <= start <= |line|
    requires Collect(line, q, start0, e) == found + Collect(line, q, start, e)
    requires ScanEnd(line, q, start0, e) == ScanEnd(line, q, start, e)
    requires fp == Find(line, q, start, e)
    ensures fp < |line| && line[fp] == q
    ensures Collect(line, q, start0, e)
         == (found + (if PrecededByBackslash(line, fp) then [] else [q])) + Collect(line, q, fp + 1, e)
    ensures ScanEnd(line, q, start0, e) == ScanEnd(line, q, fp + 1, e)
  {
    CollectSkip(line, q, start, fp, e);
    CollectAt(line, q, fp, e);
    ScanEndStep(line, q, start, fp, e);
  }

  /** When no `q` is left, the pass collects nothing more and `start` stays. */
  lemma PassEnd(line: string, q: char, start: nat, e: nat)
    requires start <= |line|
    requires Find(line, q, start, e) == -1
    ensures Collect(line, q, start, e) == []
    ensures ScanEnd(line, q, start, e) == start
  {
    if start <= Min(e, |line|) {
      CollectSkip(line, q, start, Min(e, |line|), e);
    }
  }

  /** Skipping a stretch without `q` changes neither pass's collection. */
  lemma {:induction false} CollectSkip(line: string, q: char, lo: nat, mid: nat, hi: nat)
    requires lo <= mid <= Min(hi, |line|)
    requires forall i :: lo <= i < mid ==> line[i] != q
    ensures Collect(line, q, lo, hi) == Collect(line, q, mid, hi)
    decreases mid - lo
  {
    if lo < mid {
      CollectSkip(line, q, lo + 1, mid, hi);
    }
  }

  /** After the quote at `fp`, the first `q` at or after `lo`, the pass resumes at `fp + 1`. */
  lemma ScanEndStep(line: string, q: char, lo: nat, fp: nat, hi: nat)
    requires lo <= fp < Min(hi, |line|) && line[fp] == q
    requires forall i :: lo <= i < fp ==> line[i] != q
    ensures ScanEnd(line, q, lo, hi) == ScanEnd(line, q, fp + 1, hi)
  {
  }

  /** At a `q`, a pass collects it exactly when it is not escaped, then goes on. */
  lemma CollectAt(line: string, q: char, fp: nat, hi: nat)
    requires fp < Min(hi, |line|) && line[fp] == q
    ensures Collect(line, q, fp, hi)
         == (if PrecededByBackslash(line, fp) then [] else [q]) + Collect(line, q, fp + 1, hi)
  {
  }

  // ---------------------------------------------------------------------
  // What `__is_in_string` decides

  /** The fold distributes over concatenation. */
  lemma {:induction false} FoldAppend(openQuote: Option<char>, xs: seq<char>, ys: seq<char>)
    ensures FoldFrom(openQuote, xs + ys) == FoldFrom(FoldFrom(openQuote, xs), ys)
    decreases |xs|
  {
    if xs == [] {
      assert xs + ys == ys;
    } else {
      assert (xs + ys)[1..] == xs[1..] + ys;
      FoldAppend(Step(openQuote, xs[0]), xs[1..], ys);
    }
  }

  /** Over quotes of one type the fold toggles: it ends open exactly after an odd number. */
  lemma {:induction false} FoldUniform(rs: seq<char>, q: char)
    requires forall k :: 0 <= k < |rs| ==> rs[k] == q
    ensures FoldFrom(None, rs) == if |rs| % 2 == 1 then Some(q) else None
    ensures FoldFrom(Some(q), rs) == if |rs| % 2 == 1 then None else Some(q)
    decreases |rs|
  {
    if rs != [] {
      FoldUniform(rs[1..], q);
    }
  }

  /** A quote of another type never closes an open quote. */
  lemma {:induction false} FoldKeepsOpen(p: char, rs: seq<char>, q: char)
    requires p != q
    requires forall k :: 0 <= k < |rs| ==> rs[k] == q
    ensures FoldFrom(Some(p), rs) == Some(p)
    decreases |rs|
  {
    if rs != [] {
      FoldKeepsOpen(p, rs[1..], q);
    }
  }

  /**
   * `__is_in_string` is true exactly when the window holds an odd number of
   * unescaped single quotes, or an odd number of unescaped double quotes
   * after the last single quote.
   */
  lemma InStringParity(line: string, pos: int)
    ensures InString(line, pos) <==> |Singles(line, pos)| % 2 == 1 || |Doubles(line, pos)| % 2 == 1
  {
    var ss, ds := Singles(line, pos), Doubles(line, pos);
    FoldAppend(None, ss, ds);
    FoldUniform(ss, SingleQuote);
    if |ss| % 2 == 1 {
      FoldKeepsOpen(SingleQuote, ds, DoubleQuote);
    } else {
      FoldUniform(ds, DoubleQuote);
    }
  }

  /** Two lines that agree on the window `[0, hi)` and on their last character agree on every pass. */
  lemma {:induction false} CollectAgree(line: string, line2: string, q: char, lo: nat, hi: nat)
    requires hi <= |line| && hi <= |line2|
    requires line[..hi] == line2[..hi]
    requires hi > 0 ==> line[|line| - 1] == line2[|line2| - 1]
    ensures Collect(line, q, lo, hi) == Collect(line2, q, lo, hi)
    ensures LastQuote(line, q, lo, hi) == LastQuote(line2, q, lo, hi)
    decreases hi - lo
  {
    if lo < hi {
      assert line[lo] == line[..hi][lo] == line2[lo];
      if lo > 0 {
        assert line[lo - 1] == line[..hi][lo - 1] == line2[lo - 1];
      }
      CollectAgree(line, line2, q, lo + 1, hi);
    }
  }

  /**
   * For `pos > 0` only the characters before index `pos - 1` matter (and
   * the last character, which is what precedes a quote at index 0).
   */
  lemma InStringWindow(line: string, line2: string, pos: int)
    requires pos > 0 && pos - 1 <= |line| && pos - 1 <= |line2|
    requires line[..pos - 1] == line2[..pos - 1]
    requires pos > 1 ==> line[|line| - 1] == line2[|line2| - 1]
    ensures InString(line, pos) == InString(line2, pos)
  {
    CollectAgree(line, line2, SingleQuote, 0, pos - 1);
    CollectAgree(line, line2, DoubleQuote, DoubleStart(line, pos), pos - 1);
  }

  /** With `pos == 1` the window is empty, so no position 1 is ever inside a string. */
  lemma InStringAtOne(line: string)
    ensures !InString(line, 1)
  {
  }

  /** A window end beyond the line is the same as no end at all. */
  lemma {:induction false} CollectClamp(line: string, q: char, lo: nat, hi: nat)
    requires hi >= |line|
    ensures Collect(line, q, lo, hi) == Collect(line, q, lo, |line|)
    ensures LastQuote(line, q, lo, hi) == LastQuote(line, q, lo, |line|)
    decreases |line| - lo
  {
    if lo < |line| {
      CollectClamp(line, q, lo + 1, hi);
    }
  }

  /** A non-positive `pos`, like one past the end of the line, scans the whole line. */
  lemma InStringWholeLine(line: string, pos: int)
    requires pos <= 0 || pos > |line|
    ensures InString(line, pos) == InString(line, 0)
  {
    if pos > 0 {
      CollectClamp(line, SingleQuote, 0, pos - 1);
      CollectClamp(line, DoubleQuote, DoubleStart(line, pos), pos - 1);
    }
  }

  /**
   * Overwriting a character that is neither `q` nor a backslash with another
   * such character leaves a pass over `[lo, hi)` unchanged (a character
   * before `lo` may even be `q`).
   */
  lemma {:induction false} CollectReplaceOther(line: string, q: char, lo: nat, hi: nat, i: nat, c: char)
    requires i < |line|
    requires line[i] != Backslash && c != Backslash
    requires lo <= i ==> line[i] != q && c != q
    ensures Collect(line[i := c], q, lo, hi) == Collect(line, q, lo, hi)
    ensures LastQuote(line[i := c], q, lo, hi) == LastQuote(line, q, lo, hi)
    decreases |line| - lo
  {
    var line' := line[i := c];
    if lo < Min(hi, |line|) {
      assert (line'[lo] == q) == (line[lo] == q);
      assert PrecededByBackslash(line', lo) == PrecededByBackslash(line, lo);
      CollectReplaceOther(line, q, lo + 1, hi, i, c);
    }
  }

  /** Overwriting one `q` removes one collected quote, or none if that quote was escaped. */
  lemma {:induction false} CollectReplaceQuote(line: string, q: char, lo: nat, hi: nat, i: nat, c: char)
    requires lo <= i < Min(hi, |line|) && line[i] == q
    requires q != Backslash && c != q && c != Backslash
    ensures |Collect(line, q, lo, hi)| == |Collect(line[i := c], q, lo, hi)| + (if PrecededByBackslash(line, i) then 0 else 1)
    decreases i - lo
  {
    var line' := line[i := c];
    if lo < i {
      assert PrecededByBackslash(line', lo) == PrecededByBackslash(line, lo);
      CollectReplaceQuote(line, q, lo + 1, hi, i, c);
    } else {
      CollectReplaceOther(line, q, i + 1, hi, i, c);
    }
  }

  /**
   * An escaped double quote in the double-quote pass is skipped: blanking it
   * out changes nothing.  An unescaped one is counted: blanking it out flips
   * the answer unless an odd number of single quotes already decides it.
   */
  lemma DoubleQuoteCounted(line: string, pos: int, i: nat, c: char)
    requires DoubleStart(line, pos) <= i < Min(WindowEnd(line, pos), |line|) && line[i] == DoubleQuote
    requires c != SingleQuote && c != DoubleQuote && c != Backslash
    ensures PrecededByBackslash(line, i) ==> InString(line[i := c], pos) == InString(line, pos)
    ensures !PrecededByBackslash(line, i) ==>
              InString(line[i := c], pos) == (|Singles(line, pos)| % 2 == 1 || !InString(line, pos))
  {
    var line' := line[i := c];
    CollectReplaceOther(line, SingleQuote, 0, WindowEnd(line, pos), i, c);
    assert Singles(line', pos) == Singles(line, pos);
    assert DoubleStart(line', pos) == DoubleStart(line, pos);
    CollectReplaceQuote(line, DoubleQuote, DoubleStart(line, pos), WindowEnd(line, pos), i, c);
    InStringParity(line, pos);
    InStringParity(line', pos);
  }

  /**
   * Because `start` is not reset between the passes, double quotes before
   * the last single quote of the window are never looked at.
   */
  lemma DoublesBeforeLastSingleIgnored(line: string, pos: int, i: nat, c: char)
    requires i < DoubleStart(line, pos) && line[i] == DoubleQuote
    requires c != SingleQuote && c != DoubleQuote && c != Backslash
    ensures InString(line[i := c], pos) == InString(line, pos)
  {
    var line' := line[i := c];
    CollectReplaceOther(line, SingleQuote, 0, WindowEnd(line, pos), i, c);
    assert DoubleStart(line', pos) == DoubleStart(line, pos);
    CollectReplaceOther(line, DoubleQuote, DoubleStart(line, pos), WindowEnd(line, pos), i, c);
  }

  /** A window without any quote is never inside a string. */
  lemma NoQuoteNotInString(line: string, pos: int)
    requires forall i :: 0 <= i < Min(WindowEnd(line, pos), |line|) ==> line[i] != SingleQuote && line[i] != DoubleQuote
    ensures !InString(line, pos)
  {
    var e := WindowEnd(line, pos);
    CollectSkip(line, SingleQuote, 0, Min(e, |line|), e);
    CollectSkip(line, DoubleQuote, 0, Min(e, |line|), e);
  }

  /** A quote at index 0 is escaped by a backslash at the end of the line. */
  lemma WrapAroundExample()
    ensures InString("'abc", 0) && !InString("'abc\\", 0)
  {
  }

  /** The character just before `pos` is outside the window. */
  lemma WindowExample()
    ensures InString("x = 'ab", 6) && !InString("x = 'ab", 5)
  {
  }

  /** A double quote before the last single quote is never seen. */
  lemma SharedStartExample()
    ensures InString("\"a", 0) && !InString("\"a''", 0)
  {
  }

  // ---------------------------------------------------------------------
  // `__is_in_comment`

  /**
   * The three ways `__is_in_comment` can end.  `Diverges` stands for its
   * `while True` loop running forever.
   */
  datatype CommentOutcome = NotInComment | InComment | Diverges

  /** `i` is the first `#` of the window of `__is_in_comment(line, pos)`. */
  predicate FirstMarker(line: string, pos: int, i: int)
  {
    0 <= i < Min(WindowEnd(line, pos), |line|) && line[i] == CommentSymbol &&
    forall j :: 0 <= j < i ==> line[j] != CommentSymbol
  }

  /**
   * What `__is_in_comment(line, pos)` does: no `#` in the window gives
   * False; a first `#` outside a string gives True; a first `#` inside a
   * string makes the loop search again from that same `#` forever.
   */
  function CommentOutcomeOf(line: string, pos: int): (r: CommentOutcome)
    ensures r == NotInComment <==> forall i :: 0 <= i < Min(WindowEnd(line, pos), |line|) ==> line[i] != CommentSymbol
    ensures r == InComment <==> exists i :: FirstMarker(line, pos, i) && !InString(line, i)
    ensures r == Diverges <==> exists i :: FirstMarker(line, pos, i) && InString(line, i)
  {
    var fp := Find(line, CommentSymbol, 0, WindowEnd(line, pos));
    assert fp != -1 ==> FirstMarker(line, pos, fp);
    if fp == -1 then NotInComment
    else if InString(line, fp) then Diverges
    else InComment
  }

  /**
   * `__is_in_comment(line, pos)`.  The loop body depends on `start` alone,
   * so once an iteration leaves `start` as it found it the source repeats
   * that iteration forever; the model reports `Diverges` there instead.
   */
  method IsInComment(line: string, pos: int) returns (r: CommentOutcome)
    ensures r == CommentOutcomeOf(line, pos)
  {
    var e := WindowEnd(line, pos);
    var start := 0;
    while true
      invariant start < |line| || start == 0
      invariant start != 0 ==> Find(line, CommentSymbol, 0, e) == start && InString(line, start)
      decreases |line| - start
    {
      var fp := Find(line, CommentSymbol, start, e);
      if fp > -1 {
        var inString := IsInString(line, fp);
        if inString {
          if fp == start {
            return Diverges;
          }
          start := fp;
        } else {
          return InComment;
        }
      } else {
        break;
      }
    }
    return NotInComment;
  }

  /**
   * `__is_in_comment` with `start = fp + 1`: the search goes on after a `#`
   * inside a string, so the answer is whether any `#` of the window lies
   * outside a string.
   */
  method IsInCommentFixed(line: string, pos: int) returns (b: bool)
    ensures b <==> exists i :: 0 <= i < Min(WindowEnd(line, pos), |line|) && line[i] == CommentSymbol && !InString(line, i)
  {
    var e := WindowEnd(line, pos);
    var start := 0;
    while true
      invariant start <= |line|
      invariant forall i :: 0 <= i < start && i < Min(e, |line|) && line[i] == CommentSymbol ==> InString(line, i)
      decreases |line| - start
    {
      var fp := Find(line, CommentSymbol, start, e);
      if fp > -1 {
        var inString := IsInString(line, fp);
        if inString {
          start := fp + 1;
        } else {
          return true;
        }
      } else {
        break;
      }
    }
    return false;
  }

  /**
   * On `'a#` the first `#` is inside the string opened at index 0, so
   * `__is_in_comment` never returns, whereas every `#` of the line is in a
   * string and the corrected search answers False.
   */
  lemma CommentScanDiverges()
    ensures CommentOutcomeOf("'a#", 0) == Diverges
    ensures forall i :: 0 <= i < |"'a#"| && "'a#"[i] == CommentSymbol ==> InString("'a#", i)
  {
    assert InString("'a#", 2);
    assert FirstMarker("'a#", 0, 2);
  }

  /** The first `#` of `x = 1  # note` is at index 7. */
  lemma CommentExampleMarker()
    ensures Find("x = 1  # note", CommentSymbol, 0, 13) == 7
  {
  }

  /** Nothing before index 6 of `x = 1  # note` is a quote. */
  lemma CommentExampleOutsideString()
    ensures !InString("x = 1  # note", 7)
  {
    var line := "x = 1  # note";
    forall j | 0 <= j < 6
      ensures line[j] != SingleQuote && line[j] != DoubleQuote
    {
    }
    NoQuoteNotInString(line, 7);
  }

  /** A trailing comment after code is found. */
  lemma CommentExample()
    ensures CommentOutcomeOf("x = 1  # note", 0) == InComment
  {
    CommentExampleMarker();
    CommentExampleOutsideString();
  }
}
