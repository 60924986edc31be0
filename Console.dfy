/** The prompt renderer: redraws the prompt and the line being edited across the
    rows of a fixed-width display, keeps the cursor where the editor has it, and
    colours the line by token kind. */
module Console {
  import opened Ecma48
  import opened Terminal
  import Utf16

  // SGR colour codes used by the prompt and the colouring (ECMA-48 SGR parameters).
  const Reset: nat := 0
  const FgYellow: nat := 33
  const FgBlue: nat := 34
  const FgCyan: nat := 36
  const FgBrBlue: nat := 94
  const FgBrGreen: nat := 92
  const FgBrMagenta: nat := 95
  const FgBrCyan: nat := 96

  const WelcomeText: string := "Welcome to termdo. Type `help` for commands.\r\n"

  function Max(a: int, b: int): int { if a < b then b else a }
  function Min(a: int, b: int): int { if a < b then a else b }

  // ---------------------------------------------------------------------------
  // Row and column arithmetic of a repaint
  // ---------------------------------------------------------------------------

  /** How many rows `total` characters take on a display `cols` wide, never fewer than one. */
  function RowCount(total: nat, cols: int): int
    requires 1 <= cols
  {
    Max(1, (total + cols - 1) / cols)
  }

  /** Index (from 0) of the row holding the last character; -1 when there is none. */
  function EndRow(total: nat, cols: int): int
    requires 1 <= cols
  {
    total / cols - (if total % cols == 0 then 1 else 0)
  }

  /** Rows the cursor must go up from the end of the text to reach `target`. */
  function UpCount(total: nat, target: nat, cols: int): int
    requires 1 <= cols
  {
    EndRow(total, cols) - target / cols
  }

  /** The cursor line (from 1) recorded at the end of a repaint. */
  function LineAfterPrompt(total: nat, target: nat, cols: int): int
    requires 1 <= cols
  {
    RowCount(total, cols) - Max(0, UpCount(total, target, cols))
  }

  /** The row (from 1) on which the cursor for `target` is shown: its own row,
      or the last rendered row when `target` is past a full last row. */
  function DisplayLine(target: nat, total: nat, cols: int): int
    requires 1 <= cols
  {
    Min(target / cols, RowCount(total, cols) - 1) + 1
  }

  /** What a repaint writes after the text: an upward move when the cursor is on
      an earlier row, then the cursor's absolute column. */
  function Reposition(total: nat, target: nat, cols: int): seq<Control>
    requires 1 <= cols
  {
    var up := UpCount(total, target, cols);
    (if up > 0 then [CursorUp(up)] else []) + [CharacterAbsolute(target % cols + 1)]
  }

  /** What a repaint writes first, from the previous bookkeeping: down to the last
      rendered row, back to column 1, then erase every rendered row bottom-up. */
  function Erase(promptLines: int, cursorLine: int): seq<Control>
  {
    (if promptLines - cursorLine > 0 then [CursorDown(promptLines - cursorLine)] else [])
    + (if promptLines > 0 then [CarriageReturn] + EraseUpward(promptLines - 1) + [EraseLine] else [])
  }

  /** The styled prompt: user, @host, :directory, mark and a space. */
  function PromptPrefix(username: string, hostname: string, cwd: string, mark: string): seq<Control>
  {
    [Sgr(FgYellow), Text(username), Sgr(FgBrGreen), Text("@" + hostname),
     Sgr(FgCyan), Text(":" + cwd), Sgr(FgBlue), Text(mark + " ")]
  }

  lemma RowCountFromEnd(total: nat, cols: int)
    requires 1 <= cols
    ensures 1 <= total ==> RowCount(total, cols) == (total - 1) / cols + 1
    ensures total == 0 ==> RowCount(total, cols) == 1
  {
    if 1 <= total {
      assert total + cols - 1 == (total - 1) + cols;
      DivShift(total - 1, cols);
    }
  }

  /** Arithmetic facts about division by the display width. */
  lemma MulMono(d: int, c: int)
    requires 1 <= d && 1 <= c
    ensures c <= d * c
  {
    if d > 1 { MulMono(d - 1, c); assert d * c == (d - 1) * c + c; }
  }

  lemma DivUnique(a: int, c: int, q: int, r: int)
    requires 1 <= c && 0 <= r < c && a == q * c + r
    ensures a / c == q && a % c == r
  {
    var q', r' := a / c, a % c;
    assert a == q' * c + r';
    var d := q - q';
    assert d * c == r' - r by { assert q * c - q' * c == (q - q') * c; }
    if d >= 1 { MulMono(d, c); }
    else if d <= -1 { MulMono(-d, c); }
  }

  lemma DivShift(a: nat, c: int)
    requires 1 <= c
    ensures (a + c) / c == a / c + 1
  {
    DivUnique(a + c, c, a / c + 1, a % c);
  }

  lemma DivMonotone(a: nat, b: nat, c: int)
    requires 1 <= c && a <= b
    ensures a / c <= b / c
  {
    var qa, qb := a / c, b / c;
    if qa > qb {
      assert qa * c - qb * c == (qa - qb) * c;
      MulMono(qa - qb, c);
    }
  }

  lemma DivPredecessor(t: nat, c: int)
    requires 1 <= c && 1 <= t
    ensures t % c == 0 ==> (t - 1) / c == t / c - 1
    ensures t % c != 0 ==> (t - 1) / c == t / c
  {
    var q, r := t / c, t % c;
    if r == 0 {
      DivUnique(t - 1, c, q - 1, c - 1);
    } else {
      DivUnique(t - 1, c, q, r - 1);
    }
  }

  /** The prompt and the line fit in `RowCount` rows, and in no fewer. */
  lemma {:induction false} RowCountIsLeast(total: nat, cols: int)
    requires 1 <= cols
    ensures var rows := RowCount(total, cols);
      && 1 <= rows && total <= rows * cols
      && (rows == 1 || (rows - 1) * cols < total)
  {
    RowCountFromEnd(total, cols);
    if 1 <= total {
      var q, r := (total - 1) / cols, (total - 1) % cols;
      assert total - 1 == q * cols + r;
      assert (q + 1) * cols == q * cols + cols;
    }
  }

  /** After a repaint the recorded cursor line lies within the rendered rows and is
      the row the cursor is shown on. */
  lemma {:induction false} LineAfterPromptInRange(promptLen: nat, inputLen: nat, cursorPos: nat, cols: int)
    requires 1 <= cols && cursorPos <= inputLen
    ensures var total, target := promptLen + inputLen, promptLen + cursorPos;
      var line := LineAfterPrompt(total, target, cols);
      && line == DisplayLine(target, total, cols)
      && 1 <= line <= RowCount(total, cols)
  {
    var total, target := promptLen + inputLen, promptLen + cursorPos;
    RowCountFromEnd(total, cols);
    DivMonotone(target, total, cols);
    if 1 <= total {
      DivPredecessor(total, cols);
    }
  }

  /** A repaint leaves the display cursor on the recorded line, at the column of
      the editor's cursor, and that column lies in [1, cols]. */
  lemma {:induction false} RepositionLands(promptLen: nat, inputLen: nat, cursorPos: nat, cols: int, col: int, erased: set<int>)
    requires 1 <= cols && cursorPos <= inputLen
    ensures var total, target := promptLen + inputLen, promptLen + cursorPos;
      var cs := Reposition(total, target, cols);
      && AllMotions(cs)
      && Run(Cursor(RowCount(total, cols), col, erased), cs)
         == Cursor(LineAfterPrompt(total, target, cols), target % cols + 1, erased)
      && 1 <= target % cols + 1 <= cols
  {
    var total, target := promptLen + inputLen, promptLen + cursorPos;
    var up := UpCount(total, target, cols);
    var cs := Reposition(total, target, cols);
    var p := Cursor(RowCount(total, cols), col, erased);
    if up > 0 {
      assert cs == [CursorUp(up), CharacterAbsolute(target % cols + 1)];
      RunTwo(p, CursorUp(up), CharacterAbsolute(target % cols + 1));
    } else {
      assert cs == [CharacterAbsolute(target % cols + 1)];
      RunOne(p, CharacterAbsolute(target % cols + 1));
    }
  }

  /** With the cursor at the end of the line no upward move is written, also when
      the text exactly fills its last row (the column is then 1). */
  lemma {:induction false} NoUpwardMoveAtEnd(promptLen: nat, inputLen: nat, cols: int)
    requires 1 <= cols
    ensures var total := promptLen + inputLen;
      && Reposition(total, total, cols) == [CharacterAbsolute(total % cols + 1)]
      && (total % cols == 0 ==> Reposition(total, total, cols) == [CharacterAbsolute(1)])
  {
    var total := promptLen + inputLen;
    assert UpCount(total, total, cols) <= 0;
  }

  /** When the recorded line is right, the erase phase removes exactly the rendered
      rows, whatever row the cursor was on, and ends at column 1 of the first one. */
  lemma {:induction false} EraseClearsPrompt(promptLines: int, cursorLine: int, col: int)
    requires 1 <= cursorLine <= promptLines
    ensures var cs := Erase(promptLines, cursorLine);
      && AllMotions(cs)
      && var q := Run(Cursor(cursorLine, col, {}), cs);
      && q.row == 1 && q.col == 1
      && forall r :: r in q.erased <==> 1 <= r <= promptLines
  {
    var down := if promptLines - cursorLine > 0 then [CursorDown(promptLines - cursorLine)] else [];
    var up := EraseUpward(promptLines - 1);
    var start := Cursor(cursorLine, col, {});
    assert Erase(promptLines, cursorLine) == (down + [CarriageReturn]) + up + [EraseLine];
    RunAppend(start, down + [CarriageReturn], up);
    RunAppend(start, down + [CarriageReturn] + up, [EraseLine]);
    RunAppend(start, down, [CarriageReturn]);
    assert Run(start, down) == Cursor(promptLines, col, {});
    EraseUpwardEffect(promptLines, {}, promptLines - 1);
  }

  /** When the recorded line is one past the last rendered row, the erase phase
      misses the first rendered row and erases the row below the prompt instead. */
  lemma {:induction false} EraseAfterOvershootMissesFirstRow(promptLines: int, col: int)
    requires 1 <= promptLines
    ensures var cs := Erase(promptLines, promptLines + 1);
      && AllMotions(cs)
      && var q := Run(Cursor(promptLines + 1, col, {}), cs);
      && 1 !in q.erased && promptLines + 1 in q.erased
  {
    var up := EraseUpward(promptLines - 1);
    var start := Cursor(promptLines + 1, col, {});
    assert Erase(promptLines, promptLines + 1) == [CarriageReturn] + up + [EraseLine];
    RunAppend(start, [CarriageReturn] + up, [EraseLine]);
    RunAppend(start, [CarriageReturn], up);
    EraseUpwardEffect(promptLines + 1, {}, promptLines - 1);
  }

  // ---------------------------------------------------------------------------
  // Cursor nudges that do not change the line
  // ---------------------------------------------------------------------------

  /** The editor's cursor, the recorded cursor line and what was written. */
  datatype Nudge = Nudge(cursorPos: int, cursorLine: int, emitted: seq<Control>)

  /** The test `x % cols === 0` on a positive `x`, for the width as the display
      reports it: JavaScript's remainder by 0 is NaN, which is not 0, and for a
      negative width it is 0 exactly when Dafny's is. */
  predicate AtMultiple(x: int, cols: int)
  {
    cols != 0 && x % cols == 0
  }

  /** One step left: at a row start, up one row to the far column. */
  function LeftNudge(pos: int, line: int, promptLen: nat, cols: int): (n: Nudge)
    ensures pos <= 0 ==> n == Nudge(pos, line, [])
    ensures 0 < pos ==> n.cursorPos == pos - 1
    ensures 0 < pos ==> (n.cursorLine == line - 1 <==> AtMultiple(pos + promptLen, cols))
    ensures n.cursorLine == line || (0 < pos && n.cursorLine == line - 1)
  {
    if 0 < pos then
      if AtMultiple(pos + promptLen, cols) then Nudge(pos - 1, line - 1, [CursorUp(1), CursorRight(cols)])
      else Nudge(pos - 1, line, [CursorLeftOne])
    else Nudge(pos, line, [])
  }

  /** One step right: before a row end, down one row to column 1. */
  function RightNudge(pos: int, line: int, inputLen: nat, promptLen: nat, cols: int): (n: Nudge)
    ensures inputLen <= pos ==> n == Nudge(pos, line, [])
    ensures pos < inputLen ==> n.cursorPos == pos + 1
    ensures pos < inputLen ==> (n.cursorLine == line + 1 <==> AtMultiple(pos + promptLen + 1, cols))
    ensures n.cursorLine == line || (pos < inputLen && n.cursorLine == line + 1)
  {
    if pos < inputLen then
      if AtMultiple(pos + promptLen + 1, cols) then Nudge(pos + 1, line + 1, [CursorDown(1), CursorLeft(cols)])
      else Nudge(pos + 1, line, [CursorRightOne])
    else Nudge(pos, line, [])
  }

  /** Jump to the start of the line: up to the first row, then to the column after the prompt. */
  function HomeNudge(line: int, promptLen: nat): (n: Nudge)
    ensures n.cursorPos == 0
    ensures 1 <= line ==> n.cursorLine == 1
    ensures line < 1 ==> n.cursorLine == line
    ensures 1 <= |n.emitted| && n.emitted[|n.emitted| - 1] == CharacterAbsolute(promptLen + 1)
  {
    if line > 1 then Nudge(0, 1, [CursorUp(line - 1), CharacterAbsolute(promptLen + 1)])
    else Nudge(0, line, [CharacterAbsolute(promptLen + 1)])
  }

  /** Jump to the end of the line: down to the last rendered row, then to the column
      after the text, on the width clamped to at least 1. */
  function EndNudge(line: int, promptLines: int, inputLen: nat, promptLen: nat, cols: int): (n: Nudge)
    ensures n.cursorPos == inputLen && n.cursorLine == promptLines
    ensures 1 <= |n.emitted|
    ensures var c := n.emitted[|n.emitted| - 1];
      c.CharacterAbsolute? && 1 <= c.n <= Max(1, cols) && c.n - 1 == (promptLen + inputLen) % Max(1, cols)
  {
    var column := CharacterAbsolute((promptLen + inputLen) % Max(1, cols) + 1);
    if line != promptLines then Nudge(inputLen, promptLines, [CursorDown(promptLines - line), column])
    else Nudge(inputLen, line, [column])
  }

  /** A step right undoes a step left: both the cursor and the recorded line come back. */
  lemma RightUndoesLeft(pos: int, line: int, inputLen: nat, promptLen: nat, cols: int)
    requires 0 < pos <= inputLen
    ensures var l := LeftNudge(pos, line, promptLen, cols);
      var r := RightNudge(l.cursorPos, l.cursorLine, inputLen, promptLen, cols);
      r.cursorPos == pos && r.cursorLine == line
  {
    assert (pos - 1) + promptLen + 1 == pos + promptLen;
  }

  /** Every nudge moves the display cursor by exactly the rows it records, so the
      recorded line keeps naming the row the display cursor is on; for the jump to
      the end this holds when the recorded line is not below the last rendered row. */
  lemma {:induction false} NudgesTrackDisplay(pos: int, line: int, promptLines: int, inputLen: nat, promptLen: nat, cols: int, col: int, erased: set<int>)
    ensures var n := LeftNudge(pos, line, promptLen, cols);
      AllMotions(n.emitted) && Run(Cursor(line, col, erased), n.emitted).row == n.cursorLine
    ensures var n := RightNudge(pos, line, inputLen, promptLen, cols);
      AllMotions(n.emitted) && Run(Cursor(line, col, erased), n.emitted).row == n.cursorLine
    ensures var n := HomeNudge(line, promptLen);
      AllMotions(n.emitted) && Run(Cursor(line, col, erased), n.emitted).row == n.cursorLine
    ensures var n := EndNudge(line, promptLines, inputLen, promptLen, cols);
      AllMotions(n.emitted) && (line <= promptLines ==> Run(Cursor(line, col, erased), n.emitted).row == n.cursorLine)
  {
    var p := Cursor(line, col, erased);
    var l := LeftNudge(pos, line, promptLen, cols);
    if |l.emitted| == 2 {
      RunTwo(p, l.emitted[0], l.emitted[1]);
    } else if |l.emitted| == 1 {
      RunOne(p, l.emitted[0]);
    }
    var r := RightNudge(pos, line, inputLen, promptLen, cols);
    if |r.emitted| == 2 {
      RunTwo(p, r.emitted[0], r.emitted[1]);
    } else if |r.emitted| == 1 {
      RunOne(p, r.emitted[0]);
    }
    var h := HomeNudge(line, promptLen);
    if |h.emitted| == 2 {
      RunTwo(p, h.emitted[0], h.emitted[1]);
    } else {
      RunOne(p, h.emitted[0]);
    }
    var e := EndNudge(line, promptLines, inputLen, promptLen, cols);
    if |e.emitted| == 2 {
      RunTwo(p, e.emitted[0], e.emitted[1]);
    } else {
      RunOne(p, e.emitted[0]);
    }
  }

  /** Away from the end of a text that exactly fills its last row, a step left
      keeps the recorded line equal to the row the cursor is shown on. */
  lemma {:induction false} LeftNudgeKeepsLine(pos: int, line: int, inputLen: nat, promptLen: nat, cols: int)
    requires 1 <= cols && 0 < pos <= inputLen
    requires line == DisplayLine(promptLen + pos, promptLen + inputLen, cols)
    requires !(pos == inputLen && (promptLen + inputLen) % cols == 0)
    ensures var n := LeftNudge(pos, line, promptLen, cols);
      && n.cursorLine == DisplayLine(promptLen + pos - 1, promptLen + inputLen, cols)
      && 1 <= n.cursorLine <= RowCount(promptLen + inputLen, cols)
  {
    var total, t := promptLen + inputLen, promptLen + pos;
    RowCountFromEnd(total, cols);
    DivPredecessor(t, cols);
    if pos < inputLen {
      DivMonotone(t, total - 1, cols);
    } else {
      DivPredecessor(total, cols);
    }
  }

  /** Away from the end of a text that exactly fills its last row, a step right
      keeps the recorded line equal to the row the cursor is shown on. */
  lemma {:induction false} RightNudgeKeepsLine(pos: int, line: int, inputLen: nat, promptLen: nat, cols: int)
    requires 1 <= cols && 0 <= pos < inputLen
    requires line == DisplayLine(promptLen + pos, promptLen + inputLen, cols)
    requires !(pos + 1 == inputLen && (promptLen + inputLen) % cols == 0)
    ensures var n := RightNudge(pos, line, inputLen, promptLen, cols);
      && n.cursorLine == DisplayLine(promptLen + pos + 1, promptLen + inputLen, cols)
      && 1 <= n.cursorLine <= RowCount(promptLen + inputLen, cols)
  {
    var total, t := promptLen + inputLen, promptLen + pos + 1;
    RowCountFromEnd(total, cols);
    DivPredecessor(t, cols);
    DivMonotone(t - 1, total - 1, cols);
    if pos + 1 < inputLen {
      DivMonotone(t, total - 1, cols);
    } else {
      DivPredecessor(total, cols);
    }
  }

  /** A step right onto the end of a text that exactly fills its last row records
      a line one past the last rendered row. */
  lemma {:induction false} RightNudgeOvershootsAtFullRow(inputLen: nat, promptLen: nat, cols: int)
    requires 1 <= cols && 1 <= inputLen && (promptLen + inputLen) % cols == 0
    ensures var total, pos := promptLen + inputLen, inputLen - 1;
      var n := RightNudge(pos, DisplayLine(promptLen + pos, total, cols), inputLen, promptLen, cols);
      n.cursorLine == RowCount(total, cols) + 1
  {
    var total := promptLen + inputLen;
    RowCountFromEnd(total, cols);
    DivPredecessor(total, cols);
  }

  /** A step left from the end of a text that exactly fills its last row records
      a line one above the row the cursor is then shown on; on a one-row prompt
      that is line 0. */
  lemma {:induction false} LeftNudgeUndershootsAtFullRow(inputLen: nat, promptLen: nat, cols: int)
    requires 1 <= cols && 1 <= inputLen && (promptLen + inputLen) % cols == 0
    ensures var total := promptLen + inputLen;
      var n := LeftNudge(inputLen, DisplayLine(total, total, cols), promptLen, cols);
      && n.cursorLine == DisplayLine(total - 1, total, cols) - 1
      && (RowCount(total, cols) == 1 ==> n.cursorLine == 0)
  {
    var total := promptLen + inputLen;
    RowCountFromEnd(total, cols);
    DivPredecessor(total, cols);
  }

  /** After a step right has overshot, the jump to the end writes CUD with the
      parameter -1, which the display ignores: the recorded line becomes the last
      rendered row while the cursor stays on the row below it. */
  lemma {:induction false} EndAfterOvershootStaysBelow(inputLen: nat, promptLen: nat, cols: int, col: int, erased: set<int>)
    requires 1 <= cols && 1 <= inputLen && (promptLen + inputLen) % cols == 0
    ensures var total, pos := promptLen + inputLen, inputLen - 1;
      var rows := RowCount(total, cols);
      var r := RightNudge(pos, DisplayLine(promptLen + pos, total, cols), inputLen, promptLen, cols);
      var e := EndNudge(r.cursorLine, rows, inputLen, promptLen, cols);
      && e.emitted[0] == CursorDown(-1)
      && AllMotions(e.emitted)
      && e.cursorLine == rows
      && Run(Cursor(r.cursorLine, col, erased), e.emitted).row == rows + 1
  {
    var total, pos := promptLen + inputLen, inputLen - 1;
    var rows := RowCount(total, cols);
    RightNudgeOvershootsAtFullRow(inputLen, promptLen, cols);
    var e := EndNudge(rows + 1, rows, inputLen, promptLen, cols);
    RunTwo(Cursor(rows + 1, col, erased), e.emitted[0], e.emitted[1]);
  }

  // ---------------------------------------------------------------------------
  // Colouring of the edited line by token kind
  // ---------------------------------------------------------------------------

  datatype Mode = Command | Option | Arg | Value | Idle

  /** The colouring state: the current mode, whether the next character starts a
      token, and which quote, if any, is open. */
  datatype Painter = Painter(mode: Mode, atTokenStart: bool, inSingle: bool, inDouble: bool)

  datatype Painted = Painted(painter: Painter, out: seq<Control>)

  const Start: Painter := Painter(Command, true, false, false)

  function ModeStyle(m: Mode): seq<Control>
  {
    match m
    case Command => [Sgr(FgBrBlue)]
    case Option => [Sgr(FgBrGreen)]
    case Arg => [Sgr(FgBrCyan)]
    case Value => [Sgr(FgBrMagenta)]
    case Idle => []
  }

  /** Switch to `next`, writing its style only when the mode changes. */
  function SetMode(p: Painter, next: Mode): Painted
  {
    if p.mode == next then Painted(p, []) else Painted(p.(mode := next), ModeStyle(next))
  }

  /** One character of the line: the new state and what is written for it. */
  function PaintChar(p: Painter, ch: char): Painted
  {
    if !p.inSingle && !p.inDouble && (ch == '\'' || ch == '"') then
      var s := SetMode(p, Value);
      Painted(s.painter.(inSingle := ch == '\'', inDouble := ch != '\'', atTokenStart := false),
              s.out + [Text([ch])])
    else if p.inSingle && ch == '\'' then Painted(p.(inSingle := false), [Text([ch])])
    else if p.inDouble && ch == '"' then Painted(p.(inDouble := false), [Text([ch])])
    else if p.inSingle || p.inDouble then Painted(p, [Text([ch])])
    else if ch == ' ' then
      var s := SetMode(p.(atTokenStart := true), Idle);
      Painted(s.painter, [Text([ch])] + s.out)
    else
      var s := if p.atTokenStart && p.mode != Command
               then SetMode(p, if ch == '-' then Option else Arg)
               else Painted(p, []);
      var q := s.painter.(atTokenStart := false);
      if ch == '=' then
        var v := SetMode(q, Value);
        Painted(v.painter, s.out + [Text([ch])] + v.out)
      else Painted(q, s.out + [Text([ch])])
  }

  /** The characters of `s`, in order, from state `p`. */
  function PaintAll(p: Painter, s: string): Painted
  {
    if s == [] then Painted(p, [])
    else
      var prev := PaintAll(p, s[..|s| - 1]);
      var last := PaintChar(prev.painter, s[|s| - 1]);
      Painted(last.painter, prev.out + last.out)
  }

  /** The characters the pieces show, with every style left out. */
  function Plain(cs: seq<Control>): string
  {
    if cs == [] then ""
    else Plain(cs[..|cs| - 1]) + (if cs[|cs| - 1].Text? then cs[|cs| - 1].s else "")
  }

  /** A piece the colouring may write: one character, or one of the four token styles. */
  predicate IsPaintPiece(c: Control)
  {
    (c.Text? && |c.s| == 1) || (c.Sgr? && c.code in {FgBrBlue, FgBrGreen, FgBrCyan, FgBrMagenta})
  }

  lemma {:induction false} PlainAppend(a: seq<Control>, b: seq<Control>)
    ensures Plain(a + b) == Plain(a) + Plain(b)
    decreases |b|
  {
    if b == [] {
      assert a + b == a;
    } else {
      assert (a + b)[..|a + b| - 1] == a + b[..|b| - 1];
      PlainAppend(a, b[..|b| - 1]);
    }
  }

  predicate AllStyles(cs: seq<Control>)
  {
    forall i :: 0 <= i < |cs| ==> cs[i].Sgr? && IsPaintPiece(cs[i])
  }

  predicate AllPieces(cs: seq<Control>)
  {
    forall i :: 0 <= i < |cs| ==> IsPaintPiece(cs[i])
  }

  lemma PiecesAppend(a: seq<Control>, b: seq<Control>)
    requires AllPieces(a) && AllPieces(b)
    ensures AllPieces(a + b)
  {
  }

  lemma {:induction false} SgrPlain(st: seq<Control>)
    requires forall i :: 0 <= i < |st| ==> st[i].Sgr?
    ensures Plain(st) == ""
    decreases |st|
  {
    if st != [] {
      SgrPlain(st[..|st| - 1]);
    }
  }

  /** Styles around one character show just that character. */
  lemma {:induction false} PlainStyled(a: seq<Control>, ch: char, b: seq<Control>)
    requires AllStyles(a) && AllStyles(b)
    ensures Plain(a + [Text([ch])] + b) == [ch]
    ensures AllPieces(a + [Text([ch])] + b)
  {
    PiecesAppend(a, [Text([ch])]);
    PiecesAppend(a + [Text([ch])], b);
    SgrPlain(a);
    SgrPlain(b);
    PlainAppend(a, [Text([ch])]);
    PlainAppend(a + [Text([ch])], b);
    assert Plain([Text([ch])]) == [ch] by { assert [Text([ch])][..0] == []; }
  }

  lemma ModeStyleIsStyle(p: Painter, m: Mode)
    ensures AllStyles(SetMode(p, m).out)
  {
  }

  /** Each character is written once, surrounded only by token styles. */
  lemma {:induction false} PaintCharKeepsText(p: Painter, ch: char)
    ensures Plain(PaintChar(p, ch).out) == [ch]
    ensures AllPieces(PaintChar(p, ch).out)
  {
    var t := [Text([ch])];
    if !p.inSingle && !p.inDouble && (ch == '\'' || ch == '"') {
      var s := SetMode(p, Value);
      ModeStyleIsStyle(p, Value);
      assert PaintChar(p, ch).out == s.out + t + [];
      PlainStyled(s.out, ch, []);
    } else if p.inSingle || p.inDouble {
      assert PaintChar(p, ch).out == [] + t + [];
      PlainStyled([], ch, []);
    } else if ch == ' ' {
      var s := SetMode(p.(atTokenStart := true), Idle);
      assert PaintChar(p, ch).out == [] + t + s.out;
      PlainStyled([], ch, s.out);
    } else {
      var s := if p.atTokenStart && p.mode != Command
               then SetMode(p, if ch == '-' then Option else Arg)
               else Painted(p, []);
      assert AllStyles(s.out);
      var q := s.painter.(atTokenStart := false);
      if ch == '=' {
        var v := SetMode(q, Value);
        ModeStyleIsStyle(q, Value);
        assert PaintChar(p, ch).out == s.out + t + v.out;
        PlainStyled(s.out, ch, v.out);
      } else {
        assert PaintChar(p, ch).out == s.out + t + [];
        PlainStyled(s.out, ch, []);
      }
    }
  }

  /** Colouring only inserts styles: it writes each character once, in order, and
      every other piece is a token style. */
  lemma {:induction false} PaintAllKeepsText(p: Painter, s: string)
    ensures Plain(PaintAll(p, s).out) == s
    ensures AllPieces(PaintAll(p, s).out)
    decreases |s|, 1
  {
    if s != [] {
      var init, ch := s[..|s| - 1], s[|s| - 1];
      assert init + [ch] == s;
      PaintOneMoreKeepsText(p, init, ch);
    }
  }

  lemma {:induction false} PaintOneMoreKeepsText(p: Painter, init: string, ch: char)
    ensures Plain(PaintAll(p, init + [ch]).out) == init + [ch]
    ensures AllPieces(PaintAll(p, init + [ch]).out)
    decreases |init| + 1, 0
  {
    var prev := PaintAll(p, init);
    var last := PaintChar(prev.painter, ch);
    assert (init + [ch])[..|init|] == init;
    assert PaintAll(p, init + [ch]).out == prev.out + last.out;
    PaintAllKeepsText(p, init);
    PaintCharKeepsText(prev.painter, ch);
    KeepsTextAppend(prev.out, last.out, init, [ch]);
  }

  lemma KeepsTextAppend(a: seq<Control>, b: seq<Control>, x: string, y: string)
    requires Plain(a) == x && AllPieces(a)
    requires Plain(b) == y && AllPieces(b)
    ensures Plain(a + b) == x + y && AllPieces(a + b)
  {
    PlainAppend(a, b);
    PiecesAppend(a, b);
  }

  /** Inside quotes nothing but the character is written: quoting suspends the
      detection of token boundaries. */
  lemma QuotedCharsAreNotStyled(p: Painter, ch: char)
    requires p.inSingle || p.inDouble
    ensures PaintChar(p, ch).out == [Text([ch])]
  {
  }

  lemma PaintAllStep(p: Painter, s: string, i: nat)
    requires i < |s|
    ensures var prev := PaintAll(p, s[..i]);
      var last := PaintChar(prev.painter, s[i]);
      PaintAll(p, s[..i + 1]) == Painted(last.painter, prev.out + last.out)
  {
    assert s[..i + 1][..i] == s[..i];
  }

  /** The colouring with its opening style and closing reset shows exactly the line. */
  lemma ColorizedText(input: string)
    ensures Plain([Sgr(FgBrBlue)] + PaintAll(Start, input).out + [Sgr(Reset)]) == input
  {
    PaintAllKeepsText(Start, input);
    PlainAppend([Sgr(FgBrBlue)], PaintAll(Start, input).out);
    PlainAppend([Sgr(FgBrBlue)] + PaintAll(Start, input).out, [Sgr(Reset)]);
    SgrPlain([Sgr(FgBrBlue)]);
    SgrPlain([Sgr(Reset)]);
  }

  /** The body of the colouring loop for one character `ch`: updates the mode and
      the quote flags and appends what is written for `ch` to `out`. */
  method PaintStep(mode0: Mode, atTokenStart0: bool, inSingle0: bool, inDouble0: bool, ch: char, out0: seq<Control>)
    returns (mode: Mode, atTokenStart: bool, inSingle: bool, inDouble: bool, out: seq<Control>)
    ensures var step := PaintChar(Painter(mode0, atTokenStart0, inSingle0, inDouble0), ch);
      Painter(mode, atTokenStart, inSingle, inDouble) == step.painter && out == out0 + step.out
  {
    ghost var step := PaintChar(Painter(mode0, atTokenStart0, inSingle0, inDouble0), ch);
    mode, atTokenStart, inSingle, inDouble := mode0, atTokenStart0, inSingle0, inDouble0;
    var piece: seq<Control> := [];
    if !inSingle && !inDouble && (ch == '\'' || ch == '"') {
      if mode != Value {
        mode := Value;
        piece := piece + ModeStyle(Value);
      }
      if ch == '\'' {
        inSingle := true;
      } else {
        inDouble := true;
      }
      piece := piece + [Text([ch])];
      atTokenStart := false;
    } else if inSingle && ch == '\'' {
      inSingle := false;
      piece := piece + [Text([ch])];
    } else if inDouble && ch == '"' {
      inDouble := false;
      piece := piece + [Text([ch])];
    } else if inSingle || inDouble {
      piece := piece + [Text([ch])];
    } else if ch == ' ' {
      piece := piece + [Text([ch])];
      atTokenStart := true;
      mode := Idle;
    } else {
      if atTokenStart {
        if mode != Command {
          var next := if ch == '-' then Option else Arg;
          if mode != next {
            mode := next;
            piece := piece + ModeStyle(next);
          }
        }
        atTokenStart := false;
      }
      piece := piece + [Text([ch])];
      if ch == '=' && mode != Value {
        mode := Value;
        piece := piece + ModeStyle(Value);
      }
    }
    assert piece == step.out;
    out := out0 + piece;
  }

  /** The colouring of the line: starts in the command style, ends with the reset. */
  method Colorize(input: string) returns (out: seq<Control>)
    ensures out == [Sgr(FgBrBlue)] + PaintAll(Start, input).out + [Sgr(Reset)]
  {
    var body: seq<Control> := [];
    var p := Start;
    var i := 0;
    while i < |input|
      invariant 0 <= i <= |input|
      invariant PaintAll(Start, input[..i]) == Painted(p, body)
    {
      var mode, atTokenStart, inSingle, inDouble, o := PaintStep(p.mode, p.atTokenStart, p.inSingle, p.inDouble, input[i], body);
      PaintAllStep(Start, input, i);
      p, body := Painter(mode, atTokenStart, inSingle, inDouble), o;
      i := i + 1;
    }
    assert input[..i] == input;
    out := [Sgr(FgBrBlue)] + body + [Sgr(Reset)];
  }

  // ---------------------------------------------------------------------------
  // The renderer's bookkeeping and its operations
  // ---------------------------------------------------------------------------

  /** The erase loop of a repaint, proved against `Erase`. */
  method EraseRendered(promptLines: int, cursorLine: int) returns (out: seq<Control>)
    ensures out == Erase(promptLines, cursorLine)
  {
    out := [];
    var downCount := promptLines - cursorLine;
    if downCount > 0 {
      out := out + [CursorDown(downCount)];
    }
    ghost var down := out;
    if promptLines > 0 {
      out := out + [CarriageReturn];
      var i := 0;
      while i < promptLines - 1
        invariant 0 <= i <= promptLines - 1
        invariant out == down + [CarriageReturn] + EraseUpward(i)
      {
        out := out + [EraseLine, PrecedingLine];
        i := i + 1;
      }
      out := out + [EraseLine];
    }
  }

  /** The bookkeeping and cursor placement at the end of a repaint, proved against
      `RowCount`, `LineAfterPrompt` and `Reposition`. */
  method Layout(totalLength: nat, targetCursorPos: nat, width: int) returns (lines: int, line: int, moves: seq<Control>)
    requires 1 <= width
    ensures lines == RowCount(totalLength, width)
    ensures line == LineAfterPrompt(totalLength, targetCursorPos, width)
    ensures moves == Reposition(totalLength, targetCursorPos, width)
  {
    var cols := Max(1, width);
    lines := Max(1, (totalLength + cols - 1) / cols);
    line := lines;
    var endRow := totalLength / cols - (if totalLength % cols == 0 then 1 else 0);
    var targetRow := targetCursorPos / cols;
    var targetCol := targetCursorPos % cols + 1;
    var upCount := endRow - targetRow;
    moves := [];
    if upCount > 0 {
      moves := moves + [CursorUp(upCount)];
      line := line - upCount;
    }
    moves := moves + [CharacterAbsolute(targetCol)];
  }

  /** The renderer's state, shared by every prompt: how many rows the last repaint
      took and on which of them (from 1) the cursor was left. */
  class Console {
    var promptLines: int
    var cursorLine: int

    constructor ()
      ensures promptLines == 1 && cursorLine == 1
    {
      promptLines := 1;
      cursorLine := 1;
    }

    /** Writes the greeting line; the bookkeeping is left as it is. */
    method Welcome(t: Terminal)
      modifies t`written
      ensures t.written == old(t.written) + [Line(Render(Sgr(FgBrBlue)) + WelcomeText)]
    {
      t.written := t.written + [Line(Render(Sgr(FgBrBlue)) + WelcomeText)];
    }

    /** Erases the previous rendering, draws the prompt and the coloured line, and
        puts the cursor at the editor's position. */
    method Prompt(t: Terminal)
      requires t.Valid()
      modifies this, t`written
      ensures var total := Utf16.Length(t.prompt) + Utf16.Length(t.input);
        promptLines == RowCount(total, Max(1, t.cols))
      ensures cursorLine == LineAfterPrompt(Utf16.Length(t.prompt) + Utf16.Length(t.input),
                                            Utf16.Length(t.prompt) + t.cursorPos, Max(1, t.cols))
      ensures t.written == old(t.written)
        + Erase(old(promptLines), old(cursorLine))
        + PromptPrefix(t.username, t.hostname, t.cwd, t.mark)
        + ([Sgr(FgBrBlue)] + PaintAll(Start, t.input).out + [Sgr(Reset)])
        + Reposition(Utf16.Length(t.prompt) + Utf16.Length(t.input), Utf16.Length(t.prompt) + t.cursorPos, Max(1, t.cols))
    {
      var promptLen := Utf16.Length(t.prompt);
      var input, total, target := t.input, promptLen + Utf16.Length(t.input), promptLen + t.cursorPos;
      var erase := EraseRendered(promptLines, cursorLine);
      var prefix := PromptPrefix(t.username, t.hostname, t.cwd, t.mark);
      var colored := Colorize(input);
      var moves;
      promptLines, cursorLine, moves := Layout(total, target, Max(1, t.cols));
      t.written := t.written + erase + prefix + colored + moves;
    }

    /** Submitting the line: down to the last rendered row, then a new line. The
        bookkeeping is left as it is. */
    method Enter(t: Terminal)
      modifies t`written
      ensures t.written == old(t.written)
        + (if promptLines - cursorLine > 0 then [CursorDown(promptLines - cursorLine)] else [])
        + [Line("")]
    {
      var downCount := promptLines - cursorLine;
      if downCount > 0 {
        t.written := t.written + [CursorDown(downCount)];
      }
      t.written := t.written + [Line("")];
    }

    /** A line of command output: the next repaint has a single row to erase; the
        recorded cursor line is not touched. */
    method Out(t: Terminal, output: string)
      modifies this`promptLines, t`written
      ensures promptLines == 1 && cursorLine == old(cursorLine)
      ensures t.written == old(t.written) + [Line(output)]
    {
      promptLines := 1;
      t.written := t.written + [Line(output)];
    }

    /** Clears the display and homes the cursor. */
    method Clear(t: Terminal)
      modifies t`written
      ensures t.written == old(t.written) + [ClearScreen]
    {
      t.written := t.written + [ClearScreen];
    }

    method MoveCursorLeft(t: Terminal)
      requires t.Valid()
      modifies this`cursorLine, t`cursorPos, t`written
      ensures t.Valid()
      ensures var n := LeftNudge(old(t.cursorPos), old(cursorLine), Utf16.Length(t.prompt), t.cols);
        && t.cursorPos == n.cursorPos && cursorLine == n.cursorLine
        && t.written == old(t.written) + n.emitted
    {
      if t.cursorPos > 0 {
        var realCursorPos := t.cursorPos + Utf16.Length(t.prompt);
        // A width of 0 gives NaN in JavaScript, which is not 0.
        if t.cols != 0 && realCursorPos % t.cols == 0 {
          t.written := t.written + [CursorUp(1), CursorRight(t.cols)];
          cursorLine := cursorLine - 1;
        } else {
          t.written := t.written + [CursorLeftOne];
        }
        t.cursorPos := t.cursorPos - 1;
      }
    }

    method MoveCursorRight(t: Terminal)
      requires t.Valid()
      modifies this`cursorLine, t`cursorPos, t`written
      ensures t.Valid()
      ensures var n := RightNudge(old(t.cursorPos), old(cursorLine), Utf16.Length(t.input), Utf16.Length(t.prompt), t.cols);
        && t.cursorPos == n.cursorPos && cursorLine == n.cursorLine
        && t.written == old(t.written) + n.emitted
    {
      if t.cursorPos < Utf16.Length(t.input) {
        var realCursorPos := t.cursorPos + Utf16.Length(t.prompt);
        if t.cols != 0 && (realCursorPos + 1) % t.cols == 0 {
          t.written := t.written + [CursorDown(1), CursorLeft(t.cols)];
          cursorLine := cursorLine + 1;
        } else {
          t.written := t.written + [CursorRightOne];
        }
        t.cursorPos := t.cursorPos + 1;
      }
    }

    method MoveCursorHome(t: Terminal)
      requires t.Valid()
      modifies this`cursorLine, t`cursorPos, t`written
      ensures t.Valid()
      ensures var n := HomeNudge(old(cursorLine), Utf16.Length(t.prompt));
        && t.cursorPos == n.cursorPos && cursorLine == n.cursorLine
        && t.written == old(t.written) + n.emitted
    {
      t.cursorPos := 0;
      if cursorLine > 1 {
        t.written := t.written + [CursorUp(cursorLine - 1)];
        cursorLine := 1;
      }
      t.written := t.written + [CharacterAbsolute(Utf16.Length(t.prompt) + 1)];
    }

    method MoveCursorEnd(t: Terminal)
      requires t.Valid()
      modifies this`cursorLine, t`cursorPos, t`written
      ensures t.Valid()
      ensures var n := EndNudge(old(cursorLine), promptLines, Utf16.Length(t.input), Utf16.Length(t.prompt), t.cols);
        && t.cursorPos == n.cursorPos && cursorLine == n.cursorLine
        && t.written == old(t.written) + n.emitted
    {
      t.cursorPos := Utf16.Length(t.input);
      if cursorLine != promptLines {
        t.written := t.written + [CursorDown(promptLines - cursorLine)];
        cursorLine := promptLines;
      }
      var totalLength := Utf16.Length(t.prompt) + Utf16.Length(t.input);
      var cols := Max(1, t.cols);
      var targetCol := totalLength % cols + 1;
      t.written := t.written + [CharacterAbsolute(targetCol)];
    }
  }
}
