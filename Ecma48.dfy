/** The control functions the console sends to the display (ECMA-48, section 8.3),
    the exact characters each one is written as, and a small model of how the
    cursor-movement and erase functions act on the display's cursor. */
module Ecma48 {

  /** One piece of console output. `Render` gives the characters the display
      receives for it; the display sees the concatenation of the pieces in order. */
  datatype Control =
    | CursorUp(n: int)            // CUU: ESC [ n A
    | CursorDown(n: int)          // CUD: ESC [ n B
    | CursorRight(n: int)         // CUF: ESC [ n C
    | CursorLeft(n: int)          // CUB: ESC [ n D
    | CursorRightOne              // CUF with its default parameter: ESC [ C
    | CursorLeftOne               // CUB with its default parameter: ESC [ D
    | CharacterAbsolute(n: int)   // CHA: ESC [ n G
    | EraseLine                   // EL with parameter 2 (whole line): ESC [ 2 K
    | PrecedingLine               // CPL with its default parameter: ESC [ F
    | CarriageReturn              // CR
    | ClearScreen                 // ED 2 then HVP 0: ESC [ 2 J ESC [ 0 f
    | Sgr(code: nat)              // SGR: ESC [ code m
    | Text(s: string)             // characters shown as they are
    | Line(s: string)             // characters followed by CR LF

  const Csi: string := "\U{1b}["

  /** Decimal digit of 0 <= d < 10. */
  function DigitChar(d: nat): (c: char)
    requires d < 10
    ensures '0' <= c <= '9' && c as int - '0' as int == d
  {
    (('0' as int) + d) as char
  }

  /** Decimal notation of a natural number, as JavaScript's template strings print it. */
  function NatToString(n: nat): (s: string)
    ensures 1 <= |s|
    ensures forall i :: 0 <= i < |s| ==> '0' <= s[i] <= '9'
    ensures 1 < |s| ==> s[0] != '0'
    ensures DigitsValue(s) == n
  {
    if n < 10 then [DigitChar(n)] else NatToString(n / 10) + [DigitChar(n % 10)]
  }

  /** The number a string of decimal digits denotes (the partner of NatToString). */
  function DigitsValue(s: string): int
  {
    if s == [] then 0 else 10 * DigitsValue(s[..|s| - 1]) + (s[|s| - 1] as int - '0' as int)
  }

  /** Decimal notation of an integer, with a leading minus sign when negative. */
  function IntToString(n: int): string
  {
    if n < 0 then "-" + NatToString(-n) else NatToString(n)
  }

  function Render(c: Control): string
  {
    match c
    case CursorUp(n) => Csi + IntToString(n) + "A"
    case CursorDown(n) => Csi + IntToString(n) + "B"
    case CursorRight(n) => Csi + IntToString(n) + "C"
    case CursorLeft(n) => Csi + IntToString(n) + "D"
    case CursorRightOne => Csi + "C"
    case CursorLeftOne => Csi + "D"
    case CharacterAbsolute(n) => Csi + IntToString(n) + "G"
    case EraseLine => Csi + "2K"
    case PrecedingLine => Csi + "F"
    case CarriageReturn => "\r"
    case ClearScreen => Csi + "2J" + Csi + "0f"
    case Sgr(code) => Csi + NatToString(code) + "m"
    case Text(s) => s
    case Line(s) => s + "\r\n"
  }

  /** The characters the display receives for a sequence of pieces. */
  function Stream(cs: seq<Control>): string
  {
    if cs == [] then "" else Stream(cs[..|cs| - 1]) + Render(cs[|cs| - 1])
  }

  // ---------------------------------------------------------------------------
  // Effect of the cursor-movement and erase functions on the display.
  // Rows are numbered relative to the rendered prompt; columns from 1.
  // ---------------------------------------------------------------------------

  datatype Cursor = Cursor(row: int, col: int, erased: set<int>)

  /** The pieces whose effect on the cursor this model describes. */
  predicate IsMotion(c: Control)
  {
    || c.CursorUp? || c.CursorDown? || c.CursorRight? || c.CursorLeft?
    || c.CursorRightOne? || c.CursorLeftOne? || c.CharacterAbsolute?
    || c.EraseLine? || c.PrecedingLine? || c.CarriageReturn?
  }

  predicate AllMotions(cs: seq<Control>)
  {
    forall i :: 0 <= i < |cs| ==> IsMotion(cs[i])
  }

  /** How far CUU, CUD, CUF and CUB move for the parameter written as `n`. A zero
      parameter moves by one, as the default does. A negative number is written with
      a leading `-`, which section 5.4 of ECMA-48 makes an intermediate byte rather
      than part of a parameter; the display then does not take the sequence for one
      of these functions and does not move. */
  function Steps(n: int): (k: nat)
    ensures n < 0 ==> k == 0
    ensures 0 < n ==> k == n
  {
    if n < 0 then 0 else if n == 0 then 1 else n
  }

  function Move(p: Cursor, c: Control): Cursor
    requires IsMotion(c)
  {
    match c
    case CursorUp(n) => p.(row := p.row - Steps(n))
    case CursorDown(n) => p.(row := p.row + Steps(n))
    case CursorRight(n) => p.(col := p.col + Steps(n))
    case CursorLeft(n) => p.(col := p.col - Steps(n))
    case CursorRightOne => p.(col := p.col + 1)
    case CursorLeftOne => p.(col := p.col - 1)
    case CharacterAbsolute(n) => p.(col := n)
    case EraseLine => p.(erased := p.erased + {p.row})
    case PrecedingLine => p.(row := p.row - 1, col := 1)
    case CarriageReturn => p.(col := 1)
  }

  /** A negative parameter is written with a leading `-` after the CSI, and the
      display does not move for it. */
  lemma NegativeParameterIgnored(p: Cursor, n: int)
    requires n < 0
    ensures Render(CursorDown(n))[|Csi|] == '-' && Move(p, CursorDown(n)) == p
    ensures Render(CursorUp(n))[|Csi|] == '-' && Move(p, CursorUp(n)) == p
    ensures Render(CursorRight(n))[|Csi|] == '-' && Move(p, CursorRight(n)) == p
    ensures Render(CursorLeft(n))[|Csi|] == '-' && Move(p, CursorLeft(n)) == p
  {
  }

  /** The cursor after the display has acted on `cs`, in order. */
  function Run(p: Cursor, cs: seq<Control>): Cursor
    requires AllMotions(cs)
    decreases |cs|
  {
    if cs == [] then p else Run(Move(p, cs[0]), cs[1..])
  }

  lemma {:induction false} RunAppend(p: Cursor, a: seq<Control>, b: seq<Control>)
    requires AllMotions(a) && AllMotions(b)
    ensures AllMotions(a + b)
    ensures Run(p, a + b) == Run(Run(p, a), b)
    decreases |a|
  {
    if a != [] {
      assert (a + b)[1..] == a[1..] + b;
      RunAppend(Move(p, a[0]), a[1..], b);
    } else {
      assert a + b == b;
    }
  }

  lemma RunOne(p: Cursor, a: Control)
    requires IsMotion(a)
    ensures AllMotions([a]) && Run(p, [a]) == Move(p, a)
  {
    assert [a][1..] == [];
  }

  lemma RunTwo(p: Cursor, a: Control, b: Control)
    requires IsMotion(a) && IsMotion(b)
    ensures AllMotions([a, b]) && Run(p, [a, b]) == Move(Move(p, a), b)
  {
    assert [a, b][1..] == [b];
    RunOne(Move(p, a), b);
  }

  /** `count` copies of "erase this line, go to the preceding one". */
  function EraseUpward(count: nat): (cs: seq<Control>)
    ensures |cs| == 2 * count && AllMotions(cs)
  {
    if count == 0 then [] else EraseUpward(count - 1) + [EraseLine, PrecedingLine]
  }

  /** Starting at column 1 of `row`, `EraseUpward(count)` erases that row and the
      `count - 1` rows above it and leaves the cursor at column 1, `count` rows up. */
  lemma {:induction false} EraseUpwardEffect(row: int, erased: set<int>, count: nat)
    ensures var q := Run(Cursor(row, 1, erased), EraseUpward(count));
      && q.row == row - count && q.col == 1
      && forall r :: r in q.erased <==> r in erased || row - count < r <= row
  {
    if count > 0 {
      var pre := EraseUpward(count - 1);
      EraseUpwardEffect(row, erased, count - 1);
      RunAppend(Cursor(row, 1, erased), pre, [EraseLine, PrecedingLine]);
    }
  }
}
