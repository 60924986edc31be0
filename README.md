# termdo-web terminal core, modelled in Dafny

termdo-web is a browser terminal for a to-do service. This project models the
logic under the widget:

- **Line parsing.** `Input.parse` is a quote- and escape-aware tokenizer that
  splits a line into a command and its arguments. `Option.parse` turns the
  arguments into `{option, value}` pairs. It splices the value arguments it takes
  out of the caller's array while it walks that array.
- **Prompt renderer.** `Console` is a class with two static fields,
  `promptLines` and `cursorLine`. It redraws the prompt and the edited line
  across rows of a fixed-width display, using ECMA-48 control functions. It
  keeps the cursor where the editor has it, moves it left, right, home and end,
  and colours the line by token kind.
- **Commands.** The built-in commands `help`, `echo`, `whoami`, `which`,
  `history`, `su`, `adduser` and `exit`. They write through the console and
  update the session's user, where "root" is the anonymous, elevated user.
- **Result and decoding types.** The two-variant `Either` (`Left`/`Right`). The
  JSON shape checks for the API envelope (`ApiResponse`, `Hostnames`,
  `HttpStatus`, `ServerError`) and the `fromData` decoders of `TaskModel` and
  `AccountModel`.

## Modules

- `Ecma48`: the output pieces (CUU, CUD, CUF, CUB, CHA, EL, CPL, CR, SGR, text,
  line). It fixes the characters each piece is written as, and gives a small
  model of how the motion and erase functions move the display's cursor.
- `Utf16`: string length as JavaScript's `.length` counts it, in UTF-16 code
  units. The layout arithmetic and the key-length checks of the flags use it.
  The tokenizer and the colouring walk the text one character at a time, as
  `for…of` does.
- `Terminal`: a class holding the terminal state the core reads and updates.
  That is the user, the prompt, the edited line and its cursor, the history,
  the width, and everything written so far as a sequence of pieces.
- `Console`:
  - the row and column arithmetic of a repaint, and the erase phase;
  - the cursor nudges, as functions;
  - the colouring, as a state machine `PaintChar`/`PaintAll` with a loop
    `Colorize` proved against it;
  - the class `Console`, whose methods change `promptLines`, `cursorLine` and
    the terminal in place.
- `Input`: the tokenizer as a fold `FeedAll` of a one-character step `Feed`,
  and the loop `Parse` proved against it.
- `Options`:
  - `Classify` reads one argument;
  - `Scan` is a specification of the whole walk;
  - `Parse` is the in-place loop over a mutable `ArgList`, proved against
    `Scan`.
- `Commands`: each handler as a reply function (the lines it prints and the
  user it leaves), and as a method writing through `Console.Out`.
- `Either`, `Json`, `Schemas`, `Models`: the result type, parsed JSON values with
  absent members distinct from `null`, the shape checks, and the decoders.

## Model

| member | source | states |
|---|---|---|
| Ecma48.NatToString | source/terminal/Console.ts:21 | a number in a control function is written in decimal: nonempty, all digits, no leading zero, and the digits read back as the number |
| Ecma48.NegativeParameterIgnored | source/terminal/Console.ts:115-118 | a negative count is written with a `-` after the CSI, and the display does not move for it |
| Ecma48.RunAppend | source/terminal/Console.ts:57 | the display acts on concatenated output as on its parts in order |
| Ecma48.EraseUpwardEffect | source/terminal/Console.ts:25-27 | `count` copies of EL+CPL from column 1 of a row erase that row and the `count - 1` above it and leave the cursor `count` rows up at column 1 |
| Console.RowCountIsLeast | source/terminal/Console.ts:39-41 | the recorded row count is the least number of `cols`-wide rows, at least one, that hold prompt plus line |
| Console.LineAfterPromptInRange | source/terminal/Console.ts:42-54 | after a repaint the recorded cursor line lies in `[1, promptLines]` and is the row the cursor is shown on |
| Console.RepositionLands | source/terminal/Console.ts:44-55 | the moves after the text take the display cursor from the last row to the recorded line and to column `target % cols + 1`, which lies in `[1, cols]` |
| Console.NoUpwardMoveAtEnd | source/terminal/Console.ts:45-52 | with the cursor at the end of the line no upward move is written, also when the text exactly fills its last row |
| Console.EraseClearsPrompt | source/terminal/Console.ts:19-29 | when the recorded line is within the rendered rows, the erase phase erases exactly rows 1..promptLines and ends at column 1 of row 1 |
| Console.EraseAfterOvershootMissesFirstRow | source/terminal/Console.ts:19-29 | when the recorded line is one past the last row, the erase phase misses row 1 and erases the row below the prompt |
| Console.LeftNudge | source/terminal/Console.ts:78-89 | no change when the cursor is at 0; otherwise the cursor moves back one, and the line goes up one exactly when the width is nonzero and divides `cursorPos + promptLen`; a width of 0 never changes the line, since JavaScript's `x % 0` is `NaN` |
| Console.RightNudge | source/terminal/Console.ts:91-102 | no change at the end of the line; otherwise the cursor moves on one, and the line goes down one exactly when the width is nonzero and divides `cursorPos + promptLen + 1`; a width of 0 never changes the line |
| Console.HomeNudge | source/terminal/Console.ts:104-111 | the cursor goes to 0, a line of at least 1 becomes 1, and the last move is to the column after the prompt |
| Console.EndNudge | source/terminal/Console.ts:113-124 | the cursor goes to the end of the line, the line becomes `promptLines`, and the last move is to column `(promptLen + inputLen) % w + 1` in `[1, w]`, where `w` is the width clamped to at least 1 |
| Console.RightUndoesLeft | source/terminal/Console.ts:78-102 | a step right after a step left gives back both the cursor position and the recorded line |
| Console.NudgesTrackDisplay | source/terminal/Console.ts:78-124 | each step left or right and the jump home move the display cursor by exactly the rows they add to the recorded line; the jump to the end does so when the recorded line is not below the last rendered row |
| Console.LeftNudgeKeepsLine | source/terminal/Console.ts:78-89 | away from the full-row end, a step left keeps the recorded line equal to the displayed row, within `[1, promptLines]` |
| Console.RightNudgeKeepsLine | source/terminal/Console.ts:91-102 | away from the full-row end, a step right keeps the recorded line equal to the displayed row, within `[1, promptLines]` |
| Console.RightNudgeOvershootsAtFullRow | source/terminal/Console.ts:91-102 | a step right onto the end of a text that fills its last row records `promptLines + 1` |
| Console.EndAfterOvershootStaysBelow | source/terminal/Console.ts:91-118 | after a step right has overshot, the jump to the end writes CUD with the count -1, records `promptLines` and leaves the display cursor on the row below it |
| Console.LeftNudgeUndershootsAtFullRow | source/terminal/Console.ts:78-89 | a step left from that end records one row above the one the cursor is shown on; on a one-row prompt that is line 0 |
| Console.PaintCharKeepsText | source/terminal/Console.ts:181-225 | each character writes itself once, with only token styles around it |
| Console.PaintAllKeepsText | source/terminal/Console.ts:180-226 | leaving out the styles from the colouring gives back the input, every character once and in order, and every other piece is one of the four token styles |
| Console.QuotedCharsAreNotStyled | source/terminal/Console.ts:189-202 | inside quotes a character is written alone, with no style change |
| Console.ColorizedText | source/terminal/Console.ts:144-228 | the whole colouring, from the command style to the reset, shows exactly the line |
| Console.PaintChar | source/terminal/Console.ts:181-225 | one character of the colouring: an opening quote switches to the value style and opens that quote; the matching quote closes it; inside quotes a character is written as it is; a space is written and then ends the token with no style; at a token start outside the command a `-` switches to the option style and anything else to the argument style; an `=` is written and then switches to the value style; a style is written only when the mode changes |
| Console.PaintStep | source/terminal/Console.ts:181-225 | one pass of the colouring loop computes the state and the pieces `PaintChar` specifies |
| Console.Colorize | source/terminal/Console.ts:136-229 | the loop writes the command style, then the colouring of every character, then the reset |
| Console.EraseRendered | source/terminal/Console.ts:19-29 | the erase loop writes CUD only for a positive difference, then CR, `promptLines - 1` copies of EL+CPL and one EL |
| Console.Layout | source/terminal/Console.ts:39-55 | the new row count, cursor line and cursor moves are the ones `RowCount`, `LineAfterPrompt` and `Reposition` specify |
| Console.Console.constructor | source/terminal/Console.ts:6-7 | both static fields start at 1 |
| Console.Console.Welcome | source/terminal/Console.ts:9-14 | writes the styled greeting, whose text ends in CR LF, through `writeln`, which adds another CR LF: the greeting is followed by a blank line |
| Console.Console.Prompt | source/terminal/Console.ts:16-58 | writes the erase phase for the old bookkeeping, the styled prompt, the colouring and the cursor moves, and records the new row count and cursor line; lengths are UTF-16 lengths and the width is clamped to at least 1 |
| Console.Console.Enter | source/terminal/Console.ts:60-66 | moves down by `promptLines - cursorLine` only when that is positive, then ends the line |
| Console.Console.Out | source/terminal/Console.ts:68-72 | sets `promptLines` to 1, leaves `cursorLine`, writes the output as a line |
| Console.Console.Clear | source/terminal/Console.ts:74-76 | writes the clear-screen sequence |
| Console.Console.MoveCursorLeft | source/terminal/Console.ts:78-89 | the cursor, recorded line and output are those of `LeftNudge` |
| Console.Console.MoveCursorRight | source/terminal/Console.ts:91-102 | the cursor, recorded line and output are those of `RightNudge` |
| Console.Console.MoveCursorHome | source/terminal/Console.ts:104-111 | the cursor, recorded line and output are those of `HomeNudge` |
| Console.Console.MoveCursorEnd | source/terminal/Console.ts:113-124 | the cursor, recorded line and output are those of `EndNudge` |
| Utf16.LengthCountsUnits | source/terminal/Console.ts:40 | `.length` is the number of UTF-16 code units: one per character below U+10000, a surrogate pair for any other |
| Utf16.LengthAppend | source/terminal/Console.ts:40 | the length of a concatenation is the sum of the lengths |
| Utf16.BmpLength | source/app/helpers/Option.ts:17 | for text in the Basic Multilingual Plane the length is the number of characters |
| Utf16.LengthOne | source/app/helpers/Option.ts:53 | length 1 is exactly one character below U+10000 |
| Input.Feed | source/app/helpers/Input.ts:14-61 | one character of the tokenizer: a pending escape adds the character as it is; a backslash starts an escape; inside a quote only that quote closes it and every other character is kept; outside quotes a quote opens, `\s` whitespace ends a non-empty token, and anything else extends the token |
| Input.Parse | source/app/helpers/Input.ts:7-70 | the loop computes the fold of the character step, then splits off the command; no argument is empty, and an empty command has no arguments |
| Input.FeedAllAppend | source/app/helpers/Input.ts:14-61 | tokenizing two pieces one after the other is tokenizing their concatenation |
| Input.TokensAreNotEmpty | source/app/helpers/Input.ts:52-69 | no emitted token is ever empty, and an empty command comes with no arguments |
| Input.BlankInput | source/app/helpers/Input.ts:52-69 | a line of whitespace gives command `""` and no arguments |
| Input.EscapeIsLiteral | source/app/helpers/Input.ts:15-24 | in any state, a backslash and a character add just that character, also inside quotes |
| Input.PlainTextExtends | source/app/helpers/Input.ts:60 | outside quotes, plain characters extend the current token |
| Input.QuotedTextExtends | source/app/helpers/Input.ts:26-42 | inside a quote every character but that quote (and backslash) is kept verbatim, whitespace and the other quote included |
| Input.QuotedSegment | source/app/helpers/Input.ts:26-51 | a quoted segment adds its text to the current token and the quotes do not appear |
| Input.JoinThenParse | source/app/helpers/Input.ts:52-69 | for plain words, parsing their single-space join gives the same words back, the first as the command |
| Input.QuotedArgument | source/app/helpers/Input.ts:44-66 | a quoted argument is one token without its quotes; an empty one gives no token |
| Input.AdjacentQuotedArgument | source/app/helpers/Input.ts:44-51 | adjacent quoted segments make one token |
| Input.QuotedThenWord | source/app/helpers/Input.ts:44-58 | a closing quote does not end a token; the space after it does |
| Input.UnterminatedQuote | source/app/helpers/Input.ts:63-66 | an unterminated quote still emits its text |
| Input.AdjacentQuotesExample | source/app/helpers/Input.ts:44-60 | `a 'it''s'` gives command `a` and arguments `["its"]` |
| Input.EmptyQuotesExample | source/app/helpers/Input.ts:53-66 | `a ""` gives no arguments |
| Input.QuotedSpaceExample | source/app/helpers/Input.ts:35-58 | `a "b c" d` gives `["b c", "d"]` |
| Input.UnterminatedQuoteExample | source/app/helpers/Input.ts:63-66 | `a 'b c` gives `["b c"]` |
| Input.EscapedSpaceExample | source/app/helpers/Input.ts:15-24 | an escaped space joins two words into one command |
| Input.TrailingBackslashExample | source/app/helpers/Input.ts:63-65 | a trailing lone backslash stays as a literal backslash |
| Options.FirstEquals | source/app/helpers/Option.ts:12 | the index of the first `=` |
| Options.SplitAtEquals | source/app/helpers/Option.ts:12-42 | `split("=", 2)`: the text before the first `=` and the text up to the next `=` or the end, neither holding `=` |
| Options.SplitIsUnique | source/app/helpers/Option.ts:12 | the split of `head=value` followed by nothing or another `=` is exactly `(head, value)` |
| Options.Classify | source/app/helpers/Option.ts:10-70 | one argument on its own: after `--`, a key of at least 2 code units with the value after the first `=` up to the next, or a bare key; after a single `-`, the same with a key of exactly 1 code unit; anything else is no flag |
| Options.ClassifyLongFlag | source/app/helpers/Option.ts:10-25 | `--key=value` and `--key`, with a key of at least 2 UTF-16 code units, read as that key and value, or as a bare key |
| Options.ClassifyShortFlag | source/app/helpers/Option.ts:40-55 | `-k=value` and `-k`, with a key of exactly 1 UTF-16 code unit, read the same way |
| Options.ClassifyCutsAtSecondEquals | source/app/helpers/Option.ts:12 | in `--k=v=w` the value is `v` |
| Options.AstralKeys | source/app/helpers/Option.ts:16-53 | a key of one character outside the Basic Multilingual Plane, two code units long, is no short flag but is a long one |
| Options.MalformedFlags | source/app/helpers/Option.ts:16-55 | `-`, `--`, `--x`, `-ab`, `--=v` and a plain word are no flag |
| Options.PlainArgIsNotAFlag | source/app/helpers/Option.ts:10-40 | an argument not starting with `-` is no flag |
| Options.ScanHead | source/app/helpers/Option.ts:26-67 | a value is taken from the next argument only when there is one |
| Options.Parse | source/app/helpers/Option.ts:7-73 | the in-place walk returns the options `Scan` specifies and leaves in the caller's list exactly what `Scan` keeps |
| Options.ParseAt | source/app/helpers/Option.ts:10-70 | one pass over the argument at `index` finds what `ScanHead` specifies and splices out the next argument exactly when it is taken |
| Options.TakeValue | source/app/helpers/Option.ts:26-37 | a bare flag takes the next argument as its value, and splices it out, exactly when it exists and does not start with `-` |
| Options.ScanAt | source/app/helpers/Option.ts:9-63 | scanning from `index` scans that argument, then goes on after the value it took |
| Options.ParseStep | source/app/helpers/Option.ts:9-63 | after a splice the next index holds the argument that followed the value: none is skipped or seen twice |
| Options.ScanKeepsFlags | source/app/helpers/Option.ts:33-63 | every `-`-argument stays, and what is left keeps its order |
| Options.ScanRemovesOnlyTaken | source/app/helpers/Option.ts:26-63 | only taken values leave the list: what is kept is the arguments without those that follow a bare flag and do not start with `-`, in order |
| Options.ScanKeepsUntaken | source/app/helpers/Option.ts:26-63 | scanning from an argument that is not a taken value keeps exactly the untaken arguments from there on |
| Options.ScanKeysFollowFlags | source/app/helpers/Option.ts:9-72 | the options come out in the order of their flag arguments, one per flag |
| Options.ScanExample | source/app/helpers/Option.ts:26-37 | `--title "My Task" --completed` gives `title = My Task` and a bare `completed`, and removes `My Task` |
| Options.ValuedShortFlagExample | source/app/helpers/Option.ts:41-50 | `-c=true` gives `c = true` |
| Options.BareShortFlagsExample | source/app/helpers/Option.ts:56-67 | `-a -b`: a bare flag followed by a flag takes no value |
| Commands.Lines | source/terminal/Console.ts:68-72 | the output lines become one display line each, in order |
| Commands.EchoReply | source/app/helpers/Command.ts:11-18 | usage on a help flag, otherwise one line of the arguments joined by single spaces; the user is kept |
| Commands.WhoamiReply | source/app/helpers/Command.ts:20-27 | usage on a help flag, otherwise the current user's name; the user is kept |
| Commands.WhichReply | source/app/helpers/Command.ts:29-37 | usage on a help flag or without arguments, otherwise `/usr/bin/` plus the first argument; the user is kept |
| Commands.HistoryReply | source/app/helpers/Command.ts:39-48 | usage on a help flag, otherwise every stored line in order; the user is kept |
| Commands.SuReply | source/app/helpers/Command.ts:59-75 | usage on a help flag; an error without a name; an error for a name other than root without a password; otherwise the user becomes the name and the switch is reported |
| Commands.AddUserReplyAsWritten | source/app/helpers/Command.ts:77-96 | usage on a help flag; then errors for fewer than two arguments, a caller other than root and a new user named root, in that order; otherwise a success message naming the current user; the user is kept |
| Commands.AddUserReply | source/app/helpers/Command.ts:77-94 | the same checks in the same order, with the success message naming the new user `args[0]` |
| Commands.ExitReply | source/app/helpers/Command.ts:98-112 | usage on a help flag; a refusal for root; otherwise `Logged out.` and the user becomes root |
| Commands.Help | source/app/helpers/Command.ts:6-9 | writes the two help lines |
| Commands.Echo | source/app/helpers/Command.ts:11-18 | writes the reply `EchoReply` specifies |
| Commands.Whoami | source/app/helpers/Command.ts:20-27 | writes the reply `WhoamiReply` specifies |
| Commands.Which | source/app/helpers/Command.ts:29-37 | writes the reply `WhichReply` specifies |
| Commands.History | source/app/helpers/Command.ts:39-48 | writes every history entry once, in stored order, and nothing else |
| Commands.Su | source/app/helpers/Command.ts:59-75 | writes the reply `SuReply` specifies and sets the user it names |
| Commands.AddUser | source/app/helpers/Command.ts:77-96 | writes the corrected `AddUserReply` and never changes the user |
| Commands.Exit | source/app/helpers/Command.ts:98-112 | writes the reply `ExitReply` specifies and sets the user it names |
| Commands.HelpComesFirst | source/app/helpers/Command.ts:12-103 | a help flag anywhere makes every handler but `help` print its usage and keep the user |
| Commands.PlainCommands | source/app/helpers/Command.ts:17-47 | `echo` prints one line, the arguments joined by single spaces; `whoami` prints the user; `which` prints usage without arguments and `/usr/bin/` plus the first otherwise; `history` prints the stored lines |
| Commands.EchoReadsBack | source/app/helpers/Command.ts:17 | for plain words, the line `echo` prints tokenizes back to the same words |
| Commands.SuSwitches | source/app/helpers/Command.ts:65-74 | `su` switches exactly when a name is given and it is root or a password follows; `su root` needs no password |
| Commands.AddUserChecks | source/app/helpers/Command.ts:83-94 | `adduser` keeps the user and rejects, in this order, missing arguments, a caller other than root, a new user named root |
| Commands.AddUserAsWrittenNamesRoot | source/app/helpers/Command.ts:95 | as written, the success message always names root, so `adduser alice secret` reports root |
| Commands.AddUserNamesNewUser | source/app/helpers/Command.ts:83-95 | the corrected success message names the new user; every other outcome is as written |
| Commands.ExitLogsOut | source/app/helpers/Command.ts:104-111 | `exit` refuses for root and otherwise logs out to root with `Logged out.` |
| Commands.OnlySuAndExitChangeUser | source/app/helpers/Command.ts:11-96 | `echo`, `whoami`, `which`, `history` and `adduser` never change the user |
| Either.LeftOf | source/app/concepts/Left.ts:7-21 | `Left.of(v)` is left, not right, and `get` gives back `v` |
| Either.RightOf | source/app/concepts/Right.ts:7-21 | `Right.of(v)` is right, not left, and `get` gives back `v` |
| Either.EitherIsOneOf | source/app/concepts/Either.ts:4 | every value is exactly one of left and right, and is the factory's result for the value it holds |
| Either.FactoriesAreInjective | source/app/concepts/Left.ts:5 | the held value is fixed at creation: equal results come from equal values, and a left is never a right |
| Json.Member | source/common/schemas/Hostnames.ts:12-16 | member access gives a value exactly for a present key of an object; an absent key is distinct from `null` |
| Json.ReadNullableString | source/common/schemas/Hostnames.ts:14 | a string-or-null member reads back as the value it holds |
| Schemas.HostnamesIsValidJson | source/common/schemas/Hostnames.ts:8-18 | accepts an object whose `gatewayApi`, `tasksApi` and `authApi` members are each present and `null` or a string |
| Schemas.HostnamesToJson | source/common/schemas/Hostnames.ts:8-18 | the JSON form of any `Hostnames` passes the check |
| Schemas.HostnamesFromJson | source/common/schemas/Hostnames.ts:8-18 | a value reads as `Hostnames` exactly when the check passes, and then agrees with it on all three fields |
| Schemas.HostnamesRoundTrip | source/common/schemas/Hostnames.ts:8-18 | writing `Hostnames` as JSON and reading it back gives the same record |
| Schemas.HostnamesEdgeCases | source/common/schemas/Hostnames.ts:9-17 | non-objects are rejected, an absent field is rejected, and all three fields `null` is accepted |
| Schemas.ServerErrorIsValidJson | source/common/schemas/ServerError.ts:8-18 | accepts an object whose `name` and `message` are strings and whose `stackTrace` is present and `null` or a string |
| Schemas.ServerErrorToJson | source/common/schemas/ServerError.ts:8-18 | the JSON form of any `ServerError` passes the check |
| Schemas.ServerErrorFromJson | source/common/schemas/ServerError.ts:8-18 | a value reads as `ServerError` exactly when the check passes, and then agrees with it |
| Schemas.ServerErrorRoundTrip | source/common/schemas/ServerError.ts:8-18 | writing a `ServerError` as JSON and reading it back gives the same record |
| Schemas.ServerErrorNeedsStackTrace | source/common/schemas/ServerError.ts:5-16 | without a `stackTrace` key the check fails, although the constructor defaults it |
| Schemas.HttpStatusIsValidJson | source/common/schemas/HttpStatus.ts:7-13 | accepts an object whose `code` is a number and whose `message` is a string |
| Schemas.HttpStatusToJson | source/common/schemas/HttpStatus.ts:7-13 | the JSON form of any `HttpStatus` passes the check |
| Schemas.HttpStatusFromJson | source/common/schemas/HttpStatus.ts:7-13 | a value reads as `HttpStatus` exactly when `code` is a number and `message` a string on an object |
| Schemas.HttpStatusRoundTrip | source/common/schemas/HttpStatus.ts:12 | every code survives the round trip: there is no range check |
| Schemas.HttpStatusIgnoresOtherKeys | source/common/schemas/HttpStatus.ts:11-12 | adding or changing any key but `code` and `message` does not change the verdict |
| Schemas.ApiResponseIsValidJson | source/common/schemas/ApiResponse.ts:16-35 | accepts an object whose `hostnames` and `httpStatus` pass their checks, whose `serverError` is `null` or passes (an absent one fails), whose `clientErrors` is an array of entries that pass the client-error check, and whose `data`, present or not, passes the given check |
| Schemas.ApiResponseOfParts | source/common/schemas/ApiResponse.ts:24-34 | an envelope built from valid parts passes exactly when every client error and the data pass; an empty error list passes |
| Schemas.ApiResponseNeedsServerError | source/common/schemas/ApiResponse.ts:27-28 | an envelope without a `serverError` key is rejected |
| Models.TaskIsValidData | source/common/models/TaskModel.ts:11-40 | accepts an object whose `taskId` is a number, `title` and `description` strings, `isCompleted` a boolean, and `createdAt` and `updatedAt` strings the date parser accepts |
| Models.TaskFromData | source/common/models/TaskModel.ts:11-40 | decoding succeeds exactly when the shape check passes, and then copies every field unchanged |
| Models.TaskRoundTrip | source/common/models/TaskModel.ts:11-40 | any task, whatever its id, decodes from its JSON form exactly when both timestamps parse, and otherwise gives an error |
| Models.TaskNeedsStringTimestamps | source/common/models/TaskModel.ts:35-38 | a timestamp that is not a string is rejected before the date parser sees it |
| Models.AccountIsValidData | source/common/models/AccountModel.ts:7-22 | accepts an object whose `accountId` is a number and whose `username` is a string |
| Models.AccountFromData | source/common/models/AccountModel.ts:7-22 | decoding succeeds exactly when `accountId` is a number and `username` a string on an object, and then copies both |
| Models.AccountRoundTrip | source/common/models/AccountModel.ts:7-22 | every account decodes from its JSON form to itself |
| Models.ModelsRejectNonObjects | source/common/models/AccountModel.ts:8-17 | non-objects, `null` and arrays decode to an error, for accounts and tasks alike |

## Left out

- The `date` command (source/app/helpers/Command.ts:50-57) reads the wall clock and is not modelled.
- The remote logout in `exit` (source/app/helpers/Command.ts:109) is fire-and-forget I/O and is not modelled. Only the local change of user is.
- The React/xterm widget that calls into the core (source/components/Terminal.tsx) is not part of this model. Neither are the HTTP, session and storage services (source/app/services/) or the other UI and build files.
- Writes to the display are modelled as a sequence of pieces, each standing for the exact characters it renders to. Where one `write` call puts out several pieces, the model does not record that grouping. The display sees the same characters either way.
- The style strings of the prompt and the greeting come from a table that is not part of this model. They are modelled as distinct SGR codes. The token colours and the reset use the codes the colouring names.
- `Date.parse`, the `new Date` conversion in `TaskModel.fromData` and `ClientError.isValidJson` are not part of this model. The first and last are function parameters. A decoded task keeps its accepted timestamp strings.
- JavaScript numbers are modelled as unbounded reals, so `NaN` and infinities are not modelled. Nothing in the core does arithmetic on them.
- `RowCount`, `Layout`, `Reposition` and the lemmas about where a step lands take the display width as at least 1. The repaint and the jump to the end get there as the code does, by clamping with `Math.max(1, cols)` (source/terminal/Console.ts:39, 120). The left and right moves use the width unclamped (source/terminal/Console.ts:81, 94), and the model follows them for any width. In JavaScript `x % 0` is `NaN` and throws nothing; `NaN === 0` is false. So with a width of 0 the moves write `ESC [ D` or `ESC [ C` and never change rows. With a negative width the row changes as for its absolute value, and the CUF or CUB written with the negative count does not move the display.
- Console.Console.MoveCursorLeft, Console.Console.MoveCursorRight, Console.Console.MoveCursorEnd: the recorded `cursorLine` is kept as the code keeps it, without the invariant `1 <= cursorLine <= promptLines`. At the end of a text that exactly fills its last row, a step right records `promptLines + 1` and a step left records a row one too high. On a one-row prompt that is 0. The next repaint then misses the first row. RightNudgeOvershootsAtFullRow, LeftNudgeUndershootsAtFullRow and EraseAfterOvershootMissesFirstRow state these cases; LeftNudgeKeepsLine and RightNudgeKeepsLine prove the invariant everywhere else. After an overshoot, the jump to the end writes `ESC [ - 1 B`. Section 5.4 of ECMA-48 makes `-` an intermediate byte, not part of a parameter, so the display does not take this for CUD and does not move. The record still becomes `promptLines`, one row above the cursor. EndAfterOvershootStaysBelow states this case, and NudgesTrackDisplay claims tracking for the jump to the end only when the recorded line is not below the last rendered row.
- For `a 'it''s'` the code gives the single argument `its`: adjacent quoted segments join into one token. The model follows the code.
- The colouring is proved to insert only styles. It is not proved to pick the "right" colour for each token kind; the colour choice is modelled as written in `PaintChar`.

## Findings

| source | as written | input that shows it | evidently intended | confidence | as-written member | corrected member |
|---|---|---|---|---|---|---|
| source/app/helpers/Command.ts:95 | the success message of `adduser` interpolates the current user, which the check at line 87 has just forced to be root | `adduser alice secret` as root prints "User root created successfully." | the message names the user created, `args[0]` | high; not executed | Commands.AddUserAsWrittenNamesRoot | Commands.AddUserNamesNewUser |
