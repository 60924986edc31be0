/** The state of the terminal surface that the console and the command handlers
    read and update: the session's user, the plain-text prompt, the line being
    edited with its cursor, the submitted lines, the display width and what has
    been written to the display so far. */
module Terminal {
  import opened Ecma48
  import Utf16

  class Terminal {
    /** The current identity; "root" is the anonymous, elevated one. */
    var username: string
    /** The prompt as displayed, without styling; only its length enters the layout. */
    var prompt: string
    /** The line being edited and the cursor's offset into it, in UTF-16 code units. */
    var input: string
    var cursorPos: int
    /** Submitted lines, in the order they are stored. */
    var history: seq<string>
    /** Width of the display in character cells, as the display reports it. */
    var cols: int
    /** Everything sent to the display, in order. */
    var written: seq<Control>
    /** Host name, working directory and prompt mark shown in the prompt. */
    const hostname: string
    const cwd: string
    const mark: string

    /** The editor keeps its cursor inside the line. */
    ghost predicate Valid()
      reads this
    {
      0 <= cursorPos <= Utf16.Length(input)
    }

    constructor (username: string, prompt: string, cols: int, hostname: string, cwd: string, mark: string)
      ensures Valid()
      ensures this.username == username && this.prompt == prompt && this.cols == cols
      ensures this.hostname == hostname && this.cwd == cwd && this.mark == mark
      ensures input == "" && cursorPos == 0 && history == [] && written == []
    {
      this.username := username;
      this.prompt := prompt;
      this.input := "";
      this.cursorPos := 0;
      this.history := [];
      this.cols := cols;
      this.written := [];
      this.hostname := hostname;
      this.cwd := cwd;
      this.mark := mark;
    }
  }
}
