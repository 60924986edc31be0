/** The built-in commands. Each one answers with lines of output and may change the
    session's user; "root" is the anonymous, elevated user. Every command but `help`
    answers `--help` or `-h` with its usage before looking at anything else. */
module Commands {
  import opened Ecma48
  import opened Terminal
  import opened Console
  import Input

  /** What a command prints and the user it leaves in place. */
  datatype Reply = Reply(lines: seq<string>, username: string)

  /** A help flag anywhere among the arguments. */
  predicate AsksForHelp(args: seq<string>)
  {
    "--help" in args || "-h" in args
  }

  /** Each output line as the display receives it. */
  function Lines(lines: seq<string>): (cs: seq<Control>)
    ensures |cs| == |lines|
    ensures forall i :: 0 <= i < |lines| ==> cs[i] == Line(lines[i])
  {
    if lines == [] then [] else Lines(lines[..|lines| - 1]) + [Line(lines[|lines| - 1])]
  }

  // ---------------------------------------------------------------------------
  // Replies, command by command.
  // ---------------------------------------------------------------------------

  const HelpLines: seq<string> := ["Available commands:", "  help - Show this help message"]
  const EchoUsage: seq<string> := ["Usage: echo <text>", "Prints the provided text to the console."]
  const WhoamiUsage: seq<string> := ["Usage: whoami", "Prints the current username."]
  const WhichUsage: seq<string> := ["Usage: which <command>", "Prints the path of the specified command."]
  const HistoryUsage: seq<string> := ["Usage: history", "Prints the command history."]
  const SuUsage: seq<string> := ["Usage: su <username> [<password>]", "Switches to the specified user."]
  const AddUserUsage: seq<string> :=
    ["Usage: adduser <username> <password>", "Creates a new user with the specified username."]
  const ExitUsage: seq<string> := ["Usage: exit", "Logs out the current user."]

  function EchoReply(username: string, args: seq<string>): Reply
  {
    if AsksForHelp(args) then Reply(EchoUsage, username) else Reply([Input.Join(args)], username)
  }

  function WhoamiReply(username: string, args: seq<string>): Reply
  {
    if AsksForHelp(args) then Reply(WhoamiUsage, username) else Reply([username], username)
  }

  function WhichReply(username: string, args: seq<string>): Reply
  {
    if |args| == 0 || AsksForHelp(args) then Reply(WhichUsage, username)
    else Reply(["/usr/bin/" + args[0]], username)
  }

  function HistoryReply(username: string, history: seq<string>, args: seq<string>): Reply
  {
    if AsksForHelp(args) then Reply(HistoryUsage, username) else Reply(history, username)
  }

  function SuReply(username: string, args: seq<string>): Reply
  {
    if AsksForHelp(args) then Reply(SuUsage, username)
    else if |args| < 1 then Reply(["Error: Username is required."], username)
    else if args[0] != "root" && |args| < 2 then Reply(["Error: Password is required for non-root users."], username)
    else Reply(["Switched to user " + args[0] + "."], args[0])
  }

  /** `adduser` as written: its success message names the current user, who is
      always root at that point. */
  function AddUserReplyAsWritten(username: string, args: seq<string>): Reply
  {
    if AsksForHelp(args) then Reply(AddUserUsage, username)
    else if |args| < 2 then Reply(["Error: Username and password are required."], username)
    else if username != "root" then Reply(["You must be logged in as root to add a user."], username)
    else if args[0] == "root" then Reply(["Error: Cannot create a user with the username 'root'."], username)
    else Reply(["User " + username + " created successfully."], username)
  }

  /** `adduser` with its success message naming the user that was created. */
  function AddUserReply(username: string, args: seq<string>): Reply
  {
    if AsksForHelp(args) then Reply(AddUserUsage, username)
    else if |args| < 2 then Reply(["Error: Username and password are required."], username)
    else if username != "root" then Reply(["You must be logged in as root to add a user."], username)
    else if args[0] == "root" then Reply(["Error: Cannot create a user with the username 'root'."], username)
    else Reply(["User " + args[0] + " created successfully."], username)
  }

  function ExitReply(username: string, args: seq<string>): Reply
  {
    if AsksForHelp(args) then Reply(ExitUsage, username)
    else if username == "root" then Reply(["You cannot exit as the root user."], username)
    else Reply(["Logged out."], "root")
  }

  // ---------------------------------------------------------------------------
  // The handlers, writing through the console.
  // ---------------------------------------------------------------------------

  method Help(c: Console, t: Terminal)
    modifies c`promptLines, t`written
    ensures t.written == old(t.written) + Lines(HelpLines) && c.promptLines == 1
  {
    c.Out(t, "Available commands:");
    c.Out(t, "  help - Show this help message");
  }

  /** Prints two usage lines. */
  method PrintUsage(c: Console, t: Terminal, usage: seq<string>)
    requires |usage| == 2
    modifies c`promptLines, t`written
    ensures t.written == old(t.written) + Lines(usage) && c.promptLines == 1
  {
    c.Out(t, usage[0]);
    c.Out(t, usage[1]);
    assert usage[..1] == [usage[0]];
  }

  method Echo(c: Console, t: Terminal, args: seq<string>)
    modifies c`promptLines, t`written
    ensures var r := EchoReply(t.username, args);
      t.written == old(t.written) + Lines(r.lines) && c.promptLines == 1
  {
    if AsksForHelp(args) {
      PrintUsage(c, t, EchoUsage);
      return;
    }
    c.Out(t, Input.Join(args));
  }

  method Whoami(c: Console, t: Terminal, args: seq<string>)
    modifies c`promptLines, t`written
    ensures var r := WhoamiReply(t.username, args);
      t.written == old(t.written) + Lines(r.lines) && c.promptLines == 1
  {
    if AsksForHelp(args) {
      PrintUsage(c, t, WhoamiUsage);
      return;
    }
    c.Out(t, t.username);
  }

  method Which(c: Console, t: Terminal, args: seq<string>)
    modifies c`promptLines, t`written
    ensures var r := WhichReply(t.username, args);
      t.written == old(t.written) + Lines(r.lines) && c.promptLines == 1
  {
    if |args| == 0 || AsksForHelp(args) {
      PrintUsage(c, t, WhichUsage);
      return;
    }
    var command := args[0];
    c.Out(t, "/usr/bin/" + command);
  }

  /** One line per stored entry, in order. */
  method History(c: Console, t: Terminal, args: seq<string>)
    modifies c`promptLines, t`written
    ensures var r := HistoryReply(t.username, t.history, args);
      && t.written == old(t.written) + Lines(r.lines)
      && c.promptLines == if r.lines == [] then old(c.promptLines) else 1
  {
    if AsksForHelp(args) {
      PrintUsage(c, t, HistoryUsage);
      return;
    }
    var i := 0;
    while i < |t.history|
      invariant 0 <= i <= |t.history|
      invariant t.written == old(t.written) + Lines(t.history[..i])
      invariant c.promptLines == if i == 0 then old(c.promptLines) else 1
    {
      c.Out(t, t.history[i]);
      assert t.history[..i + 1][..i] == t.history[..i];
      i := i + 1;
    }
    assert t.history[..i] == t.history;
  }

  method Su(c: Console, t: Terminal, args: seq<string>)
    modifies c`promptLines, t`written, t`username
    ensures var r := SuReply(old(t.username), args);
      t.written == old(t.written) + Lines(r.lines) && t.username == r.username && c.promptLines == 1
  {
    if AsksForHelp(args) {
      PrintUsage(c, t, SuUsage);
      return;
    }
    if |args| < 1 {
      c.Out(t, "Error: Username is required.");
      return;
    }
    if args[0] != "root" && |args| < 2 {
      c.Out(t, "Error: Password is required for non-root users.");
      return;
    }
    t.username := args[0];
    c.Out(t, "Switched to user " + t.username + ".");
  }

  method AddUser(c: Console, t: Terminal, args: seq<string>)
    modifies c`promptLines, t`written
    ensures var r := AddUserReply(t.username, args);
      t.written == old(t.written) + Lines(r.lines) && c.promptLines == 1
  {
    if AsksForHelp(args) {
      PrintUsage(c, t, AddUserUsage);
      return;
    }
    if |args| < 2 {
      c.Out(t, "Error: Username and password are required.");
      return;
    }
    if t.username != "root" {
      c.Out(t, "You must be logged in as root to add a user.");
      return;
    }
    if args[0] == "root" {
      c.Out(t, "Error: Cannot create a user with the username 'root'.");
      return;
    }
    c.Out(t, "User " + args[0] + " created successfully.");
  }

  /** The remote logout is not part of this model; only the local change is. */
  method Exit(c: Console, t: Terminal, args: seq<string>)
    modifies c`promptLines, t`written, t`username
    ensures var r := ExitReply(old(t.username), args);
      t.written == old(t.written) + Lines(r.lines) && t.username == r.username && c.promptLines == 1
  {
    if AsksForHelp(args) {
      PrintUsage(c, t, ExitUsage);
      return;
    }
    if t.username == "root" {
      c.Out(t, "You cannot exit as the root user.");
      return;
    }
    t.username := "root";
    c.Out(t, "Logged out.");
  }

  // ---------------------------------------------------------------------------
  // Properties of the replies.
  // ---------------------------------------------------------------------------

  /** A help flag anywhere in the arguments wins over every other check: the
      command prints its two usage lines and leaves the user as it is. */
  lemma HelpComesFirst(username: string, history: seq<string>, args: seq<string>)
    requires AsksForHelp(args)
    ensures EchoReply(username, args) == Reply(EchoUsage, username)
    ensures WhoamiReply(username, args) == Reply(WhoamiUsage, username)
    ensures WhichReply(username, args) == Reply(WhichUsage, username)
    ensures HistoryReply(username, history, args) == Reply(HistoryUsage, username)
    ensures SuReply(username, args) == Reply(SuUsage, username)
    ensures AddUserReply(username, args) == Reply(AddUserUsage, username)
    ensures ExitReply(username, args) == Reply(ExitUsage, username)
  {
  }

  /** Without a help flag: `echo` prints one line, its arguments joined by single
      spaces, so plain words read back as the same words; `whoami` prints the
      user; `which` prints the path of its first argument, or its usage when it
      has none; `history` prints the stored lines, in order. */
  lemma PlainCommands(username: string, history: seq<string>, args: seq<string>)
    requires !AsksForHelp(args)
    ensures EchoReply(username, args).lines == [Input.Join(args)]
    ensures WhoamiReply(username, args).lines == [username]
    ensures |args| == 0 ==> WhichReply(username, args).lines == WhichUsage
    ensures |args| > 0 ==> WhichReply(username, args).lines == ["/usr/bin/" + args[0]]
    ensures HistoryReply(username, history, args).lines == history
  {
  }

  /** `echo` gives back what the line parser took apart: for plain words, the line
      it prints parses to the same words. */
  lemma EchoReadsBack(username: string, args: seq<string>)
    requires |args| >= 1 && !AsksForHelp(args)
    requires forall k :: 0 <= k < |args| ==> Input.PlainWord(args[k])
    ensures Input.Tokens(EchoReply(username, args).lines[0]) == args
  {
    Input.JoinThenParse(args);
  }

  /** `su` switches exactly when a user name is given and either it is root or a
      password follows; root needs no password. */
  lemma SuSwitches(username: string, args: seq<string>)
    ensures var switches := !AsksForHelp(args) && |args| >= 1 && (args[0] == "root" || |args| >= 2);
      && SuReply(username, args).username == (if switches then args[0] else username)
      && (switches ==> SuReply(username, args).lines == ["Switched to user " + args[0] + "."])
    ensures SuReply(username, ["root"]).username == "root"
  {
    assert !AsksForHelp(["root"]);
  }

  /** `adduser` never changes the user, and rejects in this order: missing
      arguments, a caller that is not root, a new user named root. */
  lemma AddUserChecks(username: string, args: seq<string>)
    ensures AddUserReply(username, args).username == username
    ensures !AsksForHelp(args) && |args| < 2 ==>
      AddUserReply(username, args).lines == ["Error: Username and password are required."]
    ensures !AsksForHelp(args) && |args| >= 2 && username != "root" ==>
      AddUserReply(username, args).lines == ["You must be logged in as root to add a user."]
    ensures !AsksForHelp(args) && |args| >= 2 && username == "root" && args[0] == "root" ==>
      AddUserReply(username, args).lines == ["Error: Cannot create a user with the username 'root'."]
  {
  }

  /** As written, the success message always names root, never the new user: for
      `adduser alice secret` it reads "User root created successfully.". */
  lemma AddUserAsWrittenNamesRoot(args: seq<string>)
    requires !AsksForHelp(args) && |args| >= 2 && args[0] != "root"
    ensures AddUserReplyAsWritten("root", args).lines == ["User root created successfully."]
    ensures AddUserReplyAsWritten("root", ["alice", "secret"]).lines
         != AddUserReply("root", ["alice", "secret"]).lines
  {
    assert !AsksForHelp(["alice", "secret"]);
    assert "User " + "root" + " created successfully." == "User root created successfully.";
    assert "User root created successfully."[5] != "User alice created successfully."[5];
  }

  /** The corrected message names the user created; everything else is as written. */
  lemma AddUserNamesNewUser(username: string, args: seq<string>)
    ensures var r := AddUserReply(username, args);
      && (!AsksForHelp(args) && |args| >= 2 && username == "root" && args[0] != "root"
          ==> r.lines == ["User " + args[0] + " created successfully."])
      && (AsksForHelp(args) || |args| < 2 || username != "root" || args[0] == "root"
          ==> r == AddUserReplyAsWritten(username, args))
  {
  }

  /** `exit` always leaves root in place (unless asked for help), and refuses only
      when the user already is root. */
  lemma ExitLogsOut(username: string, args: seq<string>)
    requires !AsksForHelp(args)
    ensures ExitReply(username, args).username == "root"
    ensures ExitReply(username, args).lines
      == if username == "root" then ["You cannot exit as the root user."] else ["Logged out."]
  {
  }

  /** Only `su` and `exit` change the user. */
  lemma OnlySuAndExitChangeUser(username: string, history: seq<string>, args: seq<string>)
    ensures EchoReply(username, args).username == username
    ensures WhoamiReply(username, args).username == username
    ensures WhichReply(username, args).username == username
    ensures HistoryReply(username, history, args).username == username
    ensures AddUserReply(username, args).username == username
  {
  }
}
