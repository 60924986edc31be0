/** Splitting a command line into a command and its arguments, with single and
    double quotes and backslash escapes. */
module Input {

  datatype CommandParams = CommandParams(command: string, args: seq<string>)

  /** The characters a JavaScript `\s` matches (WhiteSpace and LineTerminator). */
  predicate IsSpace(c: char)
  {
    || c == '\t' || c == '\n' || c == '\U{0B}' || c == '\U{0C}' || c == '\r' || c == ' '
    || c == '\U{A0}' || c == '\U{1680}' || ('\U{2000}' <= c <= '\U{200A}')
    || c == '\U{2028}' || c == '\U{2029}' || c == '\U{202F}' || c == '\U{205F}' || c == '\U{3000}'
    || c == '\U{FEFF}'
  }

  /** The tokenizer's state between two characters: the finished tokens, the one
      being collected, whether a quote is open, and whether the previous character
      was an unconsumed backslash. */
  datatype Lexer = Lexer(tokens: seq<string>, cur: string, inSingle: bool, inDouble: bool, escape: bool)

  const Init := Lexer([], "", false, false, false)

  /** One step of the tokenizer. The escape is looked at first, so a backslash
      escapes inside quotes too. */
  function Feed(l: Lexer, ch: char): Lexer
  {
    if l.escape then l.(cur := l.cur + [ch], escape := false)
    else if ch == '\\' then l.(escape := true)
    else if l.inSingle then
      if ch == '\'' then l.(inSingle := false) else l.(cur := l.cur + [ch])
    else if l.inDouble then
      if ch == '"' then l.(inDouble := false) else l.(cur := l.cur + [ch])
    else if ch == '\'' then l.(inSingle := true)
    else if ch == '"' then l.(inDouble := true)
    else if IsSpace(ch) then
      if |l.cur| > 0 then l.(tokens := l.tokens + [l.cur], cur := "") else l
    else l.(cur := l.cur + [ch])
  }

  function FeedAll(l: Lexer, s: string): Lexer
  {
    if s == [] then l else Feed(FeedAll(l, s[..|s| - 1]), s[|s| - 1])
  }

  /** End of input: a dangling backslash stands for itself, and the last token is
      kept if it is not empty. */
  function Finish(l: Lexer): seq<string>
  {
    var cur := if l.escape then l.cur + "\\" else l.cur;
    if |cur| > 0 then l.tokens + [cur] else l.tokens
  }

  /** The first token is the command; no token at all gives the empty command. */
  function Split(tokens: seq<string>): CommandParams
  {
    if tokens == [] then CommandParams("", []) else CommandParams(tokens[0], tokens[1..])
  }

  function Tokens(input: string): seq<string>
  {
    Finish(FeedAll(Init, input))
  }

  // ---------------------------------------------------------------------------
  // The tokenizer as a loop over the characters.
  // ---------------------------------------------------------------------------

  method Parse(input: string) returns (r: CommandParams)
    ensures r == Split(Tokens(input))
    ensures forall i :: 0 <= i < |r.args| ==> r.args[i] != ""
    ensures r.command == "" ==> r.args == []
  {
    var args: seq<string> := [];
    var cur := "";
    var inSingle := false;
    var inDouble := false;
    var escape := false;
    var i := 0;
    while i < |input|
      invariant 0 <= i <= |input|
      invariant FeedAll(Init, input[..i]) == Lexer(args, cur, inSingle, inDouble, escape)
    {
      var ch := input[i];
      assert input[..i + 1][..i] == input[..i];
      if escape {
        cur := cur + [ch];
        escape := false;
      } else if ch == '\\' {
        escape := true;
      } else if inSingle {
        if ch == '\'' {
          inSingle := false;
        } else {
          cur := cur + [ch];
        }
      } else if inDouble {
        if ch == '"' {
          inDouble := false;
        } else {
          cur := cur + [ch];
        }
      } else if ch == '\'' {
        inSingle := true;
      } else if ch == '"' {
        inDouble := true;
      } else if IsSpace(ch) {
        if |cur| > 0 {
          args := args + [cur];
          cur := "";
        }
      } else {
        cur := cur + [ch];
      }
      i := i + 1;
    }
    assert input[..i] == input;
    if escape {
      cur := cur + "\\";
    }
    if |cur| > 0 {
      args := args + [cur];
    }
    if args == [] {
      r := CommandParams("", []);
    } else {
      r := CommandParams(args[0], args[1..]);
    }
    TokensAreNotEmpty(input);
  }

  // ---------------------------------------------------------------------------
  // Properties.
  // ---------------------------------------------------------------------------

  lemma {:induction false} FeedAllAppend(l: Lexer, a: string, b: string)
    ensures FeedAll(l, a + b) == FeedAll(FeedAll(l, a), b)
    decreases |b|
  {
    if b == [] {
      assert a + b == a;
    } else {
      assert (a + b)[..|a + b| - 1] == a + b[..|b| - 1];
      FeedAllAppend(l, a, b[..|b| - 1]);
    }
  }

  predicate NoEmptyTokens(ts: seq<string>)
  {
    forall i :: 0 <= i < |ts| ==> ts[i] != ""
  }

  lemma {:induction false} FeedAllKeepsTokensNonEmpty(s: string)
    ensures NoEmptyTokens(FeedAll(Init, s).tokens)
  {
    if s != [] {
      FeedAllKeepsTokensNonEmpty(s[..|s| - 1]);
    }
  }

  /** No token is ever empty: `a ""` has no argument after `a`. */
  lemma TokensAreNotEmpty(input: string)
    ensures NoEmptyTokens(Tokens(input))
    ensures Split(Tokens(input)).command == "" ==> Split(Tokens(input)).args == []
  {
    FeedAllKeepsTokensNonEmpty(input);
  }

  /** Input made only of whitespace (or nothing) gives the empty command and no
      arguments. */
  lemma {:induction false} BlankInput(input: string)
    requires forall i :: 0 <= i < |input| ==> IsSpace(input[i])
    ensures FeedAll(Init, input) == Init
    ensures Split(Tokens(input)) == CommandParams("", [])
  {
    if input != [] {
      BlankInput(input[..|input| - 1]);
    }
  }

  /** A backslash makes the next character part of the token whatever it is, in or
      out of quotes, and is itself dropped. */
  lemma EscapeIsLiteral(l: Lexer, ch: char)
    requires !l.escape
    ensures FeedAll(l, ['\\', ch]) == l.(cur := l.cur + [ch])
  {
    assert ['\\', ch][..1] == ['\\'];
    assert ['\\'][..0] == [];
    assert FeedAll(l, ['\\']) == l.(escape := true);
  }

  /** A character that is taken as it is outside quotes. */
  predicate IsPlain(c: char)
  {
    !IsSpace(c) && c != '\'' && c != '"' && c != '\\'
  }

  predicate PlainWord(w: string)
  {
    w != [] && forall i :: 0 <= i < |w| ==> IsPlain(w[i])
  }

  lemma {:induction false} PlainTextExtends(l: Lexer, w: string)
    requires !l.escape && !l.inSingle && !l.inDouble
    requires forall i :: 0 <= i < |w| ==> IsPlain(w[i])
    ensures FeedAll(l, w) == l.(cur := l.cur + w)
  {
    if w != [] {
      PlainTextExtends(l, w[..|w| - 1]);
      assert l.cur + w[..|w| - 1] + [w[|w| - 1]] == l.cur + w;
    }
  }

  /** Inside a quote everything but the closing quote and a backslash is kept
      verbatim, whitespace and the other quote included. */
  lemma {:induction false} QuotedTextExtends(l: Lexer, q: char, w: string)
    requires q == '\'' || q == '"'
    requires !l.escape && (if q == '\'' then l.inSingle && !l.inDouble else l.inDouble && !l.inSingle)
    requires forall i :: 0 <= i < |w| ==> w[i] != q && w[i] != '\\'
    ensures FeedAll(l, w) == l.(cur := l.cur + w)
  {
    if w != [] {
      QuotedTextExtends(l, q, w[..|w| - 1]);
      assert l.cur + w[..|w| - 1] + [w[|w| - 1]] == l.cur + w;
    }
  }

  /** Opening and closing a quote does not end the token: the quoted text is
      appended to whatever was being collected, and the quotes are dropped. */
  lemma QuotedSegment(l: Lexer, q: char, w: string)
    requires q == '\'' || q == '"'
    requires !l.escape && !l.inSingle && !l.inDouble
    requires forall i :: 0 <= i < |w| ==> w[i] != q && w[i] != '\\'
    ensures FeedAll(l, [q] + w + [q]) == l.(cur := l.cur + w)
  {
    var open := Feed(l, q);
    assert FeedAll(l, [q]) == open by {
      assert [q][..0] == [];
    }
    QuotedTextExtends(open, q, w);
    FeedAllAppend(l, [q], w);
    FeedAllAppend(l, [q] + w, [q]);
    assert FeedAll(open.(cur := l.cur + w), [q]) == Feed(open.(cur := l.cur + w), q) by {
      assert [q][..0] == [];
    }
  }

  /** Words joined by single spaces. */
  function Join(words: seq<string>): string
  {
    if words == [] then ""
    else if |words| == 1 then words[0]
    else Join(words[..|words| - 1]) + " " + words[|words| - 1]
  }

  lemma {:induction false} JoinState(words: seq<string>)
    requires |words| >= 1
    requires forall k :: 0 <= k < |words| ==> PlainWord(words[k])
    ensures FeedAll(Init, Join(words)) == Lexer(words[..|words| - 1], words[|words| - 1], false, false, false)
  {
    var n := |words|;
    if n == 1 {
      PlainTextExtends(Init, words[0]);
      assert Init.cur + words[0] == words[0];
    } else {
      var prefix := words[..n - 1];
      assert forall k :: 0 <= k < |prefix| ==> PlainWord(prefix[k]);
      JoinState(prefix);
      SpaceThenWord(Join(prefix), prefix[..n - 2], prefix[n - 2], words[n - 1]);
      assert prefix[..n - 2] + [prefix[n - 2]] == prefix;
    }
  }

  /** Outside quotes, a space ends the token being collected and a plain word
      starts the next one. */
  lemma SpaceThenWord(s: string, done: seq<string>, cur: string, v: string)
    requires FeedAll(Init, s) == Lexer(done, cur, false, false, false) && cur != ""
    requires PlainWord(v)
    ensures FeedAll(Init, s + " " + v) == Lexer(done + [cur], v, false, false, false)
  {
    var l := Lexer(done, cur, false, false, false);
    var o := Lexer(done + [cur], "", false, false, false);
    assert FeedAll(Init, s + " ") == o by {
      FeedOne(l, ' ');
      FeedAllAppend(Init, s, " ");
    }
    PlainTextExtends(o, v);
    assert o.cur + v == v;
    FeedAllAppend(Init, s + " ", v);
  }

  /** Round trip: non-empty words made of plain characters, joined by single
      spaces, split back into the same words. */
  lemma {:induction false} JoinThenParse(words: seq<string>)
    requires |words| >= 1
    requires forall k :: 0 <= k < |words| ==> PlainWord(words[k])
    ensures Tokens(Join(words)) == words
    ensures Split(Tokens(Join(words))) == CommandParams(words[0], words[1..])
  {
    var n := |words|;
    JoinState(words);
    FinishLastWord(FeedAll(Init, Join(words)), words[..n - 1], words[n - 1]);
    assert words[..n - 1] + [words[n - 1]] == words;
  }

  lemma FinishLastWord(l: Lexer, done: seq<string>, last: string)
    requires l == Lexer(done, last, false, false, false) && last != ""
    ensures Finish(l) == done + [last]
  {
  }

  // ---------------------------------------------------------------------------
  // Worked examples.
  // ---------------------------------------------------------------------------

  lemma FeedOne(l: Lexer, c: char)
    ensures FeedAll(l, [c]) == Feed(l, c)
  {
    assert [c][..0] == [];
  }

  /** Text that stays verbatim inside a `q` quote. */
  predicate QuotableIn(x: string, q: char)
  {
    forall i :: 0 <= i < |x| ==> x[i] != q && x[i] != '\\'
  }

  /** After a plain word and a space, the word is finished and nothing is being
      collected. */
  lemma WordThenSpace(w: string)
    requires PlainWord(w)
    ensures FeedAll(Init, w + " ") == Lexer([w], "", false, false, false)
  {
    PlainTextExtends(Init, w);
    assert Init.cur + w == w;
    FeedAllAppend(Init, w, " ");
    FeedOne(Lexer([], w, false, false, false), ' ');
  }

  /** A quoted argument after the command: its text is the argument, quotes
      dropped; an empty one gives no argument. */
  lemma QuotedArgument(w: string, q: char, x: string)
    requires q == '\'' || q == '"'
    requires PlainWord(w) && QuotableIn(x, q)
    ensures FeedAll(Init, w + " " + ([q] + x + [q])) == Lexer([w], x, false, false, false)
    ensures Tokens(w + " " + ([q] + x + [q])) == [w] + (if x == [] then [] else [x])
  {
    var m := Lexer([w], "", false, false, false);
    WordThenSpace(w);
    QuotedSegment(m, q, x);
    assert m.cur + x == x;
    FeedAllAppend(Init, w + " ", [q] + x + [q]);
  }

  /** Two quoted segments with nothing between them make one argument. */
  lemma AdjacentQuotedArgument(w: string, q: char, x: string, y: string)
    requires q == '\'' || q == '"'
    requires PlainWord(w) && QuotableIn(x, q) && QuotableIn(y, q)
    ensures Tokens(w + " " + ([q] + x + [q]) + ([q] + y + [q])) == [w] + (if x + y == [] then [] else [x + y])
  {
    var m := Lexer([w], x, false, false, false);
    QuotedArgument(w, q, x);
    QuotedSegment(m, q, y);
    FeedAllAppend(Init, w + " " + ([q] + x + [q]), [q] + y + [q]);
  }

  /** A quoted argument keeps its whitespace, and a plain word after it is the
      next argument. */
  lemma QuotedThenWord(w: string, q: char, x: string, v: string)
    requires q == '\'' || q == '"'
    requires PlainWord(w) && QuotableIn(x, q) && x != [] && PlainWord(v)
    ensures Tokens(w + " " + ([q] + x + [q]) + " " + v) == [w, x, v]
  {
    QuotedArgument(w, q, x);
    SpaceThenWord(w + " " + ([q] + x + [q]), [w], x, v);
    assert [w] + [x] + [v] == [w, x, v];
  }

  /** A quote left open at the end still gives the text collected after it. */
  lemma UnterminatedQuote(w: string, q: char, x: string)
    requires q == '\'' || q == '"'
    requires PlainWord(w) && QuotableIn(x, q)
    ensures Tokens(w + " " + [q] + x) == [w] + (if x == [] then [] else [x])
  {
    var m := Lexer([w], "", false, false, false);
    var open := Feed(m, q);
    WordThenSpace(w);
    FeedOne(m, q);
    FeedAllAppend(Init, w + " ", [q]);
    QuotedTextExtends(open, q, x);
    assert open.cur + x == x;
    FeedAllAppend(Init, w + " " + [q], x);
  }

  /** `a 'it''s'` has the single argument `its`. */
  lemma AdjacentQuotesExample()
    ensures Split(Tokens("a 'it''s'")) == CommandParams("a", ["its"])
  {
    assert PlainWord("a");
    AdjacentQuotedArgument("a", '\'', "it", "s");
    assert "a 'it''s'" == "a" + " " + (['\''] + "it" + ['\'']) + (['\''] + "s" + ['\'']);
    assert "it" + "s" == "its";
  }

  /** `a ""` has no arguments. */
  lemma EmptyQuotesExample()
    ensures Split(Tokens("a \"\"")) == CommandParams("a", [])
  {
    assert PlainWord("a");
    QuotedArgument("a", '"', "");
    assert "a \"\"" == "a" + " " + (['"'] + "" + ['"']);
  }

  /** `a "b c" d` has the arguments `b c` and `d`. */
  lemma QuotedSpaceExample()
    ensures Split(Tokens("a \"b c\" d")) == CommandParams("a", ["b c", "d"])
  {
    assert PlainWord("a") && PlainWord("d");
    QuotedThenWord("a", '"', "b c", "d");
    assert "a \"b c\" d" == "a" + " " + (['"'] + "b c" + ['"']) + " " + "d";
  }

  /** `a 'b c` has the argument `b c`. */
  lemma UnterminatedQuoteExample()
    ensures Split(Tokens("a 'b c")) == CommandParams("a", ["b c"])
  {
    assert PlainWord("a");
    UnterminatedQuote("a", '\'', "b c");
    assert "a 'b c" == "a" + " " + ['\''] + "b c";
  }

  /** An escaped space does not split: `a\ b` is the single token `a b`. */
  lemma EscapedSpaceExample()
    ensures Split(Tokens("a\\ b")) == CommandParams("a b", [])
  {
    var l := Lexer([], "a", false, false, false);
    PlainTextExtends(Init, "a");
    assert Init.cur + "a" == "a";
    EscapeIsLiteral(l, ' ');
    FeedAllAppend(Init, "a", ['\\', ' ']);
    PlainTextExtends(l.(cur := "a "), "b");
    assert "a " + "b" == "a b";
    FeedAllAppend(Init, "a" + ['\\', ' '], "b");
    assert "a\\ b" == "a" + ['\\', ' '] + "b";
  }

  /** A trailing lone backslash is kept as a literal backslash. */
  lemma TrailingBackslashExample()
    ensures Split(Tokens("ab\\")) == CommandParams("ab\\", [])
  {
    var ab := Lexer([], "ab", false, false, false);
    PlainTextExtends(Init, "ab");
    assert Init.cur + "ab" == "ab";
    FeedAllAppend(Init, "ab", "\\");
    FeedOne(ab, '\\');
    assert "ab\\" == "ab" + "\\";
  }

}
