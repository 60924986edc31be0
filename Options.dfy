/** Reading `--key=value`, `--key value`, `-k=value` and `-k value` flags out of an
    argument list. A value taken from the following argument is removed from the
    caller's list, in place, while the list is being walked. */
module Options {
  import Utf16

  datatype OptionValue = NoValue | Value(text: string)

  datatype OptionWithParams = OptionWithParams(option: string, value: OptionValue)

  // ---------------------------------------------------------------------------
  // String helpers.
  // ---------------------------------------------------------------------------

  predicate StartsWith(s: string, prefix: string)
  {
    |prefix| <= |s| && s[..|prefix|] == prefix
  }

  /** Index of the first `=` in `s`, which must hold one. */
  function FirstEquals(s: string): (i: nat)
    requires '=' in s
    ensures i < |s| && s[i] == '=' && '=' !in s[..i]
  {
    if s[0] == '=' then 0
    else
      assert s == [s[0]] + s[1..];
      var j := FirstEquals(s[1..]);
      assert s[..j + 1] == [s[0]] + s[1..][..j];
      j + 1
  }

  /** `s.split("=", 2)` on a string holding `=`: the text before the first `=`,
      and the text after it up to the next `=` (or the end). */
  function SplitAtEquals(s: string): (parts: (string, string))
    requires '=' in s
    ensures '=' !in parts.0 && '=' !in parts.1
    ensures parts.0 + "=" <= s
    ensures parts.0 + "=" + parts.1 == s || parts.0 + "=" + parts.1 + "=" <= s
  {
    var i := FirstEquals(s);
    var after := s[i + 1..];
    assert s[..i] + "=" == s[..i + 1];
    if '=' in after then
      var j := FirstEquals(after);
      assert s[..i] + "=" + after[..j] + "=" == s[..i + j + 2];
      (s[..i], after[..j])
    else
      assert s[..i] + "=" + after == s;
      (s[..i], after)
  }

  // ---------------------------------------------------------------------------
  // What one argument is, on its own.
  // ---------------------------------------------------------------------------

  datatype Flag = Valued(key: string, value: string) | Bare(key: string) | NotAFlag

  /** Long flags need a key of two UTF-16 code units or more, short flags a key of
      exactly one; anything else, and any argument not starting with `-`, is not a flag. */
  function Classify(arg: string): Flag
  {
    if StartsWith(arg, "--") then
      if '=' in arg then
        var parts := SplitAtEquals(arg);
        if |parts.0| < 2 then NotAFlag
        else
          var key := parts.0[2..];
          if Utf16.Length(key) < 2 then NotAFlag else Valued(key, parts.1)
      else
        var key := arg[2..];
        if Utf16.Length(key) < 2 then NotAFlag else Bare(key)
    else if StartsWith(arg, "-") then
      if '=' in arg then
        var parts := SplitAtEquals(arg);
        if |parts.0| < 1 then NotAFlag
        else
          var key := parts.0[1..];
          if Utf16.Length(key) != 1 then NotAFlag else Valued(key, parts.1)
      else
        var key := arg[1..];
        if Utf16.Length(key) != 1 then NotAFlag else Bare(key)
    else NotAFlag
  }

  /** The argument text a flag is written as (the partner of `Classify`). */
  function LongFlag(key: string, value: OptionValue): string
  {
    match value
    case NoValue => "--" + key
    case Value(v) => "--" + key + "=" + v
  }

  function ShortFlag(key: string, value: OptionValue): string
  {
    match value
    case NoValue => "-" + key
    case Value(v) => "-" + key + "=" + v
  }

  /** Writing a flag and classifying it gives the flag back, when the key is of the
      right length and neither part holds `=`. */
  lemma ClassifyLongFlag(key: string, value: OptionValue)
    requires Utf16.Length(key) >= 2 && '=' !in key
    requires value.Value? ==> '=' !in value.text
    ensures Classify(LongFlag(key, value)) == if value.Value? then Valued(key, value.text) else Bare(key)
  {
    var arg := LongFlag(key, value);
    assert arg[..2] == "--";
    if value.Value? {
      assert arg == "--" + key + "=" + value.text;
      SplitIsUnique("--" + key, value.text, "");
    } else {
      assert '=' !in arg by {
        assert arg == "--" + key;
        assert forall i :: 0 <= i < |arg| ==> arg[i] == '-' || arg[i] == key[i - 2];
      }
      assert arg[2..] == key;
    }
  }

  lemma ClassifyShortFlag(key: string, value: OptionValue)
    requires Utf16.Length(key) == 1 && key != "-" && key != "="
    requires value.Value? ==> '=' !in value.text
    ensures Classify(ShortFlag(key, value)) == if value.Value? then Valued(key, value.text) else Bare(key)
  {
    Utf16.LengthOne(key);
    var arg := ShortFlag(key, value);
    assert arg[..1] == "-";
    assert !StartsWith(arg, "--") by {
      assert arg[1] == key[0];
    }
    if value.Value? {
      assert arg == "-" + key + "=" + value.text;
      SplitIsUnique("-" + key, value.text, "");
    } else {
      assert arg == ['-', key[0]];
      assert '=' !in arg;
      assert arg[1..] == key;
    }
  }

  /** The value of `--key=value=more` is cut at the second `=`. */
  lemma ClassifyCutsAtSecondEquals(key: string, value: string, more: string)
    requires Utf16.Length(key) >= 2 && '=' !in key && '=' !in value
    ensures Classify("--" + key + "=" + value + "=" + more) == Valued(key, value)
  {
    var arg := "--" + key + "=" + value + "=" + more;
    assert arg[..2] == "--";
    assert arg == "--" + key + "=" + value + ("=" + more);
    SplitIsUnique("--" + key, value, "=" + more);
  }

  /** `split("=", 2)` reads back the parts it was given. */
  lemma SplitIsUnique(head: string, value: string, rest: string)
    requires '=' !in head && '=' !in value
    requires rest == [] || rest[0] == '='
    ensures '=' in head + "=" + value + rest
    ensures SplitAtEquals(head + "=" + value + rest) == (head, value)
  {
    var s := head + "=" + value + rest;
    assert s[|head|] == '=';
    var i := FirstEquals(s);
    assert s[..|head|] == head;
    if i < |head| {
      assert false;
    }
    if i > |head| {
      assert false;
    }
    var after := s[i + 1..];
    assert after == value + rest;
    if rest == [] {
      assert after == value;
    } else {
      assert after[|value|] == '=';
      var j := FirstEquals(after);
      assert after[..|value|] == value;
      if j < |value| {
        assert false;
      }
      if j > |value| {
        assert false;
      }
    }
  }

  /** Malformed flags are not flags. */
  lemma MalformedFlags()
    ensures Classify("-") == NotAFlag
    ensures Classify("--") == NotAFlag
    ensures Classify("--x") == NotAFlag
    ensures Classify("-ab") == NotAFlag
    ensures Classify("--=v") == NotAFlag
    ensures Classify("x") == NotAFlag
  {
    assert "--"[..2] == "--";
    assert "--x"[..2] == "--" && "--x"[2..] == "x";
    assert "-ab"[..1] == "-" && "-ab"[1] == 'a' && "-ab"[1..] == "ab";
    assert "-"[..1] == "-" && "-"[1..] == "";
    assert '=' !in "-ab";
    assert '=' !in "--x";
    assert "--=v"[..2] == "--";
    assert "--=v" == "--" + "=" + "v";
    SplitIsUnique("--", "v", "");
  }

  /** Key lengths are counted in UTF-16 code units: a key of one character outside
      the Basic Multilingual Plane is too long for a short flag and long enough for
      a long one. */
  lemma AstralKeys()
    ensures Classify("-\U{1F600}") == NotAFlag
    ensures Classify("--\U{1F600}") == Bare("\U{1F600}")
  {
    Utf16.AstralLength();
    assert "-\U{1F600}"[..1] == "-" && "-\U{1F600}"[1..] == "\U{1F600}";
    assert "--\U{1F600}"[..2] == "--" && "--\U{1F600}"[2..] == "\U{1F600}";
    assert '=' !in "-\U{1F600}" && '=' !in "--\U{1F600}";
  }

  /** An argument not starting with `-` is never a flag. */
  lemma PlainArgIsNotAFlag(arg: string)
    requires !StartsWith(arg, "-")
    ensures Classify(arg) == NotAFlag
  {
    if |arg| >= 2 {
      assert arg[..1] == arg[..2][..1];
    }
  }

  // ---------------------------------------------------------------------------
  // The whole list.
  // ---------------------------------------------------------------------------

  datatype Scanned = Scanned(options: seq<OptionWithParams>, kept: seq<string>)

  /** What the first argument of `args` yields, and whether it takes the argument
      after it as its value. A bare flag takes the next argument unless there is
      none or it starts with `-`. */
  function ScanHead(args: seq<string>): (r: (seq<OptionWithParams>, bool))
    requires args != []
    ensures r.1 ==> |args| >= 2
  {
    match Classify(args[0])
    case Valued(key, value) => ([OptionWithParams(key, Value(value))], false)
    case Bare(key) =>
      if |args| >= 2 && !StartsWith(args[1], "-") then ([OptionWithParams(key, Value(args[1]))], true)
      else ([OptionWithParams(key, NoValue)], false)
    case NotAFlag => ([], false)
  }

  /** The options found in `args`, in order, and what is left of `args` once the
      values taken from the following argument are removed. */
  function Scan(args: seq<string>): Scanned
    decreases |args|
  {
    if args == [] then Scanned([], [])
    else
      var head := ScanHead(args);
      var rest := Scan(if head.1 then args[2..] else args[1..]);
      Scanned(head.0 + rest.options, [args[0]] + rest.kept)
  }

  /** The caller's argument array. */
  class ArgList {
    var items: seq<string>

    constructor (items: seq<string>)
      ensures this.items == items
    {
      this.items := items;
    }
  }

  /** Walks the list with an index, as the array iterator does: after a value is
      spliced out, the next index holds the argument that followed it. */
  method Parse(args: ArgList) returns (options: seq<OptionWithParams>)
    modifies args
    ensures options == Scan(old(args.items)).options
    ensures args.items == Scan(old(args.items)).kept
  {
    ghost var original := args.items;
    options := [];
    var index := 0;
    while index < |args.items|
      invariant 0 <= index <= |args.items|
      invariant options + Scan(args.items[index..]).options == Scan(original).options
      invariant args.items[..index] + Scan(args.items[index..]).kept == Scan(original).kept
      decreases |args.items| - index
    {
      ghost var before := args.items;
      var found, taken := ParseAt(args, index);
      ParseStep(original, before, args.items, index, options, found, taken);
      options := options + found;
      index := index + 1;
    }
  }

  /** `Scan` on the arguments from `index` on, one step unfolded. */
  lemma ScanAt(items: seq<string>, index: nat)
    requires index < |items|
    ensures var head := ScanHead(items[index..]);
      var rest := Scan(items[index + (if head.1 then 2 else 1)..]);
      Scan(items[index..]) == Scanned(head.0 + rest.options, [items[index]] + rest.kept)
  {
    var tail := items[index..];
    assert tail[1..] == items[index + 1..];
    if |tail| >= 2 {
      assert tail[2..] == items[index + 2..];
    }
  }

  /** The loop's invariant survives one turn. */
  lemma ParseStep(original: seq<string>, before: seq<string>, after: seq<string>, index: nat,
                  options: seq<OptionWithParams>, found: seq<OptionWithParams>, taken: bool)
    requires index < |before|
    requires options + Scan(before[index..]).options == Scan(original).options
    requires before[..index] + Scan(before[index..]).kept == Scan(original).kept
    requires (found, taken) == ScanHead(before[index..])
    requires after == if taken then before[..index + 1] + before[index + 2..] else before
    ensures index + 1 <= |after|
    ensures options + found + Scan(after[index + 1..]).options == Scan(original).options
    ensures after[..index + 1] + Scan(after[index + 1..]).kept == Scan(original).kept
  {
    ScanAt(before, index);
    SpliceShape(before, after, index, taken);
    if taken {
      StepParts(before[..index], before[index], options, found,
                Scan(before[index..]), Scan(before[index + 2..]), Scan(original));
    } else {
      StepParts(before[..index], before[index], options, found,
                Scan(before[index..]), Scan(before[index + 1..]), Scan(original));
    }
  }

  /** The bookkeeping of one turn, on the scan results alone. */
  lemma StepParts(done: seq<string>, arg: string, options: seq<OptionWithParams>, found: seq<OptionWithParams>,
                  whole: Scanned, rest: Scanned, total: Scanned)
    requires whole == Scanned(found + rest.options, [arg] + rest.kept)
    requires options + whole.options == total.options
    requires done + whole.kept == total.kept
    ensures options + found + rest.options == total.options
    ensures done + [arg] + rest.kept == total.kept
  {
  }

  lemma SpliceShape(before: seq<string>, after: seq<string>, index: nat, taken: bool)
    requires index < |before|
    requires taken ==> index + 1 < |before|
    requires after == if taken then before[..index + 1] + before[index + 2..] else before
    ensures index + 1 <= |after|
    ensures after[index + 1..] == before[index + (if taken then 2 else 1)..]
    ensures after[..index + 1] == before[..index] + [before[index]]
  {
  }

  /** One turn of the loop: the argument at `index`, by the same tests in the same
      order as the parser makes them. */
  method ParseAt(args: ArgList, index: nat) returns (found: seq<OptionWithParams>, taken: bool)
    requires index < |args.items|
    modifies args
    ensures (found, taken) == ScanHead(old(args.items)[index..])
    ensures args.items == if taken then old(args.items)[..index + 1] + old(args.items)[index + 2..]
                          else old(args.items)
  {
    ghost var tail := args.items[index..];
    assert tail[0] == args.items[index];
    assert |tail| >= 2 ==> tail[1] == args.items[index + 1];
    var arg := args.items[index];
    found, taken := [], false;
    if StartsWith(arg, "--") {
      if '=' in arg {
        var parts := SplitAtEquals(arg);
        if 2 <= |parts.0| {
          var option := parts.0[2..];
          if Utf16.Length(option) >= 2 {
            found := [OptionWithParams(option, Value(parts.1))];
          }
        }
      } else {
        var option := arg[2..];
        if Utf16.Length(option) >= 2 {
          found, taken := TakeValue(args, index, option);
        }
      }
    } else if StartsWith(arg, "-") {
      if '=' in arg {
        var parts := SplitAtEquals(arg);
        if 1 <= |parts.0| {
          var option := parts.0[1..];
          if Utf16.Length(option) == 1 {
            found := [OptionWithParams(option, Value(parts.1))];
          }
        }
      } else {
        var option := arg[1..];
        if Utf16.Length(option) == 1 {
          found, taken := TakeValue(args, index, option);
        }
      }
    }
  }

  /** A bare flag at `index`: emits its value, taking the next argument out of the
      list when there is one that does not start with `-`. */
  method TakeValue(args: ArgList, index: nat, option: string) returns (found: seq<OptionWithParams>, taken: bool)
    requires index < |args.items|
    modifies args
    ensures taken <==> index + 1 < |old(args.items)| && !StartsWith(old(args.items)[index + 1], "-")
    ensures taken ==>
      && found == [OptionWithParams(option, Value(old(args.items)[index + 1]))]
      && args.items == old(args.items)[..index + 1] + old(args.items)[index + 2..]
    ensures !taken ==> found == [OptionWithParams(option, NoValue)] && args.items == old(args.items)
  {
    taken := false;
    if index + 1 < |args.items| {
      var possibleValue := args.items[index + 1];
      if StartsWith(possibleValue, "-") {
        found := [OptionWithParams(option, NoValue)];
        return;
      } else {
        found := [OptionWithParams(option, Value(possibleValue))];
        args.items := args.items[..index + 1] + args.items[index + 2..];
        taken := true;
        return;
      }
    }
    found := [OptionWithParams(option, NoValue)];
  }

  // ---------------------------------------------------------------------------
  // Properties of the scan.
  // ---------------------------------------------------------------------------

  /** The arguments that start with `-`, in order. */
  function Dashed(args: seq<string>): seq<string>
  {
    if args == [] then []
    else (if StartsWith(args[0], "-") then [args[0]] else []) + Dashed(args[1..])
  }

  /** `a` is `b` with some elements left out, the rest in order. */
  predicate IsSubsequence(a: seq<string>, b: seq<string>)
    decreases |b|
  {
    if a == [] then true
    else if b == [] then false
    else if a[0] == b[0] then IsSubsequence(a[1..], b[1..])
    else IsSubsequence(a, b[1..])
  }

  /** Only values are taken out: every argument starting with `-` stays, in order,
      and what stays keeps its relative order. */
  lemma {:induction false} ScanKeepsFlags(args: seq<string>)
    ensures Dashed(Scan(args).kept) == Dashed(args)
    ensures IsSubsequence(Scan(args).kept, args)
    decreases |args|
  {
    if args != [] {
      var head := ScanHead(args);
      var r := Scan(args);
      if head.1 {
        ScanKeepsFlags(args[2..]);
        assert args[1..][1..] == args[2..];
        assert Dashed(args[1..]) == Dashed(args[2..]);
        assert r.kept[1..] == Scan(args[2..]).kept;
        SubsequenceSkip(Scan(args[2..]).kept, args[1..]);
      } else {
        ScanKeepsFlags(args[1..]);
        assert r.kept[1..] == Scan(args[1..]).kept;
      }
    }
  }

  lemma SubsequenceSkip(a: seq<string>, b: seq<string>)
    requires b != [] && IsSubsequence(a, b[1..])
    ensures IsSubsequence(a, b)
    decreases |a| + |b|
  {
    if a != [] && a[0] == b[0] {
      SubsequenceDrop(a, b[1..]);
    }
  }

  lemma SubsequenceDrop(a: seq<string>, c: seq<string>)
    requires a != [] && IsSubsequence(a, c)
    ensures IsSubsequence(a[1..], c)
    decreases |a| + |c|
  {
    if a[0] == c[0] {
      if a[1..] != [] {
        SubsequenceSkip(a[1..], c);
      }
    } else {
      SubsequenceDrop(a, c[1..]);
      SubsequenceSkip(a[1..], c);
    }
  }

  /** The argument at `i` is the value of a bare flag: the argument before it is a
      bare flag and it does not itself start with `-`. */
  predicate TakenAt(args: seq<string>, i: int)
  {
    1 <= i < |args| && Classify(args[i - 1]).Bare? && !StartsWith(args[i], "-")
  }

  /** `args` from `i` on, without the arguments taken as values. */
  function Untaken(args: seq<string>, i: nat): seq<string>
    requires i <= |args|
    decreases |args| - i
  {
    if i == |args| then [] else (if TakenAt(args, i) then [] else [args[i]]) + Untaken(args, i + 1)
  }

  /** Exactly the taken values leave the list: what `Scan` keeps is `args` without
      the arguments at the `TakenAt` positions, in order. */
  lemma ScanRemovesOnlyTaken(args: seq<string>)
    ensures Scan(args).kept == Untaken(args, 0)
  {
    ScanKeepsUntaken(args, 0);
  }

  lemma {:induction false} ScanKeepsUntaken(args: seq<string>, i: nat)
    requires i <= |args| && !TakenAt(args, i)
    ensures Scan(args[i..]).kept == Untaken(args, i)
    decreases |args| - i
  {
    if i < |args| {
      var tail := args[i..];
      assert tail[0] == args[i];
      assert tail[1..] == args[i + 1..];
      var head := ScanHead(tail);
      if head.1 {
        assert tail[1] == args[i + 1] && tail[2..] == args[i + 2..];
        assert TakenAt(args, i + 1);
        PlainArgIsNotAFlag(args[i + 1]);
        ScanKeepsUntaken(args, i + 2);
        assert Untaken(args, i + 1) == Untaken(args, i + 2);
      } else {
        assert !TakenAt(args, i + 1);
        ScanKeepsUntaken(args, i + 1);
      }
    }
  }

  /** The keys of the flags among `args`, in order. */
  function FlagKeys(args: seq<string>): seq<string>
  {
    if args == [] then []
    else (if Classify(args[0]).NotAFlag? then [] else [Classify(args[0]).key]) + FlagKeys(args[1..])
  }

  function Keys(options: seq<OptionWithParams>): seq<string>
  {
    if options == [] then [] else [options[0].option] + Keys(options[1..])
  }

  lemma KeysAppend(a: seq<OptionWithParams>, b: seq<OptionWithParams>)
    ensures Keys(a + b) == Keys(a) + Keys(b)
  {
    if a != [] {
      assert (a + b)[1..] == a[1..] + b;
      KeysAppend(a[1..], b);
    } else {
      assert a + b == b;
    }
  }

  /** One option per flag argument, in the order of the flags: a value taken from
      the following argument is never itself read as a flag. */
  lemma {:induction false} ScanKeysFollowFlags(args: seq<string>)
    ensures Keys(Scan(args).options) == FlagKeys(args)
    decreases |args|
  {
    if args != [] {
      var head := ScanHead(args);
      KeysAppend(head.0, Scan(if head.1 then args[2..] else args[1..]).options);
      if head.1 {
        ScanKeysFollowFlags(args[2..]);
        PlainArgIsNotAFlag(args[1]);
        assert args[1..][1..] == args[2..];
        assert FlagKeys(args[1..]) == FlagKeys(args[2..]);
      } else {
        ScanKeysFollowFlags(args[1..]);
      }
    }
  }

  /** A bare long flag followed by a plain argument takes it; a bare flag at the
      end has no value. */
  lemma ScanExample()
    ensures Scan(["--title", "My Task", "--completed"])
      == Scanned([OptionWithParams("title", Value("My Task")), OptionWithParams("completed", NoValue)],
                 ["--title", "--completed"])
  {
    var args := ["--title", "My Task", "--completed"];
    BareFlagAtEnd();
    BareFlagTakesPlain();
    assert args[2..] == ["--completed"];
  }

  lemma BareFlagAtEnd()
    ensures Scan(["--completed"]) == Scanned([OptionWithParams("completed", NoValue)], ["--completed"])
  {
    ClassifyLongFlag("completed", NoValue);
    assert "--completed" == LongFlag("completed", NoValue);
    assert ScanHead(["--completed"]) == ([OptionWithParams("completed", NoValue)], false);
    assert ["--completed"][1..] == [];
  }

  lemma BareFlagTakesPlain()
    ensures ScanHead(["--title", "My Task", "--completed"]) == ([OptionWithParams("title", Value("My Task"))], true)
  {
    ClassifyLongFlag("title", NoValue);
    assert "--title" == LongFlag("title", NoValue);
    assert !StartsWith("My Task", "-") by { assert "My Task"[..1] == "M"; }
  }

  /** A valued short flag takes its value from after the `=`. */
  lemma ValuedShortFlagExample()
    ensures Scan(["-c=true"]) == Scanned([OptionWithParams("c", Value("true"))], ["-c=true"])
  {
    Utf16.LengthOne("c");
    ClassifyShortFlag("c", Value("true"));
    assert "-c=true" == ShortFlag("c", Value("true"));
    assert ScanHead(["-c=true"]) == ([OptionWithParams("c", Value("true"))], false);
    assert ["-c=true"][1..] == [];
  }

  /** A bare short flag followed by another flag takes no value. */
  lemma BareShortFlagsExample()
    ensures Scan(["-a", "-b"]) == Scanned([OptionWithParams("a", NoValue), OptionWithParams("b", NoValue)],
                                          ["-a", "-b"])
  {
    Utf16.LengthOne("a");
    Utf16.LengthOne("b");
    ClassifyShortFlag("b", NoValue);
    assert "-b" == ShortFlag("b", NoValue);
    assert ScanHead(["-b"]) == ([OptionWithParams("b", NoValue)], false);
    assert ["-b"][1..] == [];
    assert Scan(["-b"]) == Scanned([OptionWithParams("b", NoValue)], ["-b"]);
    ClassifyShortFlag("a", NoValue);
    assert "-a" == ShortFlag("a", NoValue);
    assert StartsWith("-b", "-") by { assert "-b"[..1] == "-"; }
    assert ScanHead(["-a", "-b"]) == ([OptionWithParams("a", NoValue)], false);
    assert ["-a", "-b"][1..] == ["-b"];
  }
}
