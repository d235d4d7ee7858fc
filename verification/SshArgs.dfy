/** Skipping ssh options to find the target and the command. */
module SshArgs {
  import opened Proto

  /** ssh options that take a value. */
  const WITH_ARG: set<char> := {
    'B', 'b', 'c', 'D', 'E', 'e', 'F', 'I', 'i', 'J', 'L', 'l',
    'm', 'O', 'o', 'P', 'p', 'Q', 'R', 'S', 'W', 'w'}
  
  /** ssh options that take none. */
  const NO_ARG: set<char> := {
    '4', '6', 'A', 'a', 'C', 'f', 'G', 'g', 'K', 'k', 'M', 'N',
    'n', 'q', 's', 'T', 't', 'V', 'v', 'X', 'x', 'Y', 'y'}

  datatype Parsed = Parsed(target: string, command: Option<string>)

  function Join(words: seq<string>): string {
    if words == [] then ""
    else if |words| == 1 then words[0]
    else words[0] + " " + Join(words[1..])
  }

  /** Whether a word such as `-TCp` takes its value from the next word. */
  function TakesNext(flags: string): bool {
    if flags == "" then false
    else if flags[0] in WITH_ARG then |flags| == 1
    else if flags[0] in NO_ARG then TakesNext(flags[1..])
    else false
  }

  /** A lone dash is not an option. */
  predicate IsOption(word: string) {
    |word| > 1 && word[0] == '-'
  }

  /** The target and the words after it. */
  function FindTarget(args: seq<string>): Option<(string, seq<string>)> {
    if args == [] then None
    else if args[0] == "--" then (if |args| > 1 then Some((args[1], args[2..])) else None)
    else if !IsOption(args[0]) then Some((args[0], args[1..]))
    else if !TakesNext(args[0][1..]) then FindTarget(args[1..])
    else if |args| > 1 then FindTarget(args[2..])
    else None
  }

  function Parse(args: seq<string>): Option<Parsed> {
    match FindTarget(args)
    case None => None
    case Some((target, words)) => Some(Parsed(target, if words == [] then None else Some(Join(words))))
  }

  /** The scan over one option word. */
  method ScanFlags(flags: string) returns (takesNext: bool)
    ensures takesNext == TakesNext(flags)
  {
    takesNext := false;
    var i := 0;
    while i < |flags|
      invariant i <= |flags|
      invariant !takesNext
      invariant TakesNext(flags) == TakesNext(flags[i..])
    {
      var c := flags[i];
      if c in WITH_ARG {
        if i + 1 == |flags| {
          takesNext := true;
        }
        break;
      }
      if c !in NO_ARG {
        break;
      }
      i := i + 1;
    }
  }

  /** One step of the search, by position. */
  lemma FindTargetAt(args: seq<string>, i: nat)
    requires i < |args|
    ensures FindTarget(args[i..]) ==
            if args[i] == "--" then (if i + 1 < |args| then Some((args[i + 1], args[i + 2..])) else None)
            else if !IsOption(args[i]) then Some((args[i], args[i + 1..]))
            else if !TakesNext(args[i][1..]) then FindTarget(args[i + 1..])
            else if i + 1 < |args| then FindTarget(args[i + 2..])
            else None
  {
    var rest := args[i..];
    assert rest[0] == args[i] && rest[1..] == args[i + 1..];
    if i + 1 < |args| {
      assert rest[1] == args[i + 1] && rest[2..] == args[i + 2..];
    }
  }

  /** The target is known, and some of the words after it. */
  ghost predicate Found(args: seq<string>, target: string, words: seq<string>, next: nat)
    requires next <= |args|
  {
    FindTarget(args) == Some((target, words + args[next..]))
  }

  lemma FoundNow(args: seq<string>, target: string, next: nat)
    requires next <= |args| && FindTarget(args) == Some((target, args[next..]))
    ensures Found(args, target, [], next)
  {
    assert [] + args[next..] == args[next..];
  }

  lemma FoundOneMore(args: seq<string>, target: string, words: seq<string>, next: nat)
    requires next < |args| && Found(args, target, words, next)
    ensures Found(args, target, words + [args[next]], next + 1)
  {
    assert words + args[next..] == words + [args[next]] + args[next + 1..];
  }

  lemma FoundAtEnd(args: seq<string>, target: string, words: seq<string>)
    requires Found(args, target, words, |args|)
    ensures FindTarget(args) == Some((target, words))
  {
    assert words + args[|args|..] == words;
  }

  method ParseSshArgs(args: seq<string>) returns (r: Option<Parsed>)
    ensures r == Parse(args)
  {
    var target: Option<string> := None;
    var commandParts: seq<string> := [];
    var next := 0;
    assert args[0..] == args;
    while next < |args|
      invariant next <= |args|
      invariant target.None? ==> commandParts == [] && FindTarget(args) == FindTarget(args[next..])
      invariant target.Some? ==> Found(args, target.value, commandParts, next)
      decreases |args| - next
    {
      var arg := args[next];
      next := next + 1;
      if target.Some? {
        FoundOneMore(args, target.value, commandParts, next - 1);
        commandParts := commandParts + [arg];
        continue;
      }
      FindTargetAt(args, next - 1);
      if arg == "--" {
        if next < |args| {
          target := Some(args[next]);
          next := next + 1;
          FoundNow(args, target.value, next);
        }
        continue;
      }
      if !(|arg| > 0 && arg[0] == '-' && arg[1..] != "") {
        target := Some(arg);
        FoundNow(args, arg, next);
        continue;
      }
      var takesNext := ScanFlags(arg[1..]);
      if takesNext && next < |args| {
        next := next + 1;
      }
    }
    if target.None? { return None; }
    FoundAtEnd(args, target.value, commandParts);
    r := Some(Parsed(target.value, if commandParts == [] then None else Some(Join(commandParts))));
  }

  // ------------------------------------------------------------------------
  // Printing a command line

  /** An option as a user writes it: plain flags bundled in one word, with at
      the end of the bundle possibly an option whose value is attached to the
      word or follows as the next one. */
  datatype Opt =
    | Flags(flags: string)
    | Attached(flags: string, name: char, value: string)
    | Detached(flags: string, name: char, value: string)

  predicate WellFormed(o: Opt) {
    && (forall c :: c in o.flags ==> c in NO_ARG)
    && match o
    case Flags(flags) => flags != ""
    case Attached(_, name, value) => name in WITH_ARG && value != ""
    case Detached(_, name, _) => name in WITH_ARG
  }

  function Words(o: Opt): seq<string> {
    match o
    case Flags(flags) => ["-" + flags]
    case Attached(flags, name, value) => ["-" + flags + [name] + value]
    case Detached(flags, name, value) => ["-" + flags + [name], value]
  }

  function Print(opts: seq<Opt>, rest: seq<string>): seq<string> {
    if opts == [] then rest else Words(opts[0]) + Print(opts[1..], rest)
  }

  lemma DashIsNoFlag()
    ensures '-' !in NO_ARG && '-' !in WITH_ARG
  {
  }

  lemma FlagsAreNotBoth(c: char)
    requires c in NO_ARG
    ensures c !in WITH_ARG
  {
  }

  /** Plain flags are passed over. */
  lemma {:induction false} FlagsPass(flags: string, tail: string)
    requires forall c :: c in flags ==> c in NO_ARG
    ensures TakesNext(flags + tail) == TakesNext(tail)
  {
    if flags == "" {
      assert flags + tail == tail;
    } else {
      assert flags[0] in flags;
      FlagsAreNotBoth(flags[0]);
      assert (flags + tail)[1..] == flags[1..] + tail;
      FlagsPass(flags[1..], tail);
    }
  }

  lemma FlagsStartNoDash(flags: string)
    requires forall c :: c in flags ==> c in NO_ARG
    ensures flags != "" ==> flags[0] != '-'
  {
    DashIsNoFlag();
    assert flags != "" ==> flags[0] in flags;
  }

  lemma FlagsWord(flags: string)
    requires flags != "" && forall c :: c in flags ==> c in NO_ARG
    ensures var w := "-" + flags; IsOption(w) && w != "--" && !TakesNext(w[1..])
  {
    var w := "-" + flags;
    FlagsPass(flags, "");
    assert w[1..] == flags + "" == flags;
    FlagsStartNoDash(flags);
  }

  /** A bundle that ends in an option with a value, attached or not. */
  lemma BundleWord(flags: string, name: char, value: string)
    requires (forall c :: c in flags ==> c in NO_ARG) && name in WITH_ARG
    ensures var w := "-" + flags + [name] + value;
            IsOption(w) && w != "--" && (TakesNext(w[1..]) <==> value == "")
  {
    var w := "-" + flags + [name] + value;
    DashIsNoFlag();
    FlagsPass(flags, [name] + value);
    assert w[1..] == flags + ([name] + value);
    assert w[1] == if flags == "" then name else flags[0];
    FlagsStartNoDash(flags);
  }

  lemma OptionWord(o: Opt)
    requires WellFormed(o)
    ensures IsOption(Words(o)[0]) && Words(o)[0] != "--"
    ensures TakesNext(Words(o)[0][1..]) == o.Detached?
  {
    match o
    case Flags(flags) => FlagsWord(flags);
    case Attached(flags, name, value) => BundleWord(flags, name, value);
    case Detached(flags, name, _) =>
      BundleWord(flags, name, "");
      assert "-" + flags + [name] + "" == "-" + flags + [name];
  }

  lemma {:induction false} OptionsPass(opts: seq<Opt>, rest: seq<string>)
    requires forall o :: o in opts ==> WellFormed(o)
    ensures FindTarget(Print(opts, rest)) == FindTarget(rest)
    decreases |opts|
  {
    if opts != [] {
      var o, tail := opts[0], Print(opts[1..], rest);
      assert o in opts;
      OptionWord(o);
      var args := Words(o) + tail;
      assert args[0] == Words(o)[0];
      if o.Detached? {
        assert args[2..] == tail;
      } else {
        assert args[1..] == tail;
      }
      OptionsPass(opts[1..], rest);
    }
  }

  /** Whatever options precede it, and whatever their values look like, the
      target and the command come back; a target that looks like an option
      does too when `--` announces it. */
  lemma ParseUndoesPrint(opts: seq<Opt>, target: string, words: seq<string>)
    requires forall o :: o in opts ==> WellFormed(o)
    ensures var expected := Some(Parsed(target, if words == [] then None else Some(Join(words))));
            && Parse(Print(opts, ["--", target] + words)) == expected
            && (!IsOption(target) ==> Parse(Print(opts, [target] + words)) == expected)
  {
    OptionsPass(opts, ["--", target] + words);
    OptionsPass(opts, [target] + words);
    assert (["--", target] + words)[2..] == words;
    assert ([target] + words)[1..] == words;
  }

  /** Without a target there is no command line. */
  lemma OptionsAloneAreRejected(opts: seq<Opt>)
    requires forall o :: o in opts ==> WellFormed(o)
    ensures Parse(Print(opts, [])) == None && Parse(Print(opts, ["--"])) == None
  {
    OptionsPass(opts, []);
    OptionsPass(opts, ["--"]);
  }

  lemma ValuedLetter(c: char)
    ensures c in "BbcDEeFIiJLlmOoPpQRSWw" ==> c in WITH_ARG
  {
  }

  lemma PlainLetter(c: char)
    ensures c in "46AaCfGgKkMNnqsTtVvXxYy" ==> c in NO_ARG
  {
  }

  lemma DetachedPasses(flags: string, c: char, value: string, rest: seq<string>)
    requires (forall f :: f in flags ==> f in NO_ARG) && c in WITH_ARG
    ensures FindTarget(["-" + flags + [c], value] + rest) == FindTarget(rest)
  {
    var opt := Detached(flags, c, value);
    OptionsPass([opt], rest);
    assert Print([opt], rest) == Words(opt) + rest;
  }

  lemma AttachedPasses(c: char, value: string, rest: seq<string>)
    requires c in WITH_ARG && value != ""
    ensures FindTarget(["-" + [c] + value] + rest) == FindTarget(rest)
  {
    var opt := Attached("", c, value);
    OptionsPass([opt], rest);
    assert Print([opt], rest) == Words(opt) + rest;
    assert "-" + "" + [c] == "-" + [c];
  }

  lemma FlagPasses(c: char, rest: seq<string>)
    requires c in NO_ARG
    ensures FindTarget(["-" + [c]] + rest) == FindTarget(rest)
  {
    var opt := Flags([c]);
    OptionsPass([opt], rest);
    assert Print([opt], rest) == Words(opt) + rest;
  }

  /** The letters of ssh(1): these options take a value, attached or from the
      next word, */
  lemma ValuedOption(c: char, value: string, rest: seq<string>)
    requires c in "BbcDEeFIiJLlmOoPpQRSWw"
    ensures FindTarget(["-" + [c], value] + rest) == FindTarget(rest)
    ensures value != "" ==> FindTarget(["-" + [c] + value] + rest) == FindTarget(rest)
  {
    ValuedLetter(c);
    DetachedPasses("", c, value, rest);
    assert "-" + "" + [c] == "-" + [c];
    if value != "" { AttachedPasses(c, value, rest); }
  }

  /** and these do not, alone or bundled before one that does. */
  lemma PlainOption(c: char, value: string, rest: seq<string>)
    requires c in "46AaCfGgKkMNnqsTtVvXxYy"
    ensures FindTarget(["-" + [c]] + rest) == FindTarget(rest)
    ensures FindTarget(["-" + [c] + "p", value] + rest) == FindTarget(rest)
  {
    PlainLetter(c);
    ValuedLetter('p');
    FlagPasses(c, rest);
    DetachedPasses([c], 'p', value, rest);
  }

  function ControlOptions(settings: seq<string>, rest: seq<string>): seq<string> {
    if settings == [] then rest else ["-o", settings[0]] + ControlOptions(settings[1..], rest)
  }

  lemma {:induction false} SettingsPass(settings: seq<string>, rest: seq<string>)
    ensures FindTarget(ControlOptions(settings, rest)) == FindTarget(rest)
    decreases |settings|
  {
    if settings != [] {
      ValuedOption('o', settings[0], ControlOptions(settings[1..], rest));
      SettingsPass(settings[1..], rest);
    }
  }

  lemma ConfigPasses(config: string, control: string, rest: seq<string>)
    ensures FindTarget(["-F", config] + (["-S", control] + rest)) == FindTarget(rest)
  {
    ValuedOption('F', config, ["-S", control] + rest);
    ValuedOption('S', control, rest);
    assert "-" + ['F'] == "-F" && "-" + ['S'] == "-S";
  }

  lemma ControlPasses(config: string, control: string, settings: seq<string>, tail: seq<string>)
    ensures FindTarget(["-F", config] + (["-S", control] + ControlOptions(settings, ["-T"] + tail))) == FindTarget(tail)
  {
    ConfigPasses(config, control, ControlOptions(settings, ["-T"] + tail));
    SettingsPass(settings, ["-T"] + tail);
    PlainOption('T', "", tail);
    assert "-" + ['T'] == "-T";
  }

  lemma TargetFirst(target: string, words: seq<string>)
    requires !IsOption(target)
    ensures target != "--" && FindTarget([target] + words) == Some((target, words))
  {
    assert ([target] + words)[1..] == words;
  }

  /** The command lines that herdr writes, whatever it fills in. */
  lemma HerdrsCommandLine(config: string, control: string, settings: seq<string>, target: string, command: seq<string>)
    requires !IsOption(target)
    ensures var line := ["-F", config] + (["-S", control] + ControlOptions(settings, ["-T"] + ([target] + command)));
            Parse(line) == Some(Parsed(target, if command == [] then None else Some(Join(command))))
  {
    ControlPasses(config, control, settings, [target] + command);
    TargetFirst(target, command);
  }

  // ------------------------------------------------------------------------
  // The joined command

  function Split(s: string): (words: seq<string>)
    ensures words != []
  {
    if s == "" then [""]
    else if s[0] == ' ' then [""] + Split(s[1..])
    else var words := Split(s[1..]); [[s[0]] + words[0]] + words[1..]
  }

  lemma {:induction false} SplitAfterWord(word: string, rest: string)
    requires ' ' !in word
    ensures Split(word + rest) == [word + Split(rest)[0]] + Split(rest)[1..]
  {
    if word == "" {
      assert word + rest == rest;
      assert word + Split(rest)[0] == Split(rest)[0];
    } else {
      SplitAfterWord(word[1..], rest);
      assert (word + rest)[1..] == word[1..] + rest;
      assert [word[0]] + (word[1..] + Split(rest)[0]) == word + Split(rest)[0];
    }
  }

  /** The command keeps its words, in order. */
  lemma {:induction false} SplitUndoesJoin(words: seq<string>)
    requires words != [] && forall w :: w in words ==> ' ' !in w
    ensures Split(Join(words)) == words
  {
    var word := words[0];
    assert word in words;
    if |words| == 1 {
      SplitAfterWord(word, "");
      assert word + "" == word;
    } else {
      SplitUndoesJoin(words[1..]);
      var rest := " " + Join(words[1..]);
      assert rest[1..] == Join(words[1..]);
      assert Split(rest) == [""] + words[1..];
      SplitAfterWord(word, rest);
      assert word + "" == word;
      assert word + rest == word + " " + Join(words[1..]);
    }
  }
}
