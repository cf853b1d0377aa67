// equipa/agent_runner.py: the reader of uvx's options before the tool name.

/** _uvx_options_before_tool with any option table: one loop over the arguments, one over
    the letters of a cluster. */
module UvxOptions {
  import opened Wrappers

  datatype Result<+T> = Ok(value: T) | ValueError(arg: string)

  /** A long option (or a short flag as written) and its value. */
  datatype Entry = Entry(option: string, value: Option<string>)

  datatype Table = Table(flags: set<string>, values: set<string>, shortFlags: set<char>, aliases: map<char, string>)

  /** A long option that takes a value is no flag and holds no =. */
  ghost predicate Named(flags: set<string>, o: string) {
    LongName(o) && o !in flags
  }

  predicate LongName(o: string) {
    '=' !in o && |o| > 2 && o[..2] == "--"
  }

  ghost predicate Consistent(t: Table) {
    && (forall o :: o in t.values ==> Named(t.flags, o))
    && t.shortFlags !! t.aliases.Keys
    && (forall c :: c in t.aliases ==> t.aliases[c] in t.values && c != '-')
    && '-' !in t.shortFlags
  }

  // -------------------------------------------------------------------------
  // One argument
  // -------------------------------------------------------------------------

  /** What one argument says, and whether it takes the next one as a value. */
  datatype Reading = Reading(entries: seq<Entry>, takesNext: bool)

  predicate IsLong(arg: string) {
    |arg| >= 2 && arg[..2] == "--"
  }

  /** Where arg.partition("=") splits. */
  function EqualsAt(arg: string): (i: nat)
    ensures i <= |arg|
  {
    if arg == "" || arg[0] == '=' then 0 else EqualsAt(arg[1..]) + 1
  }

  function ReadLong(t: Table, arg: string, following: Option<string>): Result<Reading> {
    var at := EqualsAt(arg);
    var option := arg[..at];
    if option in t.flags && at == |arg| then Ok(Reading([Entry(option, None)], false))
    else if option !in t.values then ValueError(arg)
    else if at < |arg| then Ok(Reading([Entry(option, Some(arg[at + 1..]))], false))
    else Ok(Reading([Entry(option, following)], true))
  }

  function Glued(attached: string): string {
    if attached != "" && attached[0] == '=' then attached[1..] else attached
  }

  /** A reading with entries read before it. */
  function Joined(entries: seq<Entry>, rest: Result<Reading>): Result<Reading> {
    match rest
    case Ok(r) => Ok(Reading(entries + r.entries, r.takesNext))
    case ValueError(a) => ValueError(a)
  }

  /** The letters left of the cluster arg[1..]. */
  function ReadCluster(t: Table, arg: string, letters: string, following: Option<string>): Result<Reading> {
    if letters == "" then Ok(Reading([], false))
    else if letters[0] in t.shortFlags
    then Joined([Entry(['-', letters[0]], None)], ReadCluster(t, arg, letters[1..], following))
    else if letters[0] !in t.aliases then ValueError(arg)
    else if letters[1..] != "" then Ok(Reading([Entry(t.aliases[letters[0]], Some(Glued(letters[1..])))], false))
    else Ok(Reading([Entry(t.aliases[letters[0]], following)], true))
  }

  function ReadOne(t: Table, arg: string, following: Option<string>): Result<Reading> {
    if arg == "" then ValueError(arg)
    else if IsLong(arg) then ReadLong(t, arg, following)
    else ReadCluster(t, arg, arg[1..], following)
  }

  lemma JoinedTwice(a: seq<Entry>, b: seq<Entry>, rest: Result<Reading>)
    ensures Joined(a, Joined(b, rest)) == Joined(a + b, rest)
  {
    if rest.Ok? {
      assert a + (b + rest.value.entries) == a + b + rest.value.entries;
    }
  }

  lemma JoinedToNothing(rest: Result<Reading>)
    ensures Joined([], rest) == rest
  {
    if rest.Ok? {
      assert [] + rest.value.entries == rest.value.entries;
    }
  }

  method ParseCluster(t: Table, arg: string, following: Option<string>) returns (r: Result<Reading>)
    requires arg != ""
    ensures r == ReadCluster(t, arg, arg[1..], following)
  {
    var cluster := arg[1..];
    var options: seq<Entry> := [];
    JoinedToNothing(ReadCluster(t, arg, cluster, following));
    assert cluster[0..] == cluster;
    for position := 0 to |cluster|
      invariant Joined(options, ReadCluster(t, arg, cluster[position..], following)) == ReadCluster(t, arg, cluster, following)
    {
      var letter := cluster[position];
      var attached := cluster[position + 1..];
      assert cluster[position..][1..] == attached && cluster[position..][0] == letter;
      if letter in t.shortFlags {
        var flag := [Entry(['-', letter], None)];
        JoinedTwice(options, flag, ReadCluster(t, arg, attached, following));
        options := options + flag;
        continue;
      }
      if letter !in t.aliases {
        return ValueError(arg);
      }
      if attached != "" {
        var value := if attached[0] == '=' then attached[1..] else attached;
        return Ok(Reading(options + [Entry(t.aliases[letter], Some(value))], false));
      }
      return Ok(Reading(options + [Entry(t.aliases[letter], following)], true));
    }
    assert options + [] == options;
    return Ok(Reading(options, false));
  }

  method ReadArgument(t: Table, arg: string, following: Option<string>) returns (r: Result<Reading>)
    requires arg != ""
    ensures r == ReadOne(t, arg, following)
  {
    if !IsLong(arg) {
      r := ParseCluster(t, arg, following);
      return;
    }
    var at := EqualsAt(arg);
    var option, hasValue := arg[..at], at < |arg|;
    if option in t.flags && !hasValue {
      return Ok(Reading([Entry(option, None)], false));
    }
    if option !in t.values {
      return ValueError(arg);
    }
    return Ok(Reading([Entry(option, if hasValue then Some(arg[at + 1..]) else following)], !hasValue));
  }

  // -------------------------------------------------------------------------
  // All arguments up to the tool name
  // -------------------------------------------------------------------------

  type Reader = (string, Option<string>) -> Result<Reading>

  /** ReadOne with its table. */
  function ReaderOf(t: Table): Reader {
    (arg, following) => ReadOne(t, arg, following)
  }

  /** The tool name, or the - or -- that ends the options. */
  predicate Stops(arg: string) {
    arg == "" || arg[0] != '-' || arg == "-" || arg == "--"
  }

  function At(args: seq<string>, k: nat): Option<string> {
    if k < |args| then Some(args[k]) else None
  }

  function Drop(args: seq<string>, n: nat): seq<string> {
    if n < |args| then args[n..] else []
  }

  function Width(r: Reading): nat {
    if r.takesNext then 2 else 1
  }

  function Before(entries: seq<Entry>, rest: Result<seq<Entry>>): Result<seq<Entry>> {
    match rest
    case Ok(es) => Ok(entries + es)
    case ValueError(a) => ValueError(a)
  }

  function ParseWith(one: Reader, args: seq<string>): Result<seq<Entry>>
    decreases |args|
  {
    if args == [] || Stops(args[0]) then Ok([])
    else
      match one(args[0], At(args, 1))
      case ValueError(a) => ValueError(a)
      case Ok(r) => Before(r.entries, ParseWith(one, Drop(args, Width(r))))
  }

  /** (long option, value) for each option before the tool name. */
  function Parse(t: Table, args: seq<string>): Result<seq<Entry>> {
    ParseWith(ReaderOf(t), args)
  }

  lemma BeforeTwice(a: seq<Entry>, b: seq<Entry>, rest: Result<seq<Entry>>)
    ensures Before(a, Before(b, rest)) == Before(a + b, rest)
  {
    if rest.Ok? {
      assert a + (b + rest.value) == a + b + rest.value;
    }
  }

  lemma BeforeNothing(rest: Result<seq<Entry>>)
    ensures Before([], rest) == rest
  {
    if rest.Ok? {
      assert [] + rest.value == rest.value;
    }
  }

  lemma ParseFrom(one: Reader, args: seq<string>, index: nat)
    requires index < |args| && !Stops(args[index])
    ensures ParseWith(one, Drop(args, index)) ==
            match one(args[index], At(args, index + 1))
            case ValueError(a) => ValueError(a)
            case Ok(r) => Before(r.entries, ParseWith(one, Drop(args, index + Width(r))))
  {
    var left := Drop(args, index);
    assert left[0] == args[index] && At(left, 1) == At(args, index + 1);
    var read := one(left[0], At(left, 1));
    if read.Ok? {
      assert Drop(left, Width(read.value)) == Drop(args, index + Width(read.value));
    }
  }

  /** The parse of what is left at an index, without taking the list apart. */
  function ParseAt(one: Reader, args: seq<string>, index: nat): Result<seq<Entry>>
    decreases |args| - index
  {
    if index >= |args| || Stops(args[index]) then Ok([])
    else
      match one(args[index], At(args, index + 1))
      case ValueError(a) => ValueError(a)
      case Ok(r) => Before(r.entries, ParseAt(one, args, index + Width(r)))
  }

  lemma {:induction false} ParseAtIsParse(one: Reader, args: seq<string>, index: nat)
    ensures ParseAt(one, args, index) == ParseWith(one, Drop(args, index))
    decreases |args| - index
  {
    if index >= |args| || Stops(args[index]) {
      NothingLeft(one, args, index);
    } else {
      ParseFrom(one, args, index);
      match one(args[index], At(args, index + 1))
      case ValueError(_) =>
      case Ok(r) => ParseAtIsParse(one, args, index + Width(r));
    }
  }

  lemma NothingLeft(one: Reader, args: seq<string>, index: nat)
    requires index < |args| ==> Stops(args[index])
    ensures ParseWith(one, Drop(args, index)) == Ok([])
  {
  }

  method OptionsBeforeTool(t: Table, args: seq<string>) returns (r: Result<seq<Entry>>)
    ensures r == Parse(t, args)
  {
    var options: seq<Entry> := [];
    var index := 0;
    ghost var one, all := ReaderOf(t), Parse(t, args);
    ParseAtIsParse(one, args, 0);
    assert Drop(args, 0) == args;
    BeforeNothing(all);
    while index < |args|
      invariant Before(options, ParseAt(one, args, index)) == all
      decreases |args| - index
    {
      var arg := args[index];
      if Stops(arg) {
        break;
      }
      var read := ReadArgument(t, arg, At(args, index + 1));
      if read.ValueError? {
        return ValueError(read.arg);
      }
      BeforeTwice(options, read.value.entries, ParseAt(one, args, index + Width(read.value)));
      options := options + read.value.entries;
      index := index + Width(read.value);
    }
    assert options + [] == options;
    return Ok(options);
  }

  /** Parsing an argument in front of others. */
  lemma ParseCons(t: Table, arg: string, rest: seq<string>)
    requires !Stops(arg)
    ensures Parse(t, [arg] + rest) ==
            match ReadOne(t, arg, At(rest, 0))
            case ValueError(a) => ValueError(a)
            case Ok(r) => Before(r.entries, Parse(t, Drop(rest, Width(r) - 1)))
  {
    ConsWith(ReaderOf(t), arg, rest);
  }

  lemma ConsWith(one: Reader, arg: string, rest: seq<string>)
    requires !Stops(arg)
    ensures ParseWith(one, [arg] + rest) ==
            match one(arg, At(rest, 0))
            case ValueError(a) => ValueError(a)
            case Ok(r) => Before(r.entries, ParseWith(one, Drop(rest, Width(r) - 1)))
  {
    var args := [arg] + rest;
    assert At(args, 1) == At(rest, 0);
    var read := one(arg, At(args, 1));
    if read.Ok? {
      assert Drop(args, Width(read.value)) == Drop(rest, Width(read.value) - 1);
    }
  }

  // -------------------------------------------------------------------------
  // Every spelling of an option says the same
  // -------------------------------------------------------------------------

  lemma {:induction false} EqualsAtOf(o: string, rest: string)
    requires '=' !in o && (rest == "" || rest[0] == '=')
    ensures EqualsAt(o + rest) == |o|
    decreases |o|
  {
    if o == "" {
      assert o + rest == rest;
    } else {
      assert (o + rest)[1..] == o[1..] + rest;
      EqualsAtOf(o[1..], rest);
    }
  }

  lemma LongReadings(t: Table, o: string, value: string)
    requires Consistent(t) && o in t.values
    ensures !Stops(o) && ReadOne(t, o, Some(value)) == Ok(Reading([Entry(o, Some(value))], true))
    ensures !Stops(o + "=" + value)
    ensures forall f :: ReadOne(t, o + "=" + value, f) == Ok(Reading([Entry(o, Some(value))], false))
  {
    assert Named(t.flags, o);
    EqualsAtOf(o, "");
    EqualsAtOf(o, "=" + value);
    var joined := o + "=" + value;
    assert joined == o + ("=" + value) && o + "" == o && o[..|o|] == o;
    assert joined[..2] == o[..2] && joined[..|o|] == o && joined[|o| + 1..] == value;
  }

  /** --option value and --option=value, for every value. */
  lemma LongSpellings(t: Table, o: string, value: string, rest: seq<string>)
    requires Consistent(t) && o in t.values
    ensures Parse(t, [o] + ([value] + rest)) == Before([Entry(o, Some(value))], Parse(t, rest))
    ensures Parse(t, [o + "=" + value] + rest) == Before([Entry(o, Some(value))], Parse(t, rest))
  {
    LongReadings(t, o, value);
    ParseCons(t, o, [value] + rest);
    ParseCons(t, o + "=" + value, rest);
    assert Drop([value] + rest, 1) == rest && Drop(rest, 0) == rest;
  }

  ghost predicate AllFlags(t: Table, flags: string) {
    forall i :: 0 <= i < |flags| ==> flags[i] in t.shortFlags
  }

  function FlagEntries(flags: string): seq<Entry> {
    if flags == "" then [] else [Entry(['-', flags[0]], None)] + FlagEntries(flags[1..])
  }

  lemma {:induction false} FlagsComeFirst(t: Table, arg: string, flags: string, letters: string, following: Option<string>)
    requires AllFlags(t, flags)
    ensures ReadCluster(t, arg, flags + letters, following)
            == Joined(FlagEntries(flags), ReadCluster(t, arg, letters, following))
    decreases |flags|
  {
    var rest := ReadCluster(t, arg, letters, following);
    if flags == "" {
      assert flags + letters == letters;
      JoinedToNothing(rest);
    } else {
      assert (flags + letters)[1..] == flags[1..] + letters;
      FlagsComeFirst(t, arg, flags[1..], letters, following);
      JoinedTwice([Entry(['-', flags[0]], None)], FlagEntries(flags[1..]), rest);
    }
  }

  /** A cluster of flags, then any letters, as long as it does not begin with a dash. */
  lemma ClusterReading(t: Table, flags: string, letters: string, following: Option<string>)
    requires Consistent(t) && AllFlags(t, flags) && flags + letters != ""
    requires flags == "" && letters != "" ==> letters[0] != '-'
    ensures var arg := "-" + flags + letters;
            !Stops(arg) && ReadOne(t, arg, following) == Joined(FlagEntries(flags), ReadCluster(t, arg, letters, following))
  {
    var arg := "-" + flags + letters;
    FirstLetter(flags, letters);
    if flags != "" {
      assert flags[0] in t.shortFlags;
    }
    FlagsComeFirst(t, arg, flags, letters, following);
  }

  lemma FirstLetter(flags: string, letters: string)
    requires flags + letters != ""
    ensures var arg := "-" + flags + letters;
            |arg| >= 2 && arg[0] == '-' && arg[1..] == flags + letters && arg[1] == if flags != "" then flags[0] else letters[0]
  {
  }

  lemma ClusterParses(t: Table, flags: string, letters: string, rest: seq<string>, entry: Entry, takesNext: bool)
    requires Consistent(t) && AllFlags(t, flags) && letters != "" && letters[0] in t.aliases
    requires ReadCluster(t, "-" + flags + letters, letters, At(rest, 0)) == Ok(Reading([entry], takesNext))
    ensures Parse(t, ["-" + flags + letters] + rest)
            == Before(FlagEntries(flags) + [entry], Parse(t, Drop(rest, if takesNext then 1 else 0)))
  {
    ClusterReading(t, flags, letters, At(rest, 0));
    ParseCons(t, "-" + flags + letters, rest);
  }

  /** -o value, -ovalue and -o=value, alone or at the end of a flag cluster: the second for every
      value that is not empty and does not begin with =, the other two for every value. */
  lemma ShortSpellings(t: Table, flags: string, o: char, value: string, rest: seq<string>)
    requires Consistent(t) && AllFlags(t, flags) && o in t.aliases
    ensures var expected := Before(FlagEntries(flags) + [Entry(t.aliases[o], Some(value))], Parse(t, rest));
            && Parse(t, ["-" + flags + [o]] + ([value] + rest)) == expected
            && Parse(t, ["-" + flags + ([o] + ("=" + value))] + rest) == expected
            && (value != "" && value[0] != '=' ==> Parse(t, ["-" + flags + ([o] + value)] + rest) == expected)
  {
    var entry := Entry(t.aliases[o], Some(value));
    assert [o][1..] == "" && Drop([value] + rest, 1) == rest && Drop(rest, 0) == rest;
    ClusterParses(t, flags, [o], [value] + rest, entry, true);
    var equals := [o] + ("=" + value);
    assert equals[1..] == "=" + value && ("=" + value)[1..] == value;
    ClusterParses(t, flags, equals, rest, entry, false);
    if value != "" && value[0] != '=' {
      assert ([o] + value)[1..] == value;
      ClusterParses(t, flags, [o] + value, rest, entry, false);
    }
  }

  /** A glued value that begins with = loses it. */
  lemma GluedIsAmbiguous(t: Table, flags: string, o: char, value: string, rest: seq<string>)
    requires Consistent(t) && AllFlags(t, flags) && o in t.aliases && value != "" && value[0] == '='
    ensures Parse(t, ["-" + flags + ([o] + value)] + rest)
            == Before(FlagEntries(flags) + [Entry(t.aliases[o], Some(value[1..]))], Parse(t, rest))
  {
    assert ([o] + value)[1..] == value && Drop(rest, 0) == rest;
    ClusterParses(t, flags, [o] + value, rest, Entry(t.aliases[o], Some(value[1..])), false);
  }

  /** Equal, or both refused (the message names the argument as it was written). */
  ghost predicate SameOutcome<T>(a: Result<T>, b: Result<T>) {
    a == b || (a.ValueError? && b.ValueError?)
  }

  lemma {:induction false} ClusterNameOnlyInErrors(t: Table, arg: string, arg': string, letters: string, following: Option<string>)
    ensures SameOutcome(ReadCluster(t, arg, letters, following), ReadCluster(t, arg', letters, following))
    decreases |letters|
  {
    if letters != "" {
      ClusterNameOnlyInErrors(t, arg, arg', letters[1..], following);
    }
  }

  lemma FlagsAlone(t: Table, flags: string, rest: seq<string>)
    requires Consistent(t) && AllFlags(t, flags) && flags != ""
    ensures Parse(t, ["-" + flags + ""] + rest) == Before(FlagEntries(flags), Parse(t, rest))
  {
    ClusterReading(t, flags, "", At(rest, 0));
    assert FlagEntries(flags) + [] == FlagEntries(flags);
    ParseCons(t, "-" + flags + "", rest);
    assert Drop(rest, 0) == rest;
  }

  lemma SplitWithoutDash(t: Table, flags: string, letters: string, rest: seq<string>)
    requires Consistent(t) && AllFlags(t, flags) && flags != "" && letters != "" && letters[0] != '-'
    ensures SameOutcome(Parse(t, ["-" + flags + letters] + rest),
                        Parse(t, ["-" + flags + ""] + (["-" + "" + letters] + rest)))
  {
    var whole, second, following := "-" + flags + letters, "-" + "" + letters, At(rest, 0);
    FlagsAlone(t, flags, [second] + rest);
    ClusterReading(t, flags, letters, following);
    ClusterReading(t, "", letters, following);
    JoinedToNothing(ReadCluster(t, second, letters, following));
    ParseCons(t, whole, rest);
    ParseCons(t, second, rest);
    ClusterNameOnlyInErrors(t, whole, second, letters, following);
    var read := ReadCluster(t, second, letters, following);
    if read.Ok? {
      BeforeTwice(FlagEntries(flags), read.value.entries, Parse(t, Drop(rest, Width(read.value) - 1)));
    }
  }

  /** A dash inside a cluster is no option letter. */
  lemma DashIsRefused(t: Table, flags: string, letters: string, rest: seq<string>)
    requires Consistent(t) && AllFlags(t, flags) && flags != "" && letters != "" && letters[0] == '-'
    ensures Parse(t, ["-" + flags + letters] + rest).ValueError?
  {
    ClusterReading(t, flags, letters, At(rest, 0));
    ParseCons(t, "-" + flags + letters, rest);
  }

  /** Splitting a cluster after some flags keeps the outcome exactly when the rest does not
      begin with a dash, or the arguments from the long option (or --) it turns into are
      refused as the cluster was. */
  lemma SplittingKeepsTheParseIff(t: Table, flags: string, letters: string, rest: seq<string>)
    requires Consistent(t) && AllFlags(t, flags) && flags != "" && letters != ""
    ensures SameOutcome(Parse(t, ["-" + flags + letters] + rest),
                        Parse(t, ["-" + flags + ""] + (["-" + "" + letters] + rest)))
            <==> letters[0] != '-' || Parse(t, ["-" + "" + letters] + rest).ValueError?
  {
    if letters[0] != '-' {
      SplitWithoutDash(t, flags, letters, rest);
    } else {
      DashIsRefused(t, flags, letters, rest);
      FlagsAlone(t, flags, ["-" + "" + letters] + rest);
    }
  }

  lemma LongFlagAlone(t: Table, o: string)
    requires o in t.flags && IsLong(o) && |o| > 2 && '=' !in o
    ensures Parse(t, [o]) == Ok([Entry(o, None)])
  {
    EqualsAtOf(o, "");
    assert o + "" == o && o[..|o|] == o;
    ParseCons(t, o, []);
    assert [o] + [] == [o];
    assert [Entry(o, None)] + [] == [Entry(o, None)];
  }

  /** A long flag glued to short ones is refused, on its own it is not. */
  lemma SplittingADash(t: Table, flags: string, o: string)
    requires Consistent(t) && AllFlags(t, flags) && flags != "" && o in t.flags && IsLong(o) && |o| > 2 && '=' !in o
    ensures Parse(t, ["-" + flags + o[1..]]).ValueError? && Parse(t, ["-" + flags + "", o]).Ok?
  {
    LongFlagAlone(t, o);
    DashIsRefused(t, flags, o[1..], []);
    FlagsAlone(t, flags, [o]);
    assert ["-" + flags + o[1..]] + [] == ["-" + flags + o[1..]];
    assert ["-" + flags + ""] + [o] == ["-" + flags + "", o];
  }

  lemma DashExample(t: Table)
    requires Consistent(t) && AllFlags(t, "q") && "--help" in t.flags
    ensures Parse(t, ["-q-help"]).ValueError? && Parse(t, ["-q", "--help"]).Ok?
  {
    SplittingADash(t, "q", "--help");
    assert "-" + "q" + "--help"[1..] == "-q-help" && "-" + "q" + "" == "-q";
  }

  // -------------------------------------------------------------------------
  // What is refused
  // -------------------------------------------------------------------------

  /** An option that is in neither list is refused, alone and with a value; a flag is refused
      with a value; a value option with nothing after it has none. */
  lemma LongOptionsAre(t: Table, o: string, value: string, rest: seq<string>)
    requires LongName(o)
    ensures o !in t.values ==> Parse(t, [o + "=" + value] + rest) == ValueError(o + "=" + value)
    ensures o in t.flags ==> Parse(t, [o] + rest) == Before([Entry(o, None)], Parse(t, rest))
    ensures o !in t.flags && o !in t.values ==> Parse(t, [o] + rest) == ValueError(o)
    ensures o !in t.flags && o in t.values ==> Parse(t, [o]) == Ok([Entry(o, None)])
  {
    EqualsAtOf(o, "");
    EqualsAtOf(o, "=" + value);
    var joined := o + "=" + value;
    assert joined == o + ("=" + value) && o + "" == o && o[..|o|] == o;
    assert joined[..2] == o[..2] && joined[..|o|] == o;
    ParseCons(t, o, rest);
    ParseCons(t, joined, rest);
    ParseCons(t, o, []);
    assert Drop(rest, 0) == rest && [o] + [] == [o];
    assert [Entry(o, None)] + [] == [Entry(o, None)];
  }

  /** So is a letter in neither list, after any flags and before anything. */
  lemma UnknownLetterIsRefused(t: Table, flags: string, letter: char, more: string, rest: seq<string>)
    requires AllFlags(t, flags) && letter !in t.shortFlags && letter !in t.aliases
    requires (flags != "" || letter != '-') && '-' !in t.shortFlags
    ensures var arg := "-" + (flags + ([letter] + more)); Parse(t, [arg] + rest) == ValueError(arg)
  {
    var letters := flags + ([letter] + more);
    var arg := "-" + letters;
    assert arg[1..] == letters && arg[0] == '-';
    assert arg[1] == if flags == "" then letter else flags[0];
    FlagsComeFirst(t, arg, flags, [letter] + more, At(rest, 0));
    ParseCons(t, arg, rest);
  }

  lemma ReadsSomething(t: Table, arg: string, following: Option<string>)
    requires !Stops(arg) && ReadOne(t, arg, following).Ok?
    ensures ReadOne(t, arg, following).value.entries != []
  {
  }

  lemma SomethingBefore(entries: seq<Entry>, rest: Result<seq<Entry>>)
    requires entries != []
    ensures Before(entries, rest) != Ok([])
  {
    if rest.Ok? {
      assert |entries + rest.value| > 0;
    }
  }

  /** Reading ends at once, with nothing read, exactly at an argument without a leading dash,
      at - and at --. */
  lemma ReadingEndsIff(t: Table, arg: string, rest: seq<string>)
    ensures Parse(t, [arg] + rest) == Ok([]) <==> arg == "" || arg[0] != '-' || arg == "-" || arg == "--"
  {
    if Stops(arg) {
      assert ([arg] + rest)[0] == arg;
    } else {
      ParseCons(t, arg, rest);
      var read := ReadOne(t, arg, At(rest, 0));
      if read.Ok? {
        ReadsSomething(t, arg, At(rest, 0));
        SomethingBefore(read.value.entries, Parse(t, Drop(rest, Width(read.value) - 1)));
      }
    }
  }

  // -------------------------------------------------------------------------
  // Where reading ends
  // -------------------------------------------------------------------------

  /** The index of the tool name, of -- or -, or of the argument that is refused; |args| if there is none. */
  function StopWith(one: Reader, args: seq<string>): (k: nat)
    ensures k <= |args|
    decreases |args|
  {
    if args == [] || Stops(args[0]) then 0
    else
      match one(args[0], At(args, 1))
      case ValueError(_) => 0
      case Ok(r) => if Width(r) < |args| then Width(r) + StopWith(one, args[Width(r)..]) else |args|
  }

  function StopAt(t: Table, args: seq<string>): (k: nat)
    ensures k <= |args|
  {
    StopWith(ReaderOf(t), args)
  }

  /** What follows an argument never decides whether it is refused. */
  ghost predicate RefusesAlone(one: Reader) {
    forall arg, a, b :: one(arg, a).ValueError? ==> one(arg, b) == one(arg, a)
  }

  lemma ReaderRefusesAlone(t: Table)
    ensures RefusesAlone(ReaderOf(t))
  {
    forall arg, a, b | ReaderOf(t)(arg, a).ValueError? ensures ReaderOf(t)(arg, b) == ReaderOf(t)(arg, a) {
      if arg != "" && !IsLong(arg) {
        ClusterRefusesAlone(t, arg, arg[1..], a, b);
      }
    }
  }

  lemma {:induction false} ClusterRefusesAlone(t: Table, arg: string, letters: string, a: Option<string>, b: Option<string>)
    requires ReadCluster(t, arg, letters, a).ValueError?
    ensures ReadCluster(t, arg, letters, b) == ReadCluster(t, arg, letters, a)
    decreases |letters|
  {
    if letters != "" && letters[0] in t.shortFlags {
      ClusterRefusesAlone(t, arg, letters[1..], a, b);
    }
  }

  lemma SliceShift(args: seq<string>, n: nat, m: nat)
    requires n <= m <= |args|
    ensures args[..m][n..] == args[n..][..m - n]
  {
    var a, b := args[..m][n..], args[n..][..m - n];
    forall i | 0 <= i < m - n ensures a[i] == b[i] {
    }
  }

  lemma {:induction false} TailIsIrrelevant(one: Reader, args: seq<string>, other: seq<string>)
    requires RefusesAlone(one) && StopWith(one, args) < |args|
    ensures ParseWith(one, args[..StopWith(one, args) + 1] + other) == ParseWith(one, args)
    decreases |args|
  {
    var k := StopWith(one, args);
    var changed := args[..k + 1] + other;
    assert changed[0] == args[0];
    if !Stops(args[0]) {
      var read := one(args[0], At(args, 1));
      if read.Ok? {
        var n := Width(read.value);
        TailIsIrrelevant(one, args[n..], other);
        assert k == n + StopWith(one, args[n..]);
        ChangedTail(args, other, n, k + 1);
      }
    }
  }

  lemma ChangedTail(args: seq<string>, other: seq<string>, n: nat, m: nat)
    requires 1 <= n < m <= |args|
    ensures var changed := args[..m] + other;
            At(changed, 1) == At(args, 1) && Drop(changed, n) == args[n..][..m - n] + other
  {
    SliceShift(args, n, m);
  }

  /** args[k] ends the reading, or is the argument that is refused. */
  ghost predicate EndsAt(one: Reader, args: seq<string>, k: nat)
    requires k < |args|
  {
    var parsed, read := ParseWith(one, args), one(args[k], At(args, k + 1));
    if Stops(args[k]) then parsed.Ok? else read.ValueError? && parsed == ValueError(read.arg)
  }

  lemma {:induction false} StopIsTheEnd(one: Reader, args: seq<string>)
    ensures var k := StopWith(one, args); if k < |args| then EndsAt(one, args, k) else ParseWith(one, args).Ok?
    decreases |args|
  {
    if args != [] && !Stops(args[0]) {
      var read := one(args[0], At(args, 1));
      if read.Ok? && Width(read.value) < |args| {
        var n := Width(read.value);
        var k := StopWith(one, args[n..]);
        StopIsTheEnd(one, args[n..]);
        if k < |args[n..]| {
          assert args[n..][k] == args[n + k] && At(args[n..], k + 1) == At(args, n + k + 1);
        }
      }
    }
  }

  /** Reading goes on up to the tool name, - or --, the argument that is refused, or the end. */
  lemma ReadingGoesUpTo(t: Table, args: seq<string>)
    ensures var k := StopAt(t, args); if k < |args| then EndsAt(ReaderOf(t), args, k) else Parse(t, args).Ok?
  {
    StopIsTheEnd(ReaderOf(t), args);
  }

  /** Nothing after the argument where reading ends affects the parse. */
  lemma ToolArgumentsAreIrrelevant(t: Table, args: seq<string>, other: seq<string>)
    requires StopAt(t, args) < |args|
    ensures Parse(t, args[..StopAt(t, args) + 1] + other) == Parse(t, args)
  {
    ReaderRefusesAlone(t);
    TailIsIrrelevant(ReaderOf(t), args, other);
  }
}

/** uvx's own option table. */
module UvxTable {
  import opened UvxOptions

  const FLAG_OPTIONS: set<string> := {
    "--isolated", "--no-env-file", "--lfs", "--version", "--no-index",
    "--upgrade", "--no-sources", "--reinstall", "--compile-bytecode",
    "--no-build-isolation", "--no-build", "--no-binary", "--no-cache",
    "--refresh", "--managed-python", "--no-managed-python",
    "--no-python-downloads", "--quiet", "--verbose", "--native-tls",
    "--offline", "--no-progress", "--no-config", "--help", "--preview",
    "--no-preview"
  }

  const INPUT_OPTIONS: set<string> := {
    "--from", "--with", "--with-editable", "--with-requirements",
    "--constraints", "--build-constraints", "--overrides", "--env-file",
    "--python-platform", "--torch-backend"
  }

  const INDEX_OPTIONS: set<string> := {
    "--index", "--default-index", "--index-url", "--extra-index-url",
    "--find-links", "--index-strategy", "--keyring-provider",
    "--upgrade-package", "--resolution", "--prerelease"
  }

  const PACKAGE_OPTIONS: set<string> := {
    "--fork-strategy", "--exclude-newer", "--exclude-newer-package",
    "--no-sources-package", "--reinstall-package", "--link-mode",
    "--config-setting", "--config-settings-package",
    "--no-build-package"
  }

  const OTHER_OPTIONS: set<string> := {
    "--no-build-isolation-package", "--no-binary-package", "--cache-dir", "--refresh-package", "--python",
    "--color", "--allow-insecure-host", "--directory", "--project",
    "--config-file"
  }

  lemma InputIsLong(o: string)
    requires o in INPUT_OPTIONS
    ensures LongName(o)
  {
  }

  lemma InputNames(o: string)
    requires o in INPUT_OPTIONS
    ensures Named(FLAG_OPTIONS, o)
  {
    InputIsLong(o);
    assert o !in FLAG_OPTIONS;
  }

  lemma IndexIsLong(o: string)
    requires o in INDEX_OPTIONS
    ensures LongName(o)
  {
  }

  lemma IndexNames(o: string)
    requires o in INDEX_OPTIONS
    ensures Named(FLAG_OPTIONS, o)
  {
    IndexIsLong(o);
    assert o !in FLAG_OPTIONS;
  }

  lemma PackageIsLong(o: string)
    requires o in PACKAGE_OPTIONS
    ensures LongName(o)
  {
  }

  lemma PackageNames(o: string)
    requires o in PACKAGE_OPTIONS
    ensures Named(FLAG_OPTIONS, o)
  {
    PackageIsLong(o);
    assert o !in FLAG_OPTIONS;
  }

  lemma OtherIsLong(o: string)
    requires o in OTHER_OPTIONS
    ensures LongName(o)
  {
  }

  lemma OtherNames(o: string)
    requires o in OTHER_OPTIONS
    ensures Named(FLAG_OPTIONS, o)
  {
    OtherIsLong(o);
    assert o !in FLAG_OPTIONS;
  }

  const SHORT_FLAGS: set<char> := {'V', 'U', 'n', 'q', 'v', 'h'}

  const SHORT_ALIASES: map<char, string> := map[
    'w' := "--with", 'c' := "--constraints", 'b' := "--build-constraints", 'i' := "--index-url",
    'f' := "--find-links", 'P' := "--upgrade-package", 'C' := "--config-setting", 'p' := "--python"
  ]

  const UVX := Table(FLAG_OPTIONS, INPUT_OPTIONS + INDEX_OPTIONS + PACKAGE_OPTIONS + OTHER_OPTIONS, SHORT_FLAGS, SHORT_ALIASES)

  lemma UnionIsNamed(flags: set<string>, a: set<string>, b: set<string>, c: set<string>, d: set<string>)
    requires forall o :: o in a ==> Named(flags, o)
    requires forall o :: o in b ==> Named(flags, o)
    requires forall o :: o in c ==> Named(flags, o)
    requires forall o :: o in d ==> Named(flags, o)
    ensures forall o :: o in a + b + c + d ==> Named(flags, o)
  {
  }

  lemma UvxNames()
    ensures forall o :: o in INPUT_OPTIONS + INDEX_OPTIONS + PACKAGE_OPTIONS + OTHER_OPTIONS ==> Named(FLAG_OPTIONS, o)
  {
    forall o | o in INPUT_OPTIONS ensures Named(FLAG_OPTIONS, o) { InputNames(o); }
    forall o | o in INDEX_OPTIONS ensures Named(FLAG_OPTIONS, o) { IndexNames(o); }
    forall o | o in PACKAGE_OPTIONS ensures Named(FLAG_OPTIONS, o) { PackageNames(o); }
    forall o | o in OTHER_OPTIONS ensures Named(FLAG_OPTIONS, o) { OtherNames(o); }
    UnionIsNamed(FLAG_OPTIONS, INPUT_OPTIONS, INDEX_OPTIONS, PACKAGE_OPTIONS, OTHER_OPTIONS);
  }

  lemma AliasTarget(c: char)
    requires c in SHORT_ALIASES
    ensures c != '-' && SHORT_ALIASES[c] in INPUT_OPTIONS + INDEX_OPTIONS + PACKAGE_OPTIONS + OTHER_OPTIONS
  {
    assert "--with" in INPUT_OPTIONS && "--constraints" in INPUT_OPTIONS && "--build-constraints" in INPUT_OPTIONS;
    assert "--index-url" in INDEX_OPTIONS && "--find-links" in INDEX_OPTIONS && "--upgrade-package" in INDEX_OPTIONS;
    assert "--config-setting" in PACKAGE_OPTIONS && "--python" in OTHER_OPTIONS;
  }

  lemma UvxAliases()
    ensures forall c :: c in SHORT_ALIASES ==>
              c != '-' && SHORT_ALIASES[c] in INPUT_OPTIONS + INDEX_OPTIONS + PACKAGE_OPTIONS + OTHER_OPTIONS
  {
    forall c | c in SHORT_ALIASES
      ensures c != '-' && SHORT_ALIASES[c] in INPUT_OPTIONS + INDEX_OPTIONS + PACKAGE_OPTIONS + OTHER_OPTIONS
    {
      AliasTarget(c);
    }
  }

  lemma UvxShortLetters()
    ensures SHORT_FLAGS !! SHORT_ALIASES.Keys && '-' !in SHORT_FLAGS
  {
  }

  lemma ConsistentFrom(t: Table, flags: set<string>, values: set<string>, letters: set<char>, aliases: map<char, string>)
    requires t == Table(flags, values, letters, aliases)
    requires forall o :: o in values ==> Named(flags, o)
    requires letters !! aliases.Keys && '-' !in letters
    requires forall c :: c in aliases ==> c != '-' && aliases[c] in values
    ensures Consistent(t)
  {
  }

  lemma UvxIsConsistent()
    ensures Consistent(UVX)
  {
    UvxNames();
    UvxAliases();
    UvxShortLetters();
    ConsistentFrom(UVX, FLAG_OPTIONS, INPUT_OPTIONS + INDEX_OPTIONS + PACKAGE_OPTIONS + OTHER_OPTIONS, SHORT_FLAGS, SHORT_ALIASES);
  }

  lemma TheseAreFlags()
    ensures AllFlags(UVX, "q") && "--help" in UVX.flags
  {
    assert 'q' in SHORT_FLAGS;
  }

  /** -q-help is refused, -q --help is not. */
  lemma SplittingADashChangesTheParse()
    ensures Parse(UVX, ["-q-help"]).ValueError? && Parse(UVX, ["-q", "--help"]).Ok?
  {
    UvxIsConsistent();
    TheseAreFlags();
    DashExample(UVX);
  }
}
