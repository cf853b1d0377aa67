// equipa/cli_isolation.py: the argv of an isolated Claude CLI run.

/** Adding the isolation options before "--" without changing how the rest is read. */
module CliIsolation {
  import opened Wrappers

  const SETTING_SOURCES := "--setting-sources"
  const STRICT_MCP := "--strict-mcp-config"
  const MCP_CONFIG := "--mcp-config"
  const END_OF_OPTIONS := "--"

  predicate HasPrefix(s: string, prefix: string) {
    |prefix| <= |s| && s[..|prefix|] == prefix
  }

  // -------------------------------------------------------------------------
  // How the CLI reads an argv
  // -------------------------------------------------------------------------

  /** The index of the first "--", or the length. */
  function EndOfOptions(cmd: seq<string>): (k: nat)
    ensures k <= |cmd| && END_OF_OPTIONS !in cmd[..k] && (k < |cmd| ==> cmd[k] == END_OF_OPTIONS)
  {
    if cmd == [] || cmd[0] == END_OF_OPTIONS then 0
    else
      var k := EndOfOptions(cmd[1..]);
      assert cmd[..k + 1] == [cmd[0]] + cmd[1..][..k];
      k + 1
  }

  /** _option_args */
  function Options(cmd: seq<string>): seq<string> {
    cmd[..EndOfOptions(cmd)]
  }

  /** What one option says as a setting source; next is the argument after it. */
  function SourceOf(arg: string, next: Option<string>): seq<Option<string>> {
    if arg == SETTING_SOURCES then [next]
    else if HasPrefix(arg, SETTING_SOURCES + "=") then [Some(arg[|SETTING_SOURCES| + 1..])]
    else []
  }

  function First(args: seq<string>): Option<string> {
    if args == [] then None else Some(args[0])
  }

  function Sources(options: seq<string>): seq<Option<string>> {
    if options == [] then [] else SourceOf(options[0], First(options[1..])) + Sources(options[1..])
  }

  /** _setting_sources_values */
  function SettingSources(cmd: seq<string>): seq<Option<string>> {
    Sources(Options(cmd))
  }

  /** How many arguments a variadic option takes. */
  function Taken(args: seq<string>): (n: nat)
    ensures n <= |args|
  {
    if args == [] || HasPrefix(args[0], "-") then 0 else Taken(args[1..]) + 1
  }

  function McpValues(options: seq<string>): seq<string>
    decreases |options|
  {
    if options == [] then []
    else
      var rest := options[1..];
      if HasPrefix(options[0], MCP_CONFIG + "=") then [options[0][|MCP_CONFIG| + 1..]] + McpValues(rest)
      else if options[0] == MCP_CONFIG then rest[..Taken(rest)] + McpValues(rest[Taken(rest)..])
      else McpValues(rest)
  }

  /** mcp_config_values */
  function McpConfigs(cmd: seq<string>): seq<string> {
    McpValues(Options(cmd))
  }

  /** has_claude_cli_isolation */
  predicate HasIsolation(cmd: seq<string>) {
    && SettingSources(cmd) != []
    && (forall i :: 0 <= i < |SettingSources(cmd)| ==> SettingSources(cmd)[i] == Some(""))
    && STRICT_MCP in Options(cmd)
  }

  // -------------------------------------------------------------------------
  // The rewriting
  // -------------------------------------------------------------------------

  datatype Argv = Isolated(cmd: seq<string>) | Refused

  predicate Widens(sources: seq<Option<string>>) {
    exists i :: 0 <= i < |sources| && sources[i] != Some("")
  }

  /** The options to add. */
  function Extra(sources: bool, strict: bool): seq<string> {
    if sources then (if strict then [SETTING_SOURCES, "", STRICT_MCP] else [SETTING_SOURCES, ""])
    else if strict then [STRICT_MCP]
    else []
  }

  function Missing(cmd: seq<string>): seq<string> {
    Extra(SettingSources(cmd) == [], STRICT_MCP !in Options(cmd))
  }

  /** cmd with extra arguments where its options end. */
  function Inserted(cmd: seq<string>, extra: seq<string>): seq<string> {
    Options(cmd) + extra + cmd[EndOfOptions(cmd)..]
  }

  lemma Regrouped<T>(a: seq<T>, b: seq<T>, c: seq<T>)
    ensures a + (b + c) == a + b + c
  {
  }

  method ReadSources(cmd: seq<string>) returns (values: seq<Option<string>>)
    ensures values == SettingSources(cmd)
  {
    var options := Options(cmd);
    values := [];
    assert options[0..] == options && [] + Sources(options) == Sources(options);
    for index := 0 to |options|
      invariant values + Sources(options[index..]) == Sources(options)
    {
      var arg := options[index];
      Regrouped(values, SourceOf(arg, First(options[index + 1..])), Sources(options[index + 1..]));
      if arg == SETTING_SOURCES {
        values := values + [if index + 1 < |options| then Some(options[index + 1]) else None];
      } else if HasPrefix(arg, SETTING_SOURCES + "=") {
        values := values + [Some(arg[|SETTING_SOURCES| + 1..])];
      } else {
        assert values + [] == values;
      }
    }
    assert values + [] == values;
  }

  /** The values of a variadic option, from index on. */
  method TakeValues(options: seq<string>, start: nat) returns (values: seq<string>, index: nat)
    requires start <= |options|
    ensures index == start + Taken(options[start..]) && values == options[start..index]
  {
    values, index := [], start;
    while index < |options| && !HasPrefix(options[index], "-")
      invariant start <= index <= |options| && index + Taken(options[index..]) == start + Taken(options[start..])
      invariant values == options[start..index]
    {
      assert options[index..][1..] == options[index + 1..];
      values := values + [options[index]];
      index := index + 1;
    }
  }

  function McpFrom(options: seq<string>, index: nat): seq<string>
    requires index <= |options|
  {
    McpValues(options[index..])
  }

  /** One option of the loop: the values it takes and where the next one stands. */
  method ReadMcpOption(options: seq<string>, start: nat) returns (taken: seq<string>, index: nat)
    requires start < |options|
    ensures start < index <= |options| && McpFrom(options, start) == taken + McpFrom(options, index)
  {
    index := start + 1;
    if HasPrefix(options[start], MCP_CONFIG + "=") {
      taken := [options[start][|MCP_CONFIG| + 1..]];
    } else if options[start] == MCP_CONFIG {
      taken, index := TakeValues(options, index);
    } else {
      taken := [];
    }
  }

  method ReadMcpConfigs(cmd: seq<string>) returns (values: seq<string>)
    ensures values == McpConfigs(cmd)
  {
    var options := Options(cmd);
    values := [];
    var index := 0;
    assert options[0..] == options && values + McpValues(options) == McpValues(options);
    while index < |options|
      invariant index <= |options| && values + McpFrom(options, index) == McpValues(options)
    {
      var taken;
      taken, index := ReadMcpOption(options, index);
      Regrouped(values, taken, McpFrom(options, index));
      values := values + taken;
    }
    assert values + [] == values;
  }

  /** isolate_claude_argv */
  method Isolate(cmd: seq<string>) returns (r: Argv)
    ensures r == if Widens(SettingSources(cmd)) then Refused else Isolated(Inserted(cmd, Missing(cmd)))
  {
    var sources := ReadSources(cmd);
    if exists i :: 0 <= i < |sources| && sources[i] != Some("") {
      return Refused;
    }
    var missing: seq<string> := [];
    if sources == [] {
      missing := missing + [SETTING_SOURCES, ""];
    }
    if STRICT_MCP !in Options(cmd) {
      missing := missing + [STRICT_MCP];
    }
    var end := |Options(cmd)|;
    return Isolated(cmd[..end] + missing + cmd[end..]);
  }

  // -------------------------------------------------------------------------
  // What it keeps and what it establishes
  // -------------------------------------------------------------------------

  lemma {:induction false} EndOf(a: seq<string>, b: seq<string>)
    requires END_OF_OPTIONS !in a && (b == [] || b[0] == END_OF_OPTIONS)
    ensures EndOfOptions(a + b) == |a|
    decreases |a|
  {
    if a == [] {
      assert a + b == b;
    } else {
      assert (a + b)[1..] == a[1..] + b;
      EndOf(a[1..], b);
    }
  }

  /** Inserting options where the options end leaves the rest after them. */
  lemma OptionsOfInserted(cmd: seq<string>, extra: seq<string>)
    requires END_OF_OPTIONS !in extra
    ensures EndOfOptions(Inserted(cmd, extra)) == |Options(cmd)| + |extra|
    ensures Options(Inserted(cmd, extra)) == Options(cmd) + extra
  {
    var k := EndOfOptions(cmd);
    EndOf(Options(cmd) + extra, cmd[k..]);
    assert Inserted(cmd, extra)[..k + |extra|] == Options(cmd) + extra;
  }

  /** Options read after others, if the last of those does not want a value. */
  lemma {:induction false} SourcesConcat(a: seq<string>, b: seq<string>)
    requires a != [] && a[|a| - 1] == SETTING_SOURCES ==> b == []
    ensures Sources(a + b) == Sources(a) + Sources(b)
    decreases |a|
  {
    if a == [] {
      assert a + b == b;
    } else {
      assert (a + b)[1..] == a[1..] + b;
      SourcesConcat(a[1..], b);
      if |a| == 1 && a[0] == SETTING_SOURCES {
        assert b == [];
      }
      assert SourceOf(a[0], First((a + b)[1..])) == SourceOf(a[0], First(a[1..]));
      Regrouped(SourceOf(a[0], First(a[1..])), Sources(a[1..]), Sources(b));
    }
  }

  /** A flag without a value is refused. */
  lemma {:induction false} LastWantsAValue(a: seq<string>)
    requires a != [] && a[|a| - 1] == SETTING_SOURCES
    ensures Sources(a) != [] && Sources(a)[|Sources(a)| - 1] == None
    decreases |a|
  {
    if |a| > 1 {
      LastWantsAValue(a[1..]);
    }
  }

  lemma {:induction false} TakenConcat(a: seq<string>, b: seq<string>)
    requires b == [] || HasPrefix(b[0], "-")
    ensures Taken(a + b) == Taken(a)
    decreases |a|
  {
    if a == [] {
      assert a + b == b;
    } else {
      assert (a + b)[1..] == a[1..] + b;
      TakenConcat(a[1..], b);
    }
  }

  /** Options read after others never become values of a variadic option before them. */
  lemma {:induction false} McpConcat(a: seq<string>, b: seq<string>)
    requires b == [] || HasPrefix(b[0], "-")
    ensures McpValues(a + b) == McpValues(a) + McpValues(b)
    decreases |a|
  {
    if a == [] {
      assert a + b == b;
    } else {
      var rest := a[1..];
      assert (a + b)[1..] == rest + b;
      if a[0] == MCP_CONFIG && !HasPrefix(a[0], MCP_CONFIG + "=") {
        var n := Taken(rest);
        TakenConcat(rest, b);
        assert (rest + b)[n..] == rest[n..] + b && (rest + b)[..n] == rest[..n];
        McpConcat(rest[n..], b);
        Regrouped(rest[..n], McpValues(rest[n..]), McpValues(b));
      } else {
        McpConcat(rest, b);
        if HasPrefix(a[0], MCP_CONFIG + "=") {
          Regrouped([a[0][|MCP_CONFIG| + 1..]], McpValues(rest), McpValues(b));
        }
      }
    }
  }

  lemma FlagsReadAsThemselves()
    ensures !HasPrefix(SETTING_SOURCES, MCP_CONFIG + "=") && !HasPrefix(STRICT_MCP, MCP_CONFIG + "=")
    ensures !HasPrefix(SETTING_SOURCES, SETTING_SOURCES + "=") && !HasPrefix(STRICT_MCP, SETTING_SOURCES + "=")
    ensures SETTING_SOURCES != MCP_CONFIG && STRICT_MCP != MCP_CONFIG && STRICT_MCP != SETTING_SOURCES
    ensures SETTING_SOURCES != END_OF_OPTIONS && STRICT_MCP != END_OF_OPTIONS
    ensures HasPrefix(SETTING_SOURCES, "-") && HasPrefix(STRICT_MCP, "-")
  {
    DifferAt(SETTING_SOURCES, MCP_CONFIG + "=", 2);
    DifferAt(STRICT_MCP, MCP_CONFIG + "=", 2);
    DifferAt(STRICT_MCP, SETTING_SOURCES + "=", 3);
  }

  lemma DifferAt(s: string, prefix: string, i: nat)
    requires i < |s| && i < |prefix| && s[i] != prefix[i]
    ensures !HasPrefix(s, prefix)
  {
    if |prefix| <= |s| {
      assert s[..|prefix|][i] == s[i];
    }
  }

  lemma ReadingsOfSources(rest: seq<string>)
    ensures Sources([SETTING_SOURCES, ""] + rest) == [Some("")] + Sources(rest)
    ensures McpValues([SETTING_SOURCES, ""] + rest) == McpValues(rest)
  {
    FlagsReadAsThemselves();
    var all, tail := [SETTING_SOURCES, ""] + rest, [""] + rest;
    assert all[1..] == tail && tail[1..] == rest && First(tail) == Some("");
    assert Sources(tail) == [] + Sources(rest) == Sources(rest);
    assert McpValues(tail) == McpValues(rest);
  }

  lemma ReadingsOfExtra(sources: bool, strict: bool)
    ensures var e := Extra(sources, strict);
            && END_OF_OPTIONS !in e && (e == [] || HasPrefix(e[0], "-"))
            && McpValues(e) == []
            && Sources(e) == if sources then [Some("")] else []
  {
    FlagsReadAsThemselves();
    if sources {
      var rest := if strict then [STRICT_MCP] else [];
      assert Extra(sources, strict) == [SETTING_SOURCES, ""] + rest;
      ReadingsOfSources(rest);
      assert [Some("")] + [] == [Some("")];
    }
  }

  /** --setting-sources=value gives its value, as --setting-sources value does. */
  lemma SourceSpellings(value: string)
    ensures Sources([SETTING_SOURCES + "=" + value]) == [Some(value)]
    ensures Sources([SETTING_SOURCES, value]) == [Some(value)] + Sources([value])
  {
    assert [SETTING_SOURCES + "=" + value][1..] == [] && [SETTING_SOURCES, value][1..] == [value];
    assert [Some(value)] + [] == [Some(value)];
  }

  /** --mcp-config=value gives its value, as --mcp-config value does unless the value looks like an option. */
  lemma McpSpellings(value: string)
    ensures McpValues([MCP_CONFIG + "=" + value]) == [value]
    ensures !HasPrefix(value, "-") ==> McpValues([MCP_CONFIG, value]) == [value]
  {
    assert [MCP_CONFIG + "=" + value][1..] == [] && [value] + [] == [value];
    var two, one := [MCP_CONFIG, value], [value];
    assert two[1..] == one && one[1..] == [];
    if !HasPrefix(value, "-") {
      assert Taken([]) == 0 && Taken(one) == 1;
      assert one[..1] == one && one[1..] == [];
      assert !HasPrefix(MCP_CONFIG, MCP_CONFIG + "=");
    }
  }

  lemma {:induction false} TakesAll(values: seq<string>, rest: seq<string>)
    requires forall i :: 0 <= i < |values| ==> !HasPrefix(values[i], "-")
    requires rest == [] || HasPrefix(rest[0], "-")
    ensures Taken(values + rest) == |values|
    decreases |values|
  {
    if values == [] {
      assert values + rest == rest;
    } else {
      assert (values + rest)[1..] == values[1..] + rest;
      TakesAll(values[1..], rest);
    }
  }

  /** --mcp-config takes every argument up to the next option; the joined spelling takes one;
      any other argument is skipped. */
  lemma McpConfigsAre(values: seq<string>, value: string, other: string, rest: seq<string>)
    requires forall i :: 0 <= i < |values| ==> !HasPrefix(values[i], "-")
    ensures rest == [] || HasPrefix(rest[0], "-") ==> McpValues([MCP_CONFIG] + (values + rest)) == values + McpValues(rest)
    ensures McpValues([MCP_CONFIG + "=" + value] + rest) == [value] + McpValues(rest)
    ensures other != MCP_CONFIG && !HasPrefix(other, MCP_CONFIG + "=") ==> McpValues([other] + rest) == McpValues(rest)
  {
    assert !HasPrefix(MCP_CONFIG, MCP_CONFIG + "=");
    if rest == [] || HasPrefix(rest[0], "-") {
      TakesAll(values, rest);
      assert ([MCP_CONFIG] + (values + rest))[1..] == values + rest;
      assert (values + rest)[..|values|] == values && (values + rest)[|values|..] == rest;
    }
    var joined := MCP_CONFIG + "=" + value;
    assert joined == (MCP_CONFIG + "=") + value && joined[|MCP_CONFIG| + 1..] == value;
    assert ([joined] + rest)[1..] == rest && ([other] + rest)[1..] == rest;
  }

  lemma ReadingsOfInserted(cmd: seq<string>, extra: seq<string>)
    requires !Widens(SettingSources(cmd))
    requires END_OF_OPTIONS !in extra && (extra == [] || HasPrefix(extra[0], "-"))
    ensures SettingSources(Inserted(cmd, extra)) == SettingSources(cmd) + Sources(extra)
    ensures McpConfigs(Inserted(cmd, extra)) == McpConfigs(cmd) + McpValues(extra)
  {
    var options := Options(cmd);
    OptionsOfInserted(cmd, extra);
    if options != [] && options[|options| - 1] == SETTING_SOURCES {
      LastWantsAValue(options);
    }
    SourcesConcat(options, extra);
    McpConcat(options, extra);
  }

  /** An argv that is not refused comes back isolated, and the same MCP configuration is read from it. */
  lemma IsolatedArgv(cmd: seq<string>)
    requires !Widens(SettingSources(cmd))
    ensures HasIsolation(Inserted(cmd, Missing(cmd)))
    ensures McpConfigs(Inserted(cmd, Missing(cmd))) == McpConfigs(cmd)
  {
    var sources, strict := SettingSources(cmd) == [], STRICT_MCP !in Options(cmd);
    ReadingsOfExtra(sources, strict);
    ReadingsOfInserted(cmd, Extra(sources, strict));
    OptionsOfInserted(cmd, Extra(sources, strict));
    StrictIsThere(Options(cmd), sources);
    assert McpConfigs(cmd) + [] == McpConfigs(cmd);
  }

  lemma StrictIsThere(options: seq<string>, sources: bool)
    ensures STRICT_MCP in options + Extra(sources, STRICT_MCP !in options)
  {
    var e := Extra(sources, STRICT_MCP !in options);
    if STRICT_MCP !in options {
      assert e[|e| - 1] == STRICT_MCP && (options + e)[|options| + |e| - 1] == STRICT_MCP;
    } else {
      var i :| 0 <= i < |options| && options[i] == STRICT_MCP;
      assert (options + e)[i] == STRICT_MCP;
    }
  }

  /** Whatever stood before the insertion and everything from "--" on is unchanged and in place. */
  lemma NothingIsLost(cmd: seq<string>)
    ensures var r, k := Inserted(cmd, Missing(cmd)), EndOfOptions(cmd);
            r[..k] == cmd[..k] && EndOfOptions(r) == |r| - (|cmd| - k) && r[EndOfOptions(r)..] == cmd[k..]
  {
    ReadingsOfExtra(SettingSources(cmd) == [], STRICT_MCP !in Options(cmd));
    OptionsOfInserted(cmd, Missing(cmd));
    InsertedAround(cmd, Missing(cmd));
  }

  lemma InsertedAround(cmd: seq<string>, extra: seq<string>)
    ensures var r, k := Inserted(cmd, extra), EndOfOptions(cmd);
            |r| == |cmd| + |extra| && r[..k] == cmd[..k] && r[k + |extra|..] == cmd[k..]
  {
  }

  /** Nothing is added exactly when the argv is isolated already. */
  lemma UnchangedIffIsolated(cmd: seq<string>)
    requires !Widens(SettingSources(cmd))
    ensures Inserted(cmd, Missing(cmd)) == cmd <==> HasIsolation(cmd)
  {
    var k := EndOfOptions(cmd);
    assert |Inserted(cmd, Missing(cmd))| == |cmd| + |Missing(cmd)|;
    assert cmd[..k] + [] + cmd[k..] == cmd;
  }

  lemma IsolatingTwiceIsIsolatingOnce(cmd: seq<string>)
    requires !Widens(SettingSources(cmd))
    ensures var r := Inserted(cmd, Missing(cmd));
            !Widens(SettingSources(r)) && Inserted(r, Missing(r)) == r
  {
    IsolatedArgv(cmd);
    UnchangedIffIsolated(Inserted(cmd, Missing(cmd)));
  }
}
