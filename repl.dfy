/**
  The command layer of repl.go: input cleaning, the command table, the
  tab completer and the dispatch of one input line to its handler.

  The prompt loop itself (liner, history, printing) is not modelled; one
  iteration of it is RunLine.
 */
module Repl {
  import opened Wrappers
  import opened PokeCache
  import opened PokeApi
  import opened Text
  import opened Commands

  /** The handlers of the command table. */
  datatype Callback = Help | Exit | Map | MapBack | Explore | Catch | Inspect | Pokedex

  datatype CliCommand = CliCommand(name: string, description: string, callback: Callback)

  /** getCommands. Note that a `name` may be longer than its key. */
  const CommandTable: map<string, CliCommand> := map[
    "help" := CliCommand("help", "Displays a help message", Help),
    "exit" := CliCommand("exit", "Exit the Pokedex", Exit),
    "map" := CliCommand("map", "Display the next 20 location areas", Map),
    "mapb" := CliCommand("mapb", "Display the previous 20 location areas", MapBack),
    "explore" := CliCommand("explore <location>", "Display the pokemon in a location", Explore),
    "catch" := CliCommand("catch <pokemon>", "Attempt to catch a pokemon", Catch),
    "inspect" := CliCommand("inspect <pokemon>", "Provide details on a caught pokemon", Inspect),
    "pokedex" := CliCommand("pokedex", "Provide the list of caught pokemon", Pokedex)
  ]

  /** The table has exactly the eight commands. */
  lemma CommandTableKeys()
    ensures CommandTable.Keys == {"help", "exit", "map", "mapb", "explore", "catch", "inspect", "pokedex"}
  {
  }

  /** No two commands share a name, so the completer never offers one twice. */
  lemma CommandNamesDistinct()
    ensures NamesDistinct(CommandTable)
  {
    CommandTableKeys();
    forall k1, k2 | k1 in CommandTable && k2 in CommandTable && k1 != k2
      ensures CommandTable[k1].name != CommandTable[k2].name
    {
      var n1, n2 := CommandTable[k1].name, CommandTable[k2].name;
      assert |n1| != |n2| || n1[0] != n2[0];
    }
  }

  /** Each word of `ws` lowercased, in order. */
  function Lowered(ws: seq<string>): (lowered: seq<string>)
  {
    seq(|ws|, i requires 0 <= i < |ws| => ToLower(ws[i]))
  }

  /** The words of an input line: its fields, lowercased. */
  function CleanWords(text: string): (words: seq<string>)
  {
    Lowered(Fields(text))
  }

  /** The loop of cleanInput: overwrites each space-free word with its
      trimmed, lowercased form. */
  method LowerWords(fields: seq<string>) returns (words: seq<string>)
    requires forall j :: 0 <= j < |fields| ==> NoSpace(fields[j])
    ensures words == Lowered(fields)
  {
    words := fields;
    var i := 0;
    while i < |words|
      invariant 0 <= i <= |words| == |fields|
      invariant forall j :: 0 <= j < i ==> words[j] == ToLower(fields[j])
      invariant forall j :: i <= j < |words| ==> words[j] == fields[j]
    {
      TrimSpaceOfWord(fields[i]);
      words := words[i := ToLower(TrimSpace(words[i]))];
      i := i + 1;
    }
  }

  /** cleanInput: split on space, then trim and lowercase each word in place. */
  method CleanInput(text: string) returns (words: seq<string>)
    ensures words == CleanWords(text)
  {
    words := Fields(text);
    FieldsAreWords(text);
    words := LowerWords(words);
  }

  /** The cleaned words are the fields in order, each non-empty, without
      space and lower case; a blank line has none. */
  lemma {:induction false} CleanWordsShape(text: string)
    ensures |CleanWords(text)| == |Fields(text)|
    ensures forall i :: 0 <= i < |CleanWords(text)| ==>
      var w := CleanWords(text)[i];
      w == ToLower(Fields(text)[i]) && w != [] && NoSpace(w) && IsLowerWord(w)
    ensures CleanWords(text) == [] <==> AllSpace(text)
  {
    var fs := Fields(text);
    FieldsShape(text);
    forall i | 0 <= i < |fs|
      ensures var w := CleanWords(text)[i]; w != [] && NoSpace(w) && IsLowerWord(w)
    {
      ToLowerLowers(fs[i]);
    }
  }

  /** Words typed as single-space-separated lower-case words come back unchanged. */
  lemma CleanWordsOfJoin(ws: seq<string>)
    requires forall i :: 0 <= i < |ws| ==> ws[i] != [] && NoSpace(ws[i]) && IsLowerWord(ws[i])
    ensures CleanWords(Join(ws)) == ws
  {
    LoweredLowerWords(ws);
    FieldsOfJoin(ws);
  }

  /** Lowercasing words that have no ASCII upper-case letter changes nothing. */
  lemma LoweredLowerWords(ws: seq<string>)
    requires forall i :: 0 <= i < |ws| ==> IsLowerWord(ws[i])
    ensures Lowered(ws) == ws
  {
    forall i | 0 <= i < |ws| ensures ToLower(ws[i]) == ws[i] {
      ToLowerLowers(ws[i]);
    }
  }

  /** No two entries of `table` share a name. */
  predicate NamesDistinct(table: map<string, CliCommand>)
  {
    forall k1, k2 :: k1 in table && k2 in table && k1 != k2 ==> table[k1].name != table[k2].name
  }

  /** The names of the entries of `table` under `keys` that start with `prefix`. */
  function MatchingNames(table: map<string, CliCommand>, keys: set<string>, prefix: string): (names: set<string>)
  {
    set k | k in keys && k in table && prefix <= table[k].name :: table[k].name
  }

  /** The names the completer offers for `line`: those of command-table
      entries that start with the lowercased line. */
  function Completions(line: string): (names: set<string>)
  {
    MatchingNames(CommandTable, CommandTable.Keys, ToLower(line))
  }

  /** The completer's loop over a table: walks it in map order (arbitrary
      here) and appends each name that starts with `prefix`, once. */
  method CollectMatches(table: map<string, CliCommand>, prefix: string) returns (c: seq<string>)
    requires NamesDistinct(table)
    ensures forall n :: n in c <==> n in MatchingNames(table, table.Keys, prefix)
    ensures forall i, j :: 0 <= i < j < |c| ==> c[i] != c[j]
  {
    c := [];
    var pending := table.Keys;
    while pending != {}
      invariant pending <= table.Keys
      invariant forall n :: n in c <==> n in MatchingNames(table, table.Keys - pending, prefix)
      invariant forall i, j :: 0 <= i < j < |c| ==> c[i] != c[j]
      decreases pending
    {
      var k :| k in pending;
      var n := table[k].name;
      if prefix <= n {
        assert n !in MatchingNames(table, table.Keys - pending, prefix);
        c := c + [n];
      }
      pending := pending - {k};
    }
  }

  /** The completer installed by startRepl. */
  method Complete(line: string) returns (c: seq<string>)
    ensures forall n :: n in c <==> n in Completions(line)
    ensures forall i, j :: 0 <= i < j < |c| ==> c[i] != c[j]
  {
    CommandNamesDistinct();
    c := CollectMatches(CommandTable, ToLower(line));
  }

  /** What the loop does with one cleaned line. */
  datatype Dispatch = NoInput | Unknown(word: string) | Invoke(callback: Callback, args: seq<string>)

  /** First-word dispatch: nothing for a blank line, "Unknown command" for
      a first word outside the table, otherwise that entry's handler with
      the remaining words as arguments. */
  function Parse(words: seq<string>): (d: Dispatch)
    ensures d == NoInput <==> words == []
    ensures d.Unknown? <==> words != [] && words[0] !in CommandTable
    ensures d.Unknown? ==> d.word == words[0]
    ensures d.Invoke? ==>
      && words != [] && words[0] in CommandTable
      && d.callback == CommandTable[words[0]].callback && d.args == words[1..]
  {
    if words == [] then NoInput
    else if words[0] !in CommandTable then Unknown(words[0])
    else Invoke(CommandTable[words[0]].callback, words[1..])
  }

  /** A command name typed with lower-case arguments, separated by single
      spaces, dispatches to that command's handler with exactly those
      arguments. */
  lemma {:induction false} TypedLineDispatches(name: string, args: seq<string>)
    requires name in CommandTable
    requires forall i :: 0 <= i < |args| ==> args[i] != [] && NoSpace(args[i]) && IsLowerWord(args[i])
    ensures Parse(CleanWords(Join([name] + args))) == Invoke(CommandTable[name].callback, args)
  {
    CommandKeysAreWords(name);
    var ws := [name] + args;
    assert forall i :: 0 < i < |ws| ==> ws[i] == args[i - 1];
    CleanWordsOfJoin(ws);
    assert ws[1..] == args;
  }

  /** Every command name is a non-empty lower-case word without space. */
  lemma CommandKeysAreWords(name: string)
    requires name in CommandTable
    ensures name != [] && NoSpace(name) && IsLowerWord(name)
  {
    CommandTableKeys();
    assert forall i :: 0 <= i < |name| ==> 'a' <= name[i] <= 'z';
  }

  /** The outside world during one line: the clock, the network's answer,
      the two JSON decoders, FetchPokemonDetails' result and the random draw. */
  datatype Env = Env(
    now: int,
    net: NetResult,
    decodeLocations: seq<byte> -> Option<RespShallowLocations>,
    decodeDetail: seq<byte> -> Option<RespLocationsDetail>,
    details: Result<PokemonDetails, string>,
    draw: int)

  /** Whether the prompt loop reads another line after this outcome: handler
      errors are reported and the loop goes on; exit and a panic end it. */
  predicate LoopContinues(o: Option<Outcome>)
  {
    o.None? || o.value.Done? || o.value.Failed?
  }

  predicate MovesCursors(c: Callback)
  {
    c == Map || c == MapBack
  }

  predicate Fetches(c: Callback)
  {
    c == Map || c == MapBack || c == Explore
  }

  /** The handler `callback` run on `args` as a transition on the session:
      help and pokedex only print, exit ends the process with status 0, and
      the others are the transitions of their handlers. */
  function CommandStep(callback: Callback, args: seq<string>, base: string, s: Session, env: Env): (r: Step)
  {
    match callback
    case Help => Step(Done, s)
    case Exit => Step(Exited(0), s)
    case Map => MapStep(base, s, env.decodeLocations, env.net, env.now)
    case MapBack => MapBackStep(s, env.decodeLocations, env.net, env.now)
    case Explore => ExploreStep(base, s, args, env.decodeDetail, env.net, env.now)
    case Catch => CatchStep(s, args, env.details, env.draw)
    case Inspect => InspectStep(s, args)
    case Pokedex => Step(Done, s)
  }

  /** Calls the handler `callback` with `args`: the `command.callback(cfg,
      words[1:]...)` step of startRepl. */
  method RunCommand(cfg: Config, callback: Callback, args: seq<string>, env: Env) returns (o: Outcome)
    requires env.details.Success? && env.details.value.BaseExperience > 0 ==>
      0 <= env.draw < env.details.value.BaseExperience
    modifies cfg, cfg.pokeapiClient.cache
    // the handler of `callback` runs, on exactly `args`
    ensures Step(o, cfg.State()) == CommandStep(callback, args, cfg.pokeapiClient.baseURL, old(cfg.State()), env)
    ensures !MovesCursors(callback) ==>
      cfg.nextLocationsURL == old(cfg.nextLocationsURL) && cfg.prevLocationsURL == old(cfg.prevLocationsURL)
    ensures callback != Catch ==> cfg.caughtPokemon == old(cfg.caughtPokemon)
    ensures !Fetches(callback) ==> cfg.pokeapiClient.cache.entries == old(cfg.pokeapiClient.cache.entries)
    // only exit ends the process, with status 0, and only catch can panic
    ensures o.Exited? <==> callback == Exit
    ensures callback == Exit ==> o == Exited(0)
    ensures o.Panicked? ==> callback == Catch
  {
    match callback {
      case Help =>
        o := Done;
      case Exit =>
        o := Exited(0);
      case Map =>
        o := CommandMap(cfg, env.decodeLocations, env.net, env.now);
      case MapBack =>
        o := CommandMapBack(cfg, env.decodeLocations, env.net, env.now);
      case Explore =>
        var area;
        o, area := CommandExplore(cfg, args, env.decodeDetail, env.net, env.now);
      case Catch =>
        o := CommandCatch(cfg, args, env.details, env.draw);
      case Inspect =>
        var shown;
        o, shown := CommandInspect(cfg, args);
      case Pokedex =>
        o := Done;
    }
  }

  /** One iteration of startRepl's loop for the line `line`. */
  method RunLine(cfg: Config, line: string, env: Env) returns (d: Dispatch, o: Option<Outcome>)
    requires env.details.Success? && env.details.value.BaseExperience > 0 ==>
      0 <= env.draw < env.details.value.BaseExperience
    modifies cfg, cfg.pokeapiClient.cache
    ensures d == Parse(CleanWords(line))
    // a handler runs exactly when the first word is a command, on exactly
    // the remaining words; otherwise nothing changes
    ensures o.Some? <==> d.Invoke?
    ensures d.Invoke? ==>
      Step(o.value, cfg.State()) == CommandStep(d.callback, d.args, cfg.pokeapiClient.baseURL, old(cfg.State()), env)
    ensures !d.Invoke? ==> cfg.State() == old(cfg.State())
    // only map and mapb move the cursors, only catch changes the caught
    // map, and only map, mapb and explore can store into the cache (of the
    // modelled effects: FetchPokemonDetails' use of the cache is not modelled)
    ensures !(d.Invoke? && MovesCursors(d.callback)) ==>
      cfg.nextLocationsURL == old(cfg.nextLocationsURL) && cfg.prevLocationsURL == old(cfg.prevLocationsURL)
    ensures !(d.Invoke? && d.callback == Catch) ==> cfg.caughtPokemon == old(cfg.caughtPokemon)
    ensures !(d.Invoke? && Fetches(d.callback)) ==>
      cfg.pokeapiClient.cache.entries == old(cfg.pokeapiClient.cache.entries)
    // the loop ends only on exit (status 0) or a panic in catch
    ensures d.Invoke? && d.callback == Exit ==> o == Some(Exited(0))
    ensures !LoopContinues(o) ==> d.Invoke? && (d.callback == Exit || (d.callback == Catch && o.value.Panicked?))
  {
    var words := CleanInput(line);
    d := Parse(words);
    if !d.Invoke? {
      return d, None;
    }
    var outcome := RunCommand(cfg, d.callback, d.args, env);
    o := Some(outcome);
  }

  /** `catch <pokemon>` typed for a Pokémon not yet caught, with a draw at
      most half its base experience, stores the fetched record under its
      fetched name and leaves the rest of the session alone. (`name` is the
      table key whose handler is commandCatch, that is, "catch".) */
  lemma CatchAtPromptCatches(name: string, pokemon: string, base: string, s: Session, env: Env)
    requires name in CommandTable && CommandTable[name].callback == Catch
    requires pokemon != [] && NoSpace(pokemon) && IsLowerWord(pokemon) && pokemon !in s.caught
    requires env.details.Success? && env.details.value.BaseExperience > 0
    requires CatchSucceeds(env.draw, env.details.value.BaseExperience)
    ensures var d := Parse(CleanWords(Join([name, pokemon])));
      && d == Invoke(Catch, [pokemon])
      && CommandStep(d.callback, d.args, base, s, env)
         == Step(Done, s.(caught := s.caught[env.details.value.Name := env.details.value]))
  {
    CatchLineDispatches(name, pokemon);
    ToLowerLowers(pokemon);
    CatchStepCatches(s, [pokemon], env.details, env.draw);
  }

  /** The line `catch <pokemon>` runs commandCatch on the one argument. */
  lemma CatchLineDispatches(name: string, pokemon: string)
    requires name in CommandTable && CommandTable[name].callback == Catch
    requires pokemon != [] && NoSpace(pokemon) && IsLowerWord(pokemon)
    ensures Parse(CleanWords(Join([name, pokemon]))) == Invoke(Catch, [pokemon])
  {
    TypedLineDispatches(name, [pokemon]);
    assert [name] + [pokemon] == [name, pokemon];
  }

  /** The command whose handler is commandCatch is typed `catch`. */
  lemma CatchIsTypedCatch()
    ensures "catch" in CommandTable && CommandTable["catch"].callback == Catch
  {
  }
}
