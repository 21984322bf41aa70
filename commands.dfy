/**
  The command handlers of command.go and the session state they share
  (the `config` struct of repl.go).

  Console output is not modelled. The random draw of commandCatch and the
  result of FetchPokemonDetails (whose source is not part of this model)
  are parameters, so every handler is a deterministic state transition.
 */
module Commands {
  import opened Wrappers
  import opened PokeCache
  import opened PokeApi
  import opened Text

  /** The fields of a Pokémon record that the catch and inspect commands use. */
  datatype PokemonDetails = PokemonDetails(Name: string, BaseExperience: int, Height: int, Weight: int)

  /** The errors the handlers return to the REPL. A fetch error is passed
      on as it is; the others are the handlers' own messages. */
  datatype CommandError =
    | FirstPage                      // mapb on the first page: "you're on the first page"
    | Fetching(cause: FetchError)    // the error of ListLocations or ListExplore
    | DetailsFetching(msg: string)   // the error of FetchPokemonDetails
    | OneCatchAtATime                // catch with more than one argument
    | NeedLocationName               // explore without exactly one argument
    | NeedPokemonName                // inspect without exactly one argument

  /** How a handler ends: normally, with an error the REPL reports before
      reading the next line, through os.Exit(0), or with a run-time panic. */
  datatype Outcome = Done | Failed(err: CommandError) | Exited(status: int) | Panicked(reason: string)

  /** The catch rule: a draw succeeds when it does not exceed half the base
      experience (integer division). */
  predicate CatchSucceeds(attempt: int, baseExperience: int)
  {
    attempt <= baseExperience / 2
  }

  /** The session state as a value: the two page cursors, the caught
      Pokémon and the contents of the client's cache. */
  datatype Session = Session(
    next: Option<string>,
    prev: Option<string>,
    caught: map<string, PokemonDetails>,
    entries: map<string, CacheEntry>)

  /** What running a handler gives: its outcome and the session it leaves. */
  datatype Step = Step(outcome: Outcome, after: Session)

  /** The session state. */
  class Config {
    const pokeapiClient: Client
    var nextLocationsURL: Option<string>
    var prevLocationsURL: Option<string>
    var caughtPokemon: map<string, PokemonDetails>

    /** The state main builds: the client, no cursors, nothing caught. */
    constructor (client: Client)
      ensures pokeapiClient == client
      ensures nextLocationsURL == None && prevLocationsURL == None && caughtPokemon == map[]
    {
      pokeapiClient := client;
      nextLocationsURL := None;
      prevLocationsURL := None;
      caughtPokemon := map[];
    }

    /** The session this object and its client's cache hold. */
    function State(): (s: Session)
      reads this, pokeapiClient.cache
    {
      Session(nextLocationsURL, prevLocationsURL, caughtPokemon, pokeapiClient.cache.entries)
    }
  }

  /** Fetching a listing page at `url` and moving both cursors to its links
      when the fetch succeeds; the cache takes what the fetch stored. */
  function PageStep(url: string, s: Session, decode: seq<byte> -> Option<RespShallowLocations>,
                    net: NetResult, now: int): (r: Step)
  {
    var f := Protocol(s.entries, url, decode, ZeroLocations, net);
    var entries := Stored(s.entries, url, f.store, now);
    if f.err.Some? then Step(Failed(Fetching(f.err.value)), s.(entries := entries))
    else Step(Done, s.(next := f.resp.Next, prev := f.resp.Previous, entries := entries))
  }

  /** commandMap as a transition on the session. */
  function MapStep(base: string, s: Session, decode: seq<byte> -> Option<RespShallowLocations>,
                   net: NetResult, now: int): (r: Step)
  {
    PageStep(LocationsURL(base, s.next), s, decode, net, now)
  }

  /** commandMapBack as a transition on the session. */
  function MapBackStep(s: Session, decode: seq<byte> -> Option<RespShallowLocations>,
                       net: NetResult, now: int): (r: Step)
  {
    match s.prev
    case None => Step(Failed(FirstPage), s)
    case Some(url) => PageStep(url, s, decode, net, now)
  }

  /** commandExplore as a transition on the session. */
  function ExploreStep(base: string, s: Session, args: seq<string>,
                       decode: seq<byte> -> Option<RespLocationsDetail>, net: NetResult, now: int): (r: Step)
  {
    if |args| != 1 then Step(Failed(NeedLocationName), s)
    else
      var url := ExploreURL(base, args[0]);
      var f := Protocol(s.entries, url, decode, ZeroDetail, net);
      var entries := Stored(s.entries, url, f.store, now);
      Step(if f.err.Some? then Failed(Fetching(f.err.value)) else Done, s.(entries := entries))
  }

  /** commandCatch as a transition on the session, for the details fetched
      and the value drawn. */
  function CatchStep(s: Session, args: seq<string>, fetched: Result<PokemonDetails, string>, draw: int): (r: Step)
  {
    if |args| > 1 then Step(Failed(OneCatchAtATime), s)
    else if |args| == 0 || ToLower(args[0]) in s.caught then Step(Done, s)
    else match fetched
      case Failure(msg) => Step(Failed(DetailsFetching(msg)), s)
      case Success(d) =>
        if d.BaseExperience <= 0 then Step(Panicked("invalid argument to Intn"), s)
        else if CatchSucceeds(draw, d.BaseExperience) then Step(Done, s.(caught := s.caught[d.Name := d]))
        else Step(Done, s)
  }

  /** A catch of a name not yet caught, with a draw at most half the base
      experience, adds the fetched record under its fetched name and
      changes nothing else. */
  lemma CatchStepCatches(s: Session, args: seq<string>, fetched: Result<PokemonDetails, string>, draw: int)
    requires |args| == 1 && ToLower(args[0]) !in s.caught
    requires fetched.Success? && fetched.value.BaseExperience > 0
    requires CatchSucceeds(draw, fetched.value.BaseExperience)
    ensures CatchStep(s, args, fetched, draw) == Step(Done, s.(caught := s.caught[fetched.value.Name := fetched.value]))
  {
  }

  /** commandInspect as a transition on the session: it only reads. */
  function InspectStep(s: Session, args: seq<string>): (r: Step)
  {
    Step(if |args| != 1 then Failed(NeedPokemonName) else Done, s)
  }

  /** commandMap: fetch the page under the `next` cursor (the first page
      when there is none) and move both cursors to that page's links. */
  method CommandMap(cfg: Config, decode: seq<byte> -> Option<RespShallowLocations>, net: NetResult, now: int)
    returns (o: Outcome)
    modifies cfg, cfg.pokeapiClient.cache
    ensures Step(o, cfg.State()) == MapStep(cfg.pokeapiClient.baseURL, old(cfg.State()), decode, net, now)
    ensures var client := cfg.pokeapiClient;
      var url := LocationsURL(client.baseURL, old(cfg.nextLocationsURL));
      var f := Protocol(old(client.cache.entries), url, decode, ZeroLocations, net);
      && client.cache.entries == Stored(old(client.cache.entries), url, f.store, now)
      && (f.err.Some? ==> o == Failed(Fetching(f.err.value))
                          && cfg.nextLocationsURL == old(cfg.nextLocationsURL)
                          && cfg.prevLocationsURL == old(cfg.prevLocationsURL))
      && (f.err.None? ==> o == Done
                          && cfg.nextLocationsURL == f.resp.Next
                          && cfg.prevLocationsURL == f.resp.Previous)
    ensures cfg.caughtPokemon == old(cfg.caughtPokemon)
  {
    var resp, err, _ := cfg.pokeapiClient.ListLocations(cfg.nextLocationsURL, decode, net, now);
    if err.Some? {
      return Failed(Fetching(err.value));
    }
    cfg.nextLocationsURL := resp.Next;
    cfg.prevLocationsURL := resp.Previous;
    return Done;
  }

  /** commandMapBack: refuse on the first page; otherwise fetch the page
      under the `previous` cursor and move both cursors to its links. */
  method CommandMapBack(cfg: Config, decode: seq<byte> -> Option<RespShallowLocations>, net: NetResult, now: int)
    returns (o: Outcome)
    modifies cfg, cfg.pokeapiClient.cache
    ensures Step(o, cfg.State()) == MapBackStep(old(cfg.State()), decode, net, now)
    ensures old(cfg.prevLocationsURL) == None ==>
      && o == Failed(FirstPage)
      && cfg.pokeapiClient.cache.entries == old(cfg.pokeapiClient.cache.entries)
      && cfg.nextLocationsURL == old(cfg.nextLocationsURL)
      && cfg.prevLocationsURL == old(cfg.prevLocationsURL)
    ensures old(cfg.prevLocationsURL) != None ==>
      var client := cfg.pokeapiClient;
      var url := old(cfg.prevLocationsURL).value;
      var f := Protocol(old(client.cache.entries), url, decode, ZeroLocations, net);
      && client.cache.entries == Stored(old(client.cache.entries), url, f.store, now)
      && (f.err.Some? ==> o == Failed(Fetching(f.err.value))
                          && cfg.nextLocationsURL == old(cfg.nextLocationsURL)
                          && cfg.prevLocationsURL == old(cfg.prevLocationsURL))
      && (f.err.None? ==> o == Done
                          && cfg.nextLocationsURL == f.resp.Next
                          && cfg.prevLocationsURL == f.resp.Previous)
    ensures cfg.caughtPokemon == old(cfg.caughtPokemon)
  {
    if cfg.prevLocationsURL == None {
      return Failed(FirstPage);
    }
    var resp, err, _ := cfg.pokeapiClient.ListLocations(cfg.prevLocationsURL, decode, net, now);
    if err.Some? {
      return Failed(Fetching(err.value));
    }
    cfg.nextLocationsURL := resp.Next;
    cfg.prevLocationsURL := resp.Previous;
    return Done;
  }

  /** commandExplore: exactly one argument, the area name, which is fetched
      through the cache. The session fields are left alone. */
  method CommandExplore(cfg: Config, args: seq<string>, decode: seq<byte> -> Option<RespLocationsDetail>,
                        net: NetResult, now: int)
    returns (o: Outcome, area: Option<RespLocationsDetail>)
    modifies cfg.pokeapiClient.cache
    ensures Step(o, cfg.State()) == ExploreStep(cfg.pokeapiClient.baseURL, old(cfg.State()), args, decode, net, now)
    ensures |args| != 1 ==>
      && o == Failed(NeedLocationName) && area == None
      && cfg.pokeapiClient.cache.entries == old(cfg.pokeapiClient.cache.entries)
    ensures |args| == 1 ==>
      var client := cfg.pokeapiClient;
      var url := ExploreURL(client.baseURL, args[0]);
      var f := Protocol(old(client.cache.entries), url, decode, ZeroDetail, net);
      && client.cache.entries == Stored(old(client.cache.entries), url, f.store, now)
      && (f.err.Some? ==> o == Failed(Fetching(f.err.value)) && area == None)
      && (f.err.None? ==> o == Done && area == Some(f.resp))
  {
    if |args| != 1 {
      return Failed(NeedLocationName), None;
    }
    var resp, err, _ := cfg.pokeapiClient.ListExplore(args[0], decode, net, now);
    if err.Some? {
      return Failed(Fetching(err.value)), None;
    }
    return Done, Some(resp);
  }

  /** commandCatch. `fetched` is what FetchPokemonDetails returns for the
      lowercased name and `draw` is the value rand.Intn returns; rand.Intn
      draws from [0, BaseExperience) and panics unless BaseExperience > 0.
      What FetchPokemonDetails does to the client's cache is not modelled. */
  method CommandCatch(cfg: Config, args: seq<string>, fetched: Result<PokemonDetails, string>, draw: int)
    returns (o: Outcome)
    requires fetched.Success? && fetched.value.BaseExperience > 0 ==> 0 <= draw < fetched.value.BaseExperience
    modifies cfg
    ensures Step(o, cfg.State()) == CatchStep(old(cfg.State()), args, fetched, draw)
    ensures cfg.nextLocationsURL == old(cfg.nextLocationsURL) && cfg.prevLocationsURL == old(cfg.prevLocationsURL)
    // more than one argument is an error
    ensures |args| > 1 ==> o == Failed(OneCatchAtATime) && cfg.caughtPokemon == old(cfg.caughtPokemon)
    // no argument only lists what was caught
    ensures |args| == 0 ==> o == Done && cfg.caughtPokemon == old(cfg.caughtPokemon)
    // a name already caught is skipped
    ensures |args| == 1 && ToLower(args[0]) in old(cfg.caughtPokemon) ==>
      o == Done && cfg.caughtPokemon == old(cfg.caughtPokemon)
    ensures |args| == 1 && ToLower(args[0]) !in old(cfg.caughtPokemon) ==>
      match fetched
      case Failure(msg) => o == Failed(DetailsFetching(msg)) && cfg.caughtPokemon == old(cfg.caughtPokemon)
      case Success(d) =>
        if d.BaseExperience <= 0 then
          o.Panicked? && cfg.caughtPokemon == old(cfg.caughtPokemon)
        else
          o == Done &&
          cfg.caughtPokemon == if CatchSucceeds(draw, d.BaseExperience)
                               then old(cfg.caughtPokemon)[d.Name := d]
                               else old(cfg.caughtPokemon)
  {
    if |args| > 1 {
      return Failed(OneCatchAtATime);
    }
    if |args| == 0 {
      return Done;
    }
    var pokemonName := ToLower(args[0]);
    if pokemonName in cfg.caughtPokemon {
      return Done;
    }
    if fetched.Failure? {
      return Failed(DetailsFetching(fetched.error));
    }
    var details := fetched.value;
    var catchThreshold := details.BaseExperience / 2;
    if details.BaseExperience <= 0 {
      return Panicked("invalid argument to Intn");
    }
    var catchAttempt := draw;
    if catchAttempt <= catchThreshold {
      cfg.caughtPokemon := cfg.caughtPokemon[details.Name := details];
    }
    return Done;
  }

  /** commandInspect: exactly one argument; shows the caught record under
      the lowercased name, if any. Reads only. */
  method CommandInspect(cfg: Config, args: seq<string>) returns (o: Outcome, shown: Option<PokemonDetails>)
    ensures Step(o, cfg.State()) == InspectStep(cfg.State(), args)
    ensures |args| != 1 <==> o == Failed(NeedPokemonName)
    ensures o == Done || o == Failed(NeedPokemonName)
    ensures shown.Some? <==> |args| == 1 && ToLower(args[0]) in cfg.caughtPokemon
    ensures shown.Some? ==> shown.value == cfg.caughtPokemon[ToLower(args[0])]
  {
    if |args| != 1 {
      return Failed(NeedPokemonName), None;
    }
    var name := ToLower(args[0]);
    if name !in cfg.caughtPokemon {
      return Done, None;
    }
    return Done, Some(cfg.caughtPokemon[name]);
  }

  /** The set of draws in [0, e) that catch. */
  function CatchingDraws(e: int): (draws: set<int>)
  {
    set a | 0 <= a < e && CatchSucceeds(a, e)
  }

  /** The set {0, ..., n-1}. */
  function Range(n: nat): (r: set<int>)
  {
    if n == 0 then {} else Range(n - 1) + {n - 1}
  }

  lemma {:induction false} RangeFacts(n: nat)
    ensures |Range(n)| == n
    ensures forall a :: a in Range(n) <==> 0 <= a < n
  {
    if n > 0 {
      RangeFacts(n - 1);
    }
  }

  /** Out of the `e` equally likely draws, exactly e/2 + 1 catch: a little
      over half, and every draw when e is 1 or 2. */
  lemma CatchOdds(e: int)
    requires e > 0
    ensures |CatchingDraws(e)| == e / 2 + 1
    ensures 2 * |CatchingDraws(e)| > e
  {
    RangeFacts(e / 2 + 1);
    assert CatchingDraws(e) == Range(e / 2 + 1);
  }
}
