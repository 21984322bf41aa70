# pokedexCLI core, modelled in Dafny

This project models the core of pokedexCLI, an interactive command-line explorer for the PokéAPI catalog. It covers three parts:

- **The TTL cache** (`internal/pokecache/cache.go`). This is class `PokeCache.Cache`. It maps URLs to raw response bytes, and each entry is stamped with its insertion time. `Add` inserts or overwrites, `Get` reads whatever the entry's age, and `Reap` deletes every entry strictly older than the interval. Time is an explicit integer `now`. The background ticker is replaced by calls to `Reap` at chosen times. Lemma `SweepBound` covers the ticker's timing: ticks at `start + j * interval`.
- **The cache-aside fetch** (`ListLocations`, `ListExplore`). The pure function `PokeApi.Protocol` states the hit/miss/store protocol, and the methods of class `PokeApi.Client` are proved against it. The network is an oracle value `NetResult`: a failure of request construction, transport or body read, or a body. The JSON decoder is a function parameter `decode`.
- **The command layer** (`repl.go`, `command.go`). This includes input cleaning (`strings.Fields` with Go's exact `unicode.IsSpace` set, then lowercasing) and the command table. It also includes the tab completer and first-word dispatch. The handlers change the session `Config`: the `next`/`previous` page cursors and the map of caught Pokémon. The random draw and the fetched Pokémon details are parameters, so every handler is a deterministic state transition. Each handler's transition is also a pure function of the old `Session` (`MapStep`, `MapBackStep`, `ExploreStep`, `CatchStep`, `InspectStep`, combined in `Repl.CommandStep`). The handler methods, `RunCommand` and `RunLine` are proved equal to these functions.

The file-level layout is `wrappers.dfy` (Option/Result), `text.dfy` (the `strings` functions used), `pokecache.dfy`, `pokeapi.dfy`, `commands.dfy` and `repl.dfy`.

The lemmas `SweepBound` and `SweepRemovesByTwoIntervals` judge each sweep at the exact time of its tick. An entry is removed only when its age is strictly greater than `interval`, so under that idealisation an entry added exactly on a tick goes exactly `2 * interval` later, and the proved bound is `<= t + 2 * interval`. In the program `reap` reads the clock after the tick arrives and after taking the lock (internal/pokecache/cache.go:62-63, 72), so its `now` is a little later than the tick; such an entry is then already over age at the next tick and goes after one interval. A later clock only removes more (`ReapMonotoneInTime`), so the upper bound still holds. A `BaseExperience` of 0 is not guarded in `commandCatch`: `rand.Intn(0)` panics, and the model says so (`Outcome.Panicked`).

## Model

| member | source | states |
|---|---|---|
| PokeCache.Cache.constructor | internal/pokecache/cache.go:22-26 | A new cache has no entries and keeps the given interval. |
| PokeCache.Cache.Add | internal/pokecache/cache.go:35-43 | The entry for the key becomes (now, value). Any previous entry is overwritten, and every other key keeps its entry. No key is added besides the given one. |
| PokeCache.Cache.Get | internal/pokecache/cache.go:46-55 | Found exactly when the key is present, whatever the entry's age. The value is the stored one. An absent key gives the empty payload and false. It reads only. |
| PokeCache.Cache.Reap | internal/pokecache/cache.go:68-78 | The loop visits the keys in arbitrary order and deletes as it goes. The entries afterwards are exactly those with `now - createdAt <= interval`, unchanged. |
| PokeCache.ReapKeepsExactlyFresh | internal/pokecache/cache.go:73-76 | A key survives a sweep iff it was present and its age is at most the interval. A survivor's value and timestamp are untouched. |
| PokeCache.ReapIdempotent | internal/pokecache/cache.go:73-76 | A second sweep at the same time removes nothing more. |
| PokeCache.ReapMonotoneInTime | internal/pokecache/cache.go:74 | A later sweep keeps a subset of the keys an earlier sweep keeps. |
| PokeCache.ReapRemovesStale | internal/pokecache/cache.go:72-75 | An entry stored at t is removed by any sweep with `now > t + interval`. |
| PokeCache.SweepBound | internal/pokecache/cache.go:58-65 | With ticks at `start + j * interval` and each sweep judged at its tick time, the first tick that expires an entry stored at t lies in `(t + interval, t + 2 * interval]`. The tick before it is at or before `t + interval`. |
| PokeCache.SweepRemovesByTwoIntervals | internal/pokecache/cache.go:58-77 | The sweep at that tick removes the entry, and the sweep one tick earlier keeps it. So every entry is gone by `t + 2 * interval`. |
| PokeApi.Protocol | internal/pokeapi/locations.go:29-62 | A decodable hit is returned with no request and no store. Anything else takes the network path for exactly the URL (a failing request construction sends nothing). A miss whose body decodes succeeds: it returns the decoded value and stores the raw body under the URL. The fetch fails iff it is neither a decodable hit nor a body that decodes. Every error gives the zero response and stores nothing. A store happens only after a successful decode. |
| PokeApi.Client.constructor | internal/pokeapi/client.go:18-26 | The client uses the fixed base URL `https://pokeapi.co/api/v2` and owns a fresh, empty cache with the given interval. |
| PokeApi.Client.FetchThroughCache | internal/pokeapi/explore.go:66-100 | Get, then decode the hit, then request, read and decode, then Add. Result, request and new cache contents are exactly those of `Protocol`. The cache changes at most once, and only on success. |
| PokeApi.Client.ListLocations | internal/pokeapi/locations.go:22-63 | The URL is `baseURL + "/location-area"` for a nil page URL and the page URL itself otherwise. The fetch follows `Protocol` for that URL with the zero `RespShallowLocations`. |
| PokeApi.Client.ListExplore | internal/pokeapi/explore.go:63-101 | The URL is `baseURL + "/location-area" + "/" + area`. The fetch follows `Protocol` for that URL with the zero `RespLocationsDetail`. |
| PokeApi.RepeatIsServedFromCache | internal/pokeapi/pokeapi_test.go:63-74 | After a successful call, a second call for the same URL returns the same response from the cache, with no request, whatever the network would answer. |
| PokeApi.BackNavigationHitsCache | internal/pokeapi/locations.go:29-35 | After fetching page 1 and then any other URL, requesting page 1's URL again is a cache hit. It returns page 1's response, with its cursors, and no request. `mapb` gets this hit only when the server's `Previous` link is exactly that URL. |
| PokeApi.CorruptHitFallsThrough | internal/pokeapi/locations.go:29-37 | A hit whose bytes fail to decode behaves exactly as a miss, so it falls through to the network. |
| PokeApi.EmptyErrorBodyFails | internal/pokeapi/pokeapi_test.go:91-108 | A server error with an empty body ends in a decode error, because the status code is never checked. Nothing is cached. |
| PokeApi.ExploreURLInjective | internal/pokeapi/explore.go:64 | Different areas never share a cache key. |
| PokeApi.ExploreURLIsNotFirstPage | internal/pokeapi/explore.go:64 | No area's key equals the first listing page's key. |
| Text.FieldsShape | repl.go:68 | Every field is non-empty and free of space. There are no fields exactly when the input is all space. |
| Text.FieldsOfJoin | repl.go:68 | Splitting non-empty, space-free words joined by single spaces gives the words back. |
| Text.TrimSpaceOfWord | repl.go:70 | TrimSpace leaves a space-free field unchanged. |
| Text.ToLowerLowers | repl.go:70 | Lowercasing keeps the length and spacelessness, leaves no ASCII upper-case letter, and is the identity on words without ASCII upper-case letters. |
| Repl.LowerWords | repl.go:69-72 | The `for i, word := range words` loop overwrites each field in place. The result is each field trimmed and lowercased, in the same order. |
| Repl.CleanInput | repl.go:67-73 | The result is the fields of the input (`strings.Fields`), in order, each lowercased. |
| Repl.CleanWordsShape | repl.go:67-73 | The word count equals the field count. Every word is non-empty, space-free and free of ASCII upper-case letters. There are no words iff the line is blank. |
| Repl.CleanWordsOfJoin | repl.go:67-73 | Lower-case words typed with single spaces come back unchanged. |
| Repl.CommandTableKeys | repl.go:81-124 | The command table has exactly the keys help, exit, map, mapb, explore, catch, inspect and pokedex. |
| Repl.CommandNamesDistinct | repl.go:81-124 | No two commands share a `name`. |
| Repl.CollectMatches | repl.go:24-28 | The loop visits the table in arbitrary map order. It returns exactly the names starting with the prefix, each once. |
| Repl.Complete | repl.go:23-30 | The completer offers exactly the command `name` fields that start with the lowercased line, without repeats. It matches on `name`, so `explore <location>` is offered, not `explore`. |
| Repl.Parse | repl.go:47-58 | The dispatch decision: nothing for a blank line, "Unknown command" for a first word outside the table, and otherwise that entry's callback with exactly the remaining words as arguments (`RunLine` then runs it). |
| Repl.RunCommand | repl.go:60 | Calling the handler of the callback on exactly the given arguments: outcome and new session are `CommandStep`, which is each handler's own transition. Only map and mapb move the cursors, only catch changes the caught map, and, of the modelled effects, only map, mapb and explore can store into the cache. The process exits (status 0) iff the command is exit. Only catch can panic. |
| Repl.RunLine | repl.go:47-63 | A handler runs iff the first word is a command. It is the table entry's handler, run on exactly the remaining words, and the outcome and new session are that handler's transition. Blank and unknown lines change nothing. Of the modelled effects, only map, mapb, explore and catch change state: catch the caught map, map and mapb the cursors, and map, mapb and explore the cache. Handler errors keep the loop going. Only exit (status 0) or a catch panic ends it. |
| Repl.TypedLineDispatches | repl.go:47-60 | A command name typed with lower-case arguments separated by single spaces dispatches to that command's handler with exactly those arguments. |
| Repl.CatchAtPromptCatches | repl.go:54-60 | Typing `catch <pokemon>` (the table key whose handler is commandCatch) for a Pokémon not yet caught, with a draw at most half its base experience, dispatches to commandCatch with that one argument. The catch succeeds and stores the fetched record under its fetched name. The rest of the session is unchanged. |
| Repl.CatchIsTypedCatch | repl.go:108-112 | The table key `catch` holds the handler commandCatch. |
| Commands.Config.constructor | main.go:11-14 | The session starts with the client, no cursors and an empty caught map. |
| Commands.CommandMap | command.go:26-39 | It fetches the page under the `next` cursor (the first page when nil). On success both cursors become the response's Next and Previous. On failure they keep their values and the error is returned. The whole transition is `MapStep` of the old session. |
| Commands.CommandMapBack | command.go:41-58 | With a nil `previous` cursor it returns "you're on the first page" and changes nothing. Otherwise it behaves as map, on the `previous` cursor. The whole transition is `MapBackStep` of the old session. |
| Commands.CommandExplore | command.go:60-76 | Without exactly one argument it returns an error and fetches nothing. Otherwise it fetches that area through the cache and returns the fetch error, if any. The session fields are never changed. The whole transition is `ExploreStep` of the old session. |
| Commands.CommandCatch | command.go:78-121 | More than one argument is an error. No argument, or a lowercased name already caught, changes nothing. A failed details fetch is returned. BaseExperience <= 0 panics (rand.Intn). Otherwise the catch succeeds iff `draw <= BaseExperience / 2`, and only then is the map updated at the fetched name. The cursors never change. The whole transition is `CatchStep` of the old session. |
| Commands.CatchStepCatches | command.go:95-118 | A catch of a lowercased name not yet caught, with a positive BaseExperience and a draw at most half of it, returns success and adds the fetched record under the fetched name. Nothing else in the session changes. |
| Commands.CommandInspect | command.go:123-148 | Without exactly one argument it returns an error. Otherwise it shows the record caught under the lowercased name, if any. It reads only (`InspectStep`). |
| Commands.CatchOdds | command.go:108-113 | Of the BaseExperience equally likely draws, exactly `BaseExperience / 2 + 1` catch. That is more than half. |

## Left out

- PokeCache.SweepBound: each sweep is judged at the exact time of its tick. In the program `reap` reads `time.Now()` after the tick and after taking the lock, so it sweeps at a slightly later time and may remove an entry one tick earlier than the lemma says. Only the upper bound `t + 2 * interval` carries over, by `ReapMonotoneInTime`. The lemma `SweepRemovesByTwoIntervals` has the same idealisation.
- PokeCache.SweepRemovesByTwoIntervals: each sweep is judged at the exact time of its tick, so it proves the non-strict bound `<= t + 2 * interval`, where the design states a strict one. In the program, when the tick before the first expiring tick falls exactly at `t + interval`, the sweep there reads a later clock and already removes the entry. So the half "the sweep one tick earlier keeps it" does not carry over. The upper bound does carry over, by `ReapMonotoneInTime`.
- The mutex, the `reapLoop` goroutine and `time.NewTicker` (internal/pokecache/cache.go:16, 29, 58-65) are not modelled. There is no interleaving to model in a sequential proof. `Reap` is a plain method, and the tick timing is covered by `SweepBound`. `NewTicker` panics for a non-positive interval, and this is not modelled.
- `time.Now` becomes the integer parameter `now`. `Time.Sub` saturates at the 64-bit Duration range, and this is not modelled because integers here are unbounded.
- HTTP is modelled only as the oracle value `NetResult` (http.NewRequest, httpClient.Do, io.ReadAll, the client timeout). JSON decoding is the function parameter `decode`. The response structs keep only the fields the commands use.
- `FetchPokemonDetails` is not part of this model, and `PokemonDetails` is reduced to Name, BaseExperience, Height and Weight. The fetched details are a parameter of `CommandCatch`.
- Repl.RunCommand: `commandCatch` calls the client's `FetchPokemonDetails` (command.go:102), whose body is not part of this model. Whatever it does to the shared cache is not modelled (its siblings `ListLocations` and `ListExplore` do `Add`). So "catch never stores into the cache" is a property of the model, not a claim about the program. The test at internal/pokeapi/pokeapi_test.go:255-264 suggests it holds in the program too: it builds a `Client` with a nil cache and expects `FetchPokemonDetails` to succeed, which any `Get` or `Add` on that cache would prevent.
- Repl.RunLine: the same holds for its cache frame for `catch`. The cache effect of `FetchPokemonDetails` is not modelled.
- Console output is not modelled: all printing, `commandHelp`, `commandPokedex` and the listing printed by `catch` with no argument. These only print, so `RunLine` treats them as handlers that succeed and change nothing. `os.Exit(0)` is the outcome `Exited(0)`.
- The liner line editor is not modelled: prompt errors, Ctrl-C abort and history (repl.go:19-46). Only one loop iteration, after a line is read, is modelled (`RunLine`).
- Repl.CleanInput: lowercases ASCII letters only. Go's `strings.ToLower` also maps non-ASCII upper-case letters. Whitespace follows `unicode.IsSpace` exactly. Input is assumed to be valid text.
- Repl.Complete: it uses the same ASCII-only lowercasing of the typed line.
- The `nil` and empty byte slices are not distinguished. An absent key's payload is the empty sequence.
