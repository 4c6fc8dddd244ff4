# mainframe, the logic it owns

`mainframe` is a personal Go server: it runs a few recurring jobs, keeps
a dynamic DNS name pointed at the house, serves the Potty Trainer API,
watches the #iworkout Discord channel for reactions, and signs users in
with Google. Most of it is glue around other people's SDKs. This project
models in Dafny the parts that hold the repository's own decisions. Every
outside call becomes an input: an HTTP or SQL result, the Discord API, the
random source, the clock.

- **Job schedulers** (`cron.go`, `cron/cron.go`).
  - Both read the environment from the version string and hold a fixed table of jobs.
  - In development both launch every job once, right away.
  - Only the `cron` package registers jobs with the robfig dispatcher. It registers in table order and stops at the first schedule the dispatcher refuses.
  - Start-up is modelled as a trace of `Launched`, `Registered` and `DispatcherStarted` events (module `Jobs`).
- **Dynamic DNS** (`dyndns.go`, `dyndns/dyndns.go`). Both updaters:
  - skip everything in development;
  - report the empty settings among the four `DYNDNS_*` ones, in order;
  - compare the address ip-api.com reports with the cached `lastKnownPublicIP`;
  - act on the dyndns server's answer.

  The main-package updater also loads the cache from, and records new addresses in, the `ip_addresses` table. Each updater is a class with the cache as its field, proved against a function of the old state.
- **Potty Trainer API** (`pottytrainer/server.go`).
  - The token is taken from `Authorization: Bearer …` or `?token=`.
  - The token gate answers 401 or calls the wrapped handler once.
  - The `/poop` handler's body decoding decides between 400 and `LogPoop`.
  - `Run` mounts the API under `/api/v1/` on a `ServeMux`. The mux picks the longest matching pattern.
- **#iworkout reaction catalogue** (`coldbrewcrew/iworkout/discord.go`).
  - The package-level maps are `reactions`, `users` and `messages`. They are fields of a `Bot` class, changed in place by the reaction handlers, the read-through fetches and the start-up catalogue loops.
  - Each method is proved against a function on the maps' old values.
- **OAuth state nonces** (`credentials.go`).
  - `generateState` stores the padded standard Base64 text (section 4 of RFC 4648) of 1024 random bytes.
  - `consumeState` finds a state, deletes its row, and only then checks that it is at most five minutes old.
  - The two Google callbacks check the HTTP method at different points.
  - The `google_oauth_states` table is a class over a sequence of rows.

Some of what the job tables suggest is not what the code does; the model follows the code:

- `enabled` is declared at cron.go:25 and never read. `startCron` in cron.go launches all four entries in development, the disabled calendar job included.
- `startCron` in cron.go registers nothing with the dispatcher, although cron.go:103 logs "All crons registered": it starts an empty dispatcher.
- `cron.Start` in cron/cron.go returns at the first `AddFunc` error (cron/cron.go:62-67), so the later jobs are not registered and the dispatcher is never started.
- `minutely` is marked "For use in development" at cron/cron.go:25, and cron/cron.go:48 announces 1m intervals. Yet `cron.Start` registers the table's own intervals in every environment (the cron/cron.go:49-50 row of "## Findings").

## Model

| member | source | states |
|---|---|---|
| Jobs.FailureLine | cron.go:96-98 | the message of a failed run (after the logger's own prefix) starts with the job's name |
| Jobs.ImmediateEffect | cron.go:95-99 | an immediate run never ends the process; it logs exactly when the job returns an error, and the line names the job |
| Jobs.RecurringEffect | cron/cron.go:62-66 | a recurring run of the `cron` package is fatal exactly when the job returns an error, and the fatal line names the job |
| Jobs.Launches | cron.go:92-100 | one launch per name, in order, each with that job's own result |
| Jobs.LaunchesOncePerName | cron.go:88-101 | over distinct names every name is launched exactly once and registered never |
| Jobs.NotLaunched | cron.go:88-101 | a name outside the table is neither launched nor registered |
| CronMain.ResolveEnvironment | cron.go:81-85 | development exactly when the version is "development"; every other string, "" included, is production |
| CronMain.CronsTableWellFormed | cron.go:32-69 | every entry has an interval for both environments; the four names are distinct and in table order |
| CronMain.StartCron | cron.go:73-107 | always nil; in development one launch per table entry in table order, then the dispatcher start; in production only the dispatcher start |
| CronMain.StartCronLaunchCounts | cron.go:86-106 | each entry is launched once in development and never in production; no entry is ever registered |
| CronMain.DisabledCalendarLaunched | cron.go:33-41 | the calendar entry is disabled and is still the first launch in development |
| CronMain.NeverFields | cron.go:17 | the `never` specification splits into the six fields 0, 0, 5, 31, 2, ? |
| CronMain.NeverDayAndMonth | cron.go:17 | its day-of-month field reads 31 and its month field reads 2 |
| CronMain.NeverMatchesNoDate | cron.go:17-29 | no calendar date, leap years included, has a day and month that `never` admits |
| CronPkg.DefinitionNames | cron/cron.go:28-33 | the names of the table, position by position |
| CronPkg.FuncsNamesDistinct | cron/cron.go:28-33 | the four job names are distinct |
| CronPkg.FirstRefused | cron/cron.go:61-68 | the first definition whose schedule the dispatcher refuses: none exactly when every one is accepted, and all earlier ones are accepted |
| CronPkg.Registrations | cron/cron.go:61-70 | one registration per definition, in order, with the definition's own interval |
| CronPkg.LaunchEach | cron/cron.go:47-59 | one immediate launch per definition, in table order; the interval written on the loop copy is lost |
| CronPkg.RegisterEach | cron/cron.go:61-70 | registers in table order; at the first refusal it returns an error naming that job, with only the earlier ones registered |
| CronPkg.Start | cron/cron.go:37-76 | launches (in development) come before every registration; a refusal ends `Start` without the dispatcher start; otherwise all are registered, the dispatcher is started and the result is nil |
| CronPkg.RegistrationStopsAtFirstRefusal | cron/cron.go:61-68 | after stopping at definition k, every earlier definition is registered once and it and every later one not at all |
| CronPkg.StartRegistrationCounts | cron/cron.go:47-75 | the error is nil exactly when nothing is refused; each job is registered once, or once if before the refused one and never otherwise; launched once exactly in development |
| CronPkg.DevelopmentKeepsTableIntervals | cron/cron.go:49-50 | in development the calendar job is registered with "0 0 0 * * *", not "@every 1m" |
| CronPkg.IntendedInterval | cron/cron.go:47-50 | "@every 1m" in development, the table's interval otherwise |
| CronPkg.IntendedRegistrations | cron/cron.go:47-70 | the intended registrations: one per job in order, all "@every 1m" in development, the table's own otherwise |
| DynDnsCommon.SettingValues | dyndns.go:37-40 | the four settings, in the fixed order |
| DynDnsCommon.UnsetKeepsOrder | dyndns.go:60-72 | the unset list is a subsequence of the names |
| DynDnsCommon.UnsetMembers | dyndns.go:60-72 | a name is listed exactly when some position holds it with an empty value |
| DynDnsCommon.UnsetExactlyEmpty | dyndns/dyndns.go:43-55 | a setting's name is listed exactly when its value is empty, and the list keeps the fixed order |
| DynDnsCommon.UnsetAt | dyndns.go:60-72 | the setting at each of the four positions is listed exactly when its value is empty |
| DynDnsCommon.UnsetSettings | dyndns.go:60-72 | the four appends build exactly the unset list |
| DynDnsCommon.ConfigErrorNamesEach | dyndns.go:73-78 | the configuration error names every empty setting |
| DynDnsCommon.ParseIP | dyndns.go:115 | the empty string parses to a nil address |
| DynDnsMain.NewestRow | dyndns.go:25-33 | a database error is reported whatever the table holds; "no rows" exactly when the table is empty; otherwise the last inserted address |
| DynDnsMain.IpAddresses.constructor | dyndns.go:18-33 | the table starts empty |
| DynDnsMain.IpAddresses.SelectNewest | dyndns.go:108-110 | the select-and-scan gives the newest row as specified |
| DynDnsMain.IpAddresses.Insert | dyndns.go:138-140 | a successful insert appends the address; a failed one changes nothing and returns its error |
| DynDnsMain.UpdateError | dyndns.go:145-151 | the error of a refused update starts by naming the domain |
| DynDnsMain.Load | dyndns.go:107-117 | a cached address is used as it is; the table is read only when the cache is nil, and then the newest row is parsed; only a database error fails, and an empty table gives nil |
| DynDnsMain.Record | dyndns.go:137-157 | a successful insert stores and caches the address and returns the given result; a failed insert keeps the cache and the table |
| DynDnsMain.DynDnsOutcome | dyndns.go:46-162 | a call either leaves the table alone or appends exactly the address it then caches |
| DynDnsMain.Updater.constructor | dyndns.go:42 | the cache starts nil |
| DynDnsMain.Updater.RunDynDns | dyndns.go:46-162 | the error, the new cache and the new table are those of `DynDnsOutcome` on the old cache and table |
| DynDnsMain.DevelopmentSkips | dyndns.go:55-58 | in development: nil, with cache and table unchanged |
| DynDnsMain.MissingSettingsReported | dyndns.go:60-78 | with a setting empty, the error lists the empty settings, names each of them, and nothing else changes |
| DynDnsMain.UnchangedAddressSkips | dyndns.go:119-122 | an address equal to the known one gives nil, inserts nothing and caches the loaded address |
| DynDnsMain.UpdateAnswers | dyndns.go:136-161 | success inserts, caches and returns nil; NoChange inserts and caches but returns "server says IP is unchanged"; another error names the domain, keeps the table and caches the loaded address; a failed insert keeps the table and caches the loaded address |
| DynDnsMain.SecondRunSkips | dyndns.go:107-122 | after a successful update to the looked-up address, the same lookup sends nothing to the server |
| DynDnsPkg.UpdateError | dyndns/dyndns.go:113-121 | the error of a refused update names the user, the server and the domain |
| DynDnsPkg.RunOutcome | dyndns/dyndns.go:29-128 | the cache is kept or becomes the address of a success or NoChange answer |
| DynDnsPkg.Updater.constructor | dyndns/dyndns.go:24-26 | the cache starts nil |
| DynDnsPkg.Updater.Run | dyndns/dyndns.go:29-128 | the error and the new cache are those of `RunOutcome` on the old cache |
| DynDnsPkg.DevelopmentSkips | dyndns/dyndns.go:38-41 | in development: nil and the cache unchanged |
| DynDnsPkg.MissingSettingsReported | dyndns/dyndns.go:43-61 | with a setting empty, the error lists the empty settings, names each, and the cache is kept |
| DynDnsPkg.UnchangedAddressSkips | dyndns/dyndns.go:90-94 | an address equal to the cached one gives nil, whatever the server would answer |
| DynDnsPkg.UpdateAnswers | dyndns/dyndns.go:108-127 | success caches the address and returns nil; NoChange caches it and returns the error; another error keeps the cache and names user, server and domain |
| DynDnsPkg.FirstRunReachesServer | dyndns/dyndns.go:24-26 | a fresh process always asks the server for a lookup other than "<nil>" |
| DynDnsPkg.SecondRunSkips | dyndns/dyndns.go:90-94 | after a successful update to the looked-up address, the same lookup is skipped |
| PottyServer.Token | pottytrainer/server.go:40-45 | the token is empty exactly when the header, less one "Bearer ", is empty and so is the query parameter |
| PottyServer.BearerHeaderWins | pottytrainer/server.go:41-45 | "Bearer x" gives x, whatever the query parameter |
| PottyServer.PlainHeaderVerbatim | pottytrainer/server.go:41-42 | a non-empty header without the prefix is the token as it is |
| PottyServer.EmptyHeaderFallsBack | pottytrainer/server.go:43-45 | an empty header, or exactly "Bearer ", falls back to the query parameter |
| PottyServer.OnePrefixRemoved | pottytrainer/server.go:42 | only one prefix is removed: "Bearer Bearer x" gives "Bearer x" |
| PottyServer.Error | pottytrainer/server.go:47-55 | an answer with the given status, a body that starts with the message, and no calls |
| PottyServer.Handle | pottytrainer/server.go:75-104 | eat answers "yum"; a poop body that does not decode gets 400; one that decodes calls `LogPoop` once with the user's id, and gets 200 exactly when it succeeds, otherwise 500 with its error |
| PottyServer.Gate | pottytrainer/server.go:36-67 | the gate always answers |
| PottyServer.MissingTokenRejected | pottytrainer/server.go:46-57 | without a token: 401 with the fixed message, nothing called |
| PottyServer.TokenLookupDecides | pottytrainer/server.go:59-65 | a refused token gets 401 with the lookup's error and nothing is called; a resolved one calls the handler first and exactly once, with that user, and the reply is the handler's own status and body |
| PottyServer.PoopDecodeGate | pottytrainer/server.go:95-101 | a body that does not decode gets 400 without `LogPoop`; one that decodes is logged under the user |
| PottyServer.Longest | pottytrainer/server.go:30 | the mux's choice: a registered pattern that matches, no matching pattern is longer, and none only when nothing matches |
| PottyServer.NotFound | pottytrainer/server.go:30 | an unmatched path gets 404 and calls nothing |
| PottyServer.Serve | pottytrainer/server.go:26-30 | a path no pattern matches gets 404; a request handed to other code goes only to a handler whose pattern matches the path |
| PottyServer.ServeMux.constructor | pottytrainer/server.go:26 | a new mux holds no patterns |
| PottyServer.ServeMux.Handle | pottytrainer/server.go:27-30 | a registration appends its pattern and handler |
| PottyServer.Run | pottytrainer/server.go:15-32 | a failed DynamoDB client is reported and mounts nothing; otherwise exactly `/api/v1/` is mounted, stripping "/api/v1" in front of the mux of `/eat` and `/poop` |
| PottyServer.ApiRoutesReachHandlers | pottytrainer/server.go:26-30 | after `Run`, /api/v1/eat and /api/v1/poop reach the gated eat and poop handlers with "/api/v1" stripped |
| IworkoutState.FetchedUser | coldbrewcrew/iworkout/discord.go:72-86 | a cached user is returned as it is; on a miss the API's user is cached under the ID and returned, and an API error gives the zero user with the cache unchanged |
| IworkoutState.CachedUserIgnoresApi | coldbrewcrew/iworkout/discord.go:73-75 | a cached user is served whatever the API would say, and nothing changes |
| IworkoutState.FetchUserTwice | coldbrewcrew/iworkout/discord.go:72-86 | a second fetch returns the same user and changes nothing |
| IworkoutState.FetchedMessage | coldbrewcrew/iworkout/discord.go:89-106 | a cached message is returned as it is; on a miss the API's message is stored under its channel (whose map is created on the first insert) and returned, and an API error gives the zero message with nothing stored |
| IworkoutState.CachedMessageIgnoresApi | coldbrewcrew/iworkout/discord.go:90-92 | a cached message is served whatever the API would say |
| IworkoutState.FetchMessageTwice | coldbrewcrew/iworkout/discord.go:89-106 | a second fetch returns the same message and changes nothing |
| IworkoutState.ReactionAdded | coldbrewcrew/iworkout/discord.go:48-59 | the user joins the message's reactor set, which becomes exactly {user} if absent; no other message's set changes; the user and message caches are those the two fetches leave |
| IworkoutState.ReactionRemoved | coldbrewcrew/iworkout/discord.go:62-69 | the user leaves the message's reactor set; no entry is created and no other set changes; the user and message caches are those the two fetches leave |
| IworkoutState.ReactionAddIdempotent | coldbrewcrew/iworkout/discord.go:56 | adding the same reaction twice leaves the state of one add |
| IworkoutState.AddThenRemove | coldbrewcrew/iworkout/discord.go:48-69 | add then remove leaves the message's set as before, less the user |
| IworkoutState.FailedFetchesUseZeroIds | coldbrewcrew/iworkout/discord.go:49-56 | with both fetches failing, the reaction is recorded under the empty message and user IDs |
| IworkoutState.Bot.constructor | coldbrewcrew/iworkout/reaction.go:4 | the maps start empty |
| IworkoutState.Bot.FetchUser | coldbrewcrew/iworkout/discord.go:72-86 | result and cache as `FetchedUser` of the old cache; the other maps unchanged |
| IworkoutState.Bot.FetchMessage | coldbrewcrew/iworkout/discord.go:89-106 | result and cache as `FetchedMessage` of the old cache; the other maps unchanged |
| IworkoutState.Bot.HandleReactionAdd | coldbrewcrew/iworkout/discord.go:48-59 | the new maps are `ReactionAdded` of the old ones |
| IworkoutState.Bot.HandleReactionRemove | coldbrewcrew/iworkout/discord.go:62-69 | the new maps are `ReactionRemoved` of the old ones |
| IworkoutCatalogue.Stored | coldbrewcrew/iworkout/discord.go:126-131 | the message is stored under its channel and ID and its author under the author's ID; every other entry is kept and no other channel, message or user appears; reactions untouched |
| IworkoutCatalogue.StoredPage | coldbrewcrew/iworkout/discord.go:125-131 | storing a page never touches the reactions |
| IworkoutCatalogue.StoredPageHolds | coldbrewcrew/iworkout/discord.go:125-131 | nothing is lost; every message and author of the page is stored, the last of the page with a given key winning |
| IworkoutCatalogue.StoredPageHoldsMessages | coldbrewcrew/iworkout/discord.go:125-130 | the messages half: no stored message is lost, and each message of the page is stored, the last with its channel and ID winning |
| IworkoutCatalogue.StoredPageHoldsAuthors | coldbrewcrew/iworkout/discord.go:125-131 | the authors half: no cached user is lost, and each author of the page is cached, the last with its ID winning |
| IworkoutCatalogue.Step | coldbrewcrew/iworkout/discord.go:133-155 | earliest and latest each stay or become the message |
| IworkoutCatalogue.Track | coldbrewcrew/iworkout/discord.go:125-156 | after a page, earliest and latest are each the one before the page or a message of the page |
| IworkoutCatalogue.LatestIsNotNewest | coldbrewcrew/iworkout/discord.go:153-155 | as written, messages posted at 10, 20, 15 leave the one at 15 as latest |
| IworkoutCatalogue.StepIntended | coldbrewcrew/iworkout/discord.go:133-155 | the intended step keeps the same shape |
| IworkoutCatalogue.TrackIntendedFindsBounds | coldbrewcrew/iworkout/discord.go:133-155 | with the intended step, a page ends with its earliest and its latest message |
| IworkoutCatalogue.EarliestUnaffected | coldbrewcrew/iworkout/discord.go:145-152 | the as-written and intended loops agree on the earliest message, so the paging is the same |
| IworkoutCatalogue.AddReactors | coldbrewcrew/iworkout/discord.go:176-181 | every returned user joins the message's set; nothing is dropped and nothing else added |
| IworkoutCatalogue.RecordMessage | coldbrewcrew/iworkout/discord.go:169-183 | every reactor with any of the message's emoji is recorded; nothing else is added |
| IworkoutCatalogue.RecordChannel | coldbrewcrew/iworkout/discord.go:168-184 | every reactor to every message of the channel is recorded, in any map order |
| IworkoutCatalogue.BuildReactionsState | coldbrewcrew/iworkout/discord.go:163-188 | afterwards a user is recorded for a message ID exactly when it was before or the API names it as a reactor to a stored message with that ID; no entry is dropped |
| IworkoutCatalogue.StoreMessage | coldbrewcrew/iworkout/discord.go:126-131 | the maps become `Stored` of the old ones |
| IworkoutCatalogue.CataloguePage | coldbrewcrew/iworkout/discord.go:125-156 | the maps become `StoredPage` of the old ones and earliest/latest are tracked as written |
| IworkoutCatalogue.EmptyPageStops | coldbrewcrew/iworkout/discord.go:120-123 | the first empty page ends the catalogue with nothing stored |
| IworkoutCatalogue.Catalogued | coldbrewcrew/iworkout/discord.go:113-158 | paging never touches the reactions, and an empty first page changes nothing |
| IworkoutCatalogue.CatalogueMessages | coldbrewcrew/iworkout/discord.go:113-158 | the loop leaves the maps exactly as `Catalogued` of the old maps, starting from no earliest or latest message |
| IworkoutCatalogue.CataloguedKeeps | coldbrewcrew/iworkout/discord.go:113-158 | paging never touches reactions and never loses a stored message or user |
| IworkoutCatalogue.BuildMessagesState | coldbrewcrew/iworkout/discord.go:108-161 | messages and users are the catalogue's; then reactions as in `BuildReactionsState` |
| Base64.Digit | credentials.go:399 | no alphabet character is the padding character |
| Base64.DigitRoundTrip | credentials.go:399 | every 6-bit value's character is in the alphabet and reads back as the value |
| Base64.Encode | credentials.go:399 | the text is four characters per started group of three bytes |
| Base64.EncodeAlphabet | credentials.go:399 | every character is in the alphabet, except "=" in the last two places |
| Base64.QuantumRoundTrip | credentials.go:399 | the four sextets of three bytes recombine into those bytes |
| Base64.DecodeEncode | credentials.go:399 | decoding the encoding gives back the bytes |
| Base64.StateLength | credentials.go:395-399 | 1024 bytes give 1368 characters |
| OAuthState.ReadFull | credentials.go:396-398 | success exactly when the reader has 1024 bytes, and then exactly the first 1024 |
| OAuthState.Generate | credentials.go:394-414 | fails exactly when the read comes short or the insert fails, with "" and no row; otherwise one row with the returned state is appended |
| OAuthState.GeneratedStateIsEncoding | credentials.go:395-414 | the returned state is the 1368-character Base64 text of the random bytes, decodes back to them, and is the stored row's state |
| OAuthState.FirstWithState | credentials.go:417-429 | the first row holding the state, none exactly when no row does |
| OAuthState.WithoutId | credentials.go:436-445 | no row with the id remains; every other row does; no row is invented |
| OAuthState.Consume | credentials.go:416-457 | no row is ever added; a nil result means the row found was removed |
| OAuthState.ConsumeSucceedsExactly | credentials.go:416-457 | nil exactly when the state was found with a non-zero id, deleted, its time parsed and at most five minutes old; a failed select, a row with id 0 ("state not found") or a failed delete is an error and leaves the table as it was |
| OAuthState.DeletedBeforeExpiryCheck | credentials.go:436-454 | a found row is gone even when its time does not parse or it has expired |
| OAuthState.ExpiryBoundary | credentials.go:452-454 | exactly five minutes is accepted; one second more is expired |
| OAuthState.SecondConsumeFails | credentials.go:436-445 | a state held by one row is single use: a second consume fails and deletes nothing |
| OAuthState.StateTable.constructor | credentials.go:402-410 | the table starts empty |
| OAuthState.StateTable.Select | credentials.go:417-426 | the scan finds the first row holding the state |
| OAuthState.StateTable.Delete | credentials.go:436-442 | the rows become `WithoutId` of the old rows |
| OAuthState.StateTable.GenerateState | credentials.go:394-414 | state, error and table are those of `Generate` on the old table |
| OAuthState.StateTable.ConsumeState | credentials.go:416-457 | error and table are those of `Consume` on the old table |
| OAuthState.StateTable.Authorize | credentials.go:63-85 | 500 when no state could be made; otherwise a redirect carrying the new state |
| OAuthState.StateTable.LoginCallback | credentials.go:87-104 | the state is consumed and the code exchanged before the method check, so a non-GET callback burns a good state and gets 405 |
| OAuthState.StateTable.RegisterCallback | credentials.go:158-175 | a non-GET callback gets 405 and leaves the table untouched; otherwise the state is consumed first |

## Left out

- Concurrency. Goroutine launches and the dispatcher's background loop are not modelled: launches and registrations are recorded in program order as events, and a job's run is given as its result.
- Concurrency in the #iworkout bot. discordgo runs `handleReactionAdd` and `handleReactionRemove` on goroutines of their own (coldbrewcrew/iworkout/discord.go:34-35), `buildMessagesState` runs as a goroutine (discord.go:44), and the web handlers read the same maps. None of them takes a lock. The model runs the handlers, the catalogue and the reads as a sequence of whole operations, so interleaved, unlocked map access (and Go's fatal concurrent map write) is not modelled.
- Jobs.ImmediateEffect, Jobs.RecurringEffect: stated per run. The start-up traces record which runs are launched or registered, not what each run leads to once it finishes.
- Closure capture. Before Go 1.22 every callback registered at cron/cron.go:62-66 sees the last table entry. The model binds each registration to its own entry.
- Cron expressions. They are opaque strings: their parsing is an input, the dispatcher's refusal. The one exception is `never`, whose day-of-month and month fields are checked against the calendar.
- Logging. Log lines are left out, except the failure lines of the jobs.
- Network, SQL and SDK calls. Each becomes an input value:
  - the ip-api.com lookup, the UDP dial and the dyndns client;
  - the `ip_addresses` and `google_oauth_states` statements;
  - DynamoDB `UserFromToken` and `LogPoop`;
  - the Discord gateway and REST calls;
  - the Google code exchange.
- JSON decoding. The ip-api.com body and the /poop body are given already decoded. An ip-api.com body that does not decode gives an empty query, as Go's ignored `json.Unmarshal` error does.
- `LogPoop`'s own body (pottytrainer/db.go:11-20). It always returns nil, but the model treats its error as an input, so the 500 branch of `poopHandler` is modelled as written.
- The eat handler's `w.Write` failure (pottytrainer/server.go:79-82). A failed write to the client is I/O.
- ServeMux path cleaning and redirects. Host patterns, the redirect from `/api/v1` to `/api/v1/`, and the panic on a duplicate pattern are not modelled. `ServeMux.Handle` requires the pattern to be new instead.
- `apiMux`. Go's `http.StripPrefix` holds the `*ServeMux` pointer (pottytrainer/server.go:26-30), so a later registration on it would be seen. The model mounts a snapshot of its two routes, which matches Go only because nothing registers on `apiMux` after that point.
- IworkoutCatalogue.BuildMessagesState: pages through at most `fuel` pages. The unbounded loop of discord.go:113-158 is only modelled up to that bound, and the 600 ms sleeps are left out.
- Wall-clock time. `time.Since`, `time.Parse` and Discord timestamps are integer seconds. `time.Parse` is an input function, and an unparsable Discord timestamp counts as the zero time.
- Database-generated values. `created_at` is given on insert. The serial id advances only on a successful insert.
- The Google flow past the user-info lookup (credentials.go:113-156, 176-335) and `tokenForUser` (credentials.go:344-392). These are SQL plumbing.
- Start-up wiring. Reading the environment variables, and the Discord `init`, are given as inputs or left out.

## Findings

| source | as written | input that shows it | evidently intended | confidence | as-written member | corrected member |
|---|---|---|---|---|---|---|
| cron/cron.go:49-50 | `cronDef.interval = minutely` assigns to the range loop's copy, so `funcs` keeps its production intervals and development registers them | version "development", every schedule accepted: calendar is registered with "0 0 0 * * *" | development registers every job with "@every 1m", as the log line at cron/cron.go:48 announces | high; not executed | CronPkg.DevelopmentKeepsTableIntervals | CronPkg.IntendedRegistrations |
| coldbrewcrew/iworkout/discord.go:153-155 | `latest` is replaced when a message is after the EARLIEST message's time | a page posted at 10, 20, 15 leaves the message at 15 as latest | replace `latest` when a message is after the latest message's time | low (Discord pages come newest first, and in that order the result is right); not executed | IworkoutCatalogue.LatestIsNotNewest | IworkoutCatalogue.TrackIntendedFindsBounds |

The earliest message, which drives the paging, is the same under both versions (`IworkoutCatalogue.EarliestUnaffected`). So the catalogue loop keeps the code's own step, and the correction only changes the latest message, which is used for nothing but the closing log line.
