# Verified models of Timothy's core

Timothy is a self-hosted assistant: a `brain` process, sandboxed mission containers, MCP servers
behind a bridge, and a secret store over Postgres, Vault and AWS Secrets Manager. This project models
the parts of it whose correctness depends on order, interleaving or exact text, and proves what they
promise. `dafny verify dfyconfig.toml` checks everything.

Protocols are transition systems: an event is one section of code between two points where something
else can happen, `Next` is what it does, and a theorem about a run quantifies over every sequence of
possible events. Next to each transition system stands the code in its own form, a class or a method
with loops, proved to do exactly what the transition function says. Values come as functions and
lemmas, as in the source.

| file | component |
|---|---|
| McpBridge, McpDelivery | many HTTP clients on one stdio MCP session: semaphore, ids, pending map, cached handshake, hostile server; what is delivered and written |
| SecretStore | the secret store: rows, two external stores, a cached AWS client, and every operation as steps; reseals are invisible |
| SecretMoves, SecretFinishes, SecretRaces | what Set, Migrate and Delete do to every answer, stopped anywhere; what they leave when all works; operations and reads that meet |
| SecretTable, SecretBackends | the store as an object over its table; backend settings and the default flag |
| Sandbox, SandboxOutcomes, SpecHash, ExecLoop, Paths | containers of several instances on one daemon, and what its operations end with; the service fingerprint text; the exec wait loop; path scoping |
| Jwt, Base64 | session tokens, and the base64url they are written in |
| HtmlChrome, HtmlWalk, HtmlPage | chrome stripping on trees, the same on linked nodes in place, and the whole page |
| Interpolate, Utf8 | template filling and the cut at a rune boundary |
| HookLimiter, Wilson, Agents | webhook token bucket; score intervals and verdicts; the agent table and its cache |
| Strings, Options | splitting, joining and trimming text; an option type |

What the model takes from outside is a parameter: whether a call to a daemon, database or external
store works, a nonce, a clock reading, the order a database returns rows, and the primitives (AEAD,
Ed25519, HMAC, JSON, square root, hash, and what an external id names), for which only the stated laws
are assumed. Text that the source handles as bytes is one `char` per byte.

## What is proved, and where the code falls short

- No answer of an MCP server is lost: in every reachable state a waiting call's answer can still reach it
  (`AnswerCanCome`), what the server sends under its id ends it (`ReplyArrives`), and nothing in between can
  take that away (`AnswerIsKept`).
- `DeleteFinishes`, `SetFinishes` and `MigrateFinishes` say exactly when an operation whose calls all work
  succeeds, and what table and external systems then hold.
- A container that ensureContainer returns is running under the mission's name at that moment, in every
  interleaving (`ReturnedIsRunning`); `RemovedOrNotMine` and `ServiceWasMade` say the like of the other two.
- Every exit code but 124 comes back as it is (`ExitCodeComesBack`).
- A reseal never changes an answer and never undoes a write, for every interleaving, restarts and
  configuration changes included (`RunRefines`).
- Migrate alone, stopped anywhere, keeps every value if and only if every other row survives the object
  it overwrites and the one it wipes (`MigrateIsCrashSafe`); the failing rows are those an operator
  pointed, by name, path or ARN, at another ref's object. The operations make no such pointers
  (`RunKeepsTidy`).
- Migrate next to a Set of the same ref is not safe. `MigrateMeetsSet` gives the final answer for every
  start and every interleaving of the two that both succeed, and exactly when it is the Set's value: unless
  the Set overwrote vault's own login, was overtaken between the Migrate's read and its flip, or was wiped
  between the flip and the wipe. `StaleCopyWins` and `LateWipeLosesSet` run the two failures from the start.
- A successful `Set` is what `Resolve` answers except when vault is the default and the ref is vault's
  own login (`SetThenResolve`); for AWS's own key the same happens as soon as the cached client has to
  be built again (`SetThenRestart`). Both are if-and-only-ifs.
- Set does not refuse the refs a backend logs in with. Through an external default it turns such a row into
  a pointer, which the login then refuses to read: every secret kept in that backend stops resolving. That is
  vault's token or secret_id under a vault or AWS default, and AWS's key under a vault default while no client
  is cached; no other login is lost (`SetLocksOut`, an if-and-only-if). Through built-in storage the backend is
  logged in to with the new value. `SetTakesExactly` gives every ref's answer after a Set, and
  `SetLeavesOthers` says exactly which rows a Set, stopped anywhere, leaves alone.
- A Resolve of an external secret is two reads. It answers from one moment of its call unless the row had
  left the pointer it holds and one of the listed events changed the object or the login under it
  (`ResolveIsCurrent`).
- The composite token's comment promises more than the key pair gives: a pair with a quantum key still
  accepts classical tokens (`UnissuedIsAccepted`), so with the tag alone to rely on every accepted token
  was issued if and only if no signature at hand passes for an unissued classical token
  (`TagAloneExactly`). For composite tokens either primitive is enough (`AcceptedWasIssued`).
- A query for the agents that breaks off is cached as it is: the snapshot reflects the table if and only
  if every row arrived (`GatheredReflectsExactly`, `BrokenReadIsCached`).
- Stripping a page twice can differ from stripping it once: a `main` inside an `article` keeps its
  `header` the first time only. `PageTwice` says exactly when a second run changes nothing;
  `HeadersGoTheSecondTime` is the failing family. The walk alone is idempotent (`StripTwice`).
- A real read error that is already waiting when the stream is forced shut is dropped with the forced
  one; `ReturnsExactly` describes this as the code has it. A command that itself exits with 124 is
  reported as timed out.
- `initialize` is settled by the first response with a result and no error; `notifications/initialized`
  is written at most once, since it is marked before it is written.
- EnsureService's closing look is by name: it reports on whatever container has the name by then, while
  the one it made or kept is of the right spec (`KeptOnlyForEqualText`).

## Model

| member | source | states |
|---|---|---|
| `McpBridge.OneInFlight` | internal/mcpbridge/bridge.go:261-313 | in every reachable state one client request at most holds the session, `pending` holds at most its id, each channel gets at most one message, and the reader can always finish the delivery it began |
| `McpBridge.ResponseIsOwn` | internal/mcpbridge/bridge.go:120-145 | a call answers only with a message the reader routed as a response under that call's own id after it registered; no other call has that id or that message |
| `McpBridge.LateResponsesAreDropped` | internal/mcpbridge/bridge.go:130-145 | a call past its wait keeps its outcome through every run, whatever the reader is delivering, and its channel gets one message in all; once its id is forgotten and nothing is on its way, a response under it changes nothing |
| `McpBridge.InitializeSettles` | internal/mcpbridge/bridge.go:258-325 | after a successful handshake no `initialize` request is ever written again, and every later or still queued one gets that same result |
| `McpBridge.CachedIsGenuine` | internal/mcpbridge/bridge.go:301-325 | whatever is replayed, it is to an `initialize`, and is a result the server sent with no error |
| `McpBridge.InitializedForwardedAtMostOnce` | internal/mcpbridge/bridge.go:229-256 | over every run `notifications/initialized` is written at most once |
| `McpBridge.NextKeepsInv` | internal/mcpbridge/bridge.go:92-145 | every event of any goroutine, the reader or the server keeps the invariant behind all of these |
| `McpBridge.RunKeepsInv` | internal/mcpbridge/bridge.go:233-313 | so does every run |
| `McpBridge.Bridge.constructor` | internal/mcpbridge/bridge.go:69-81 | a new bridge is the empty start state |
| `McpBridge.Bridge.Dispatch` | internal/mcpbridge/bridge.go:120-145 | routing one server message on the object's own fields is the specified routing, which `ReplyArrives` and `EveryRequestIsAnswered` prove to deliver and to answer |
| `McpBridge.Bridge.Advance` | internal/mcpbridge/bridge.go:261-313 | each section of a call, updating the shared fields, is its specified step, or is refused with nothing changed |
| `McpBridge.Bridge.Forward` | internal/mcpbridge/bridge.go:233-256 | so is each section of a notification: the mark, the look at the close, the write |
| `McpBridge.Bridge.Serve` | internal/mcpbridge/bridge.go:92-145 | any schedule drives the object through a run of the machine and stops only at an event that cannot happen, so every theorem holds of the object |
| `McpDelivery.AnswerCanCome` | internal/mcpbridge/bridge.go:283-313 | in every reachable state a call that is registered or waiting has its id in `pending`, or the reader is delivering to it, or its answer is in its channel |
| `McpDelivery.ReplyArrives` | internal/mcpbridge/bridge.go:132-145 | from every reachable state in which the reader can read, what the server sends under a waiting call's id goes through the reader and the channel and ends that call with that very message, and the session comes free |
| `McpDelivery.AnswerIsKept` | internal/mcpbridge/bridge.go:137-143 | once the reader has a waiting call's answer no order of events loses it or puts another in its place: the call has it, or was given up |
| `McpDelivery.AskedExactlyOnce` | internal/mcpbridge/bridge.go:277-297 | over every run a call that waits, or was answered by the server, has written its request under its own id exactly once |
| `McpDelivery.RequestGoesOut` | internal/mcpbridge/bridge.go:265-297 | a request that finds the session free is registered and written under the next id |
| `McpDelivery.FreeExactly` | internal/mcpbridge/bridge.go:265-272 | over every run the session is taken exactly while some call holds it |
| `McpDelivery.GaveUpForReason` | internal/mcpbridge/bridge.go:265-312 | over every run a call is reported cancelled only if its client went away, and closed only after the server's end |
| `McpDelivery.CanGiveUp` | internal/mcpbridge/bridge.go:265-312 | after the server's end every queued or waiting call can end, and so can one whose client goes away, its id forgotten and the session free |
| `McpDelivery.EndIsSeen` | internal/mcpbridge/bridge.go:107-114 | the end of the server's output is taken note of between any two messages |
| `McpDelivery.ReplayAtOnce` | internal/mcpbridge/bridge.go:262-264 | after a handshake a new `initialize` is answered at once, whoever holds the session, and nothing else is |
| `McpDelivery.NoteIsForwarded` | internal/mcpbridge/bridge.go:233-256 | while the server lives a notification goes out as it is: any but a cancellation, and `notifications/initialized` the first time |
| `McpDelivery.NoneAfterEnd` | internal/mcpbridge/bridge.go:246-250 | once the server's output has ended, over every run, a notification that has not passed its look at the end never goes out |
| `McpDelivery.CancelNeverForwarded` | internal/mcpbridge/bridge.go:235-236 | over every run no cancellation is ever forwarded |
| `McpDelivery.EveryRequestIsAnswered` | internal/mcpbridge/bridge.go:120-131 | over every run the replies written are those the server's requests call for, in order and under their own ids: a result for "ping", an error for the rest |
| `SecretStore.RunRefines` | internal/secretstore/secretstore.go:101-229 | any interleaving of two-step readers, sweeps, Set, Migrate, Delete, configuration changes and restarts gives every reader and operation exactly what the run without reseals gives it on plain values |
| `SecretStore.ResealIsInvisible` | internal/secretstore/secretstore.go:137-159 | a compare-and-swap reseal, whenever it lands, leaves every ref's answer as it was |
| `SecretStore.ResolveSeesPlain` | internal/secretstore/secretstore.go:101-135 | callers cannot tell stored formats apart |
| `SecretStore.UsingIsUnseen` | internal/secretstore/backends.go:646-685 | caching the AWS client that would be built anyway changes no answer at that moment |
| `SecretStore.NextRefines` | internal/secretstore/secretstore.go:122-159 | each event is a plain step or is invisible |
| `SecretStore.SplitPointer` | internal/secretstore/backends.go:687-694 | splitting a stored pointer gives back path and field |
| `SecretMoves.MigrateIsCrashSafe` | internal/secretstore/secretstore.go:434-526 | for every source and target and any failing calls, stopped after any prefix, Migrate keeps every value if and only if every other row survives its copy and its wipe |
| `SecretMoves.MigrateLosesExactly` | internal/secretstore/secretstore.go:471-526 | a whole migration takes the values of exactly the rows that do not survive it |
| `SecretMoves.MigrateEnds` | internal/secretstore/secretstore.go:449-526 | success leaves the row at its target, other rows are untouched, and no login secret leaves db storage |
| `SecretMoves.MigrateIsCrashSafeAmongReaders` | internal/secretstore/secretstore.go:434-526 | the same on sealed rows while readers and sweeps read, log in and reseal around it |
| `SecretMoves.SetThenResolve` | internal/secretstore/secretstore.go:298-372 | a Set that reports success is what Resolve answers, exactly when it did not overwrite vault's own login row with a pointer into vault |
| `SecretMoves.SetThenRestart` | internal/secretstore/backends.go:646-685 | once the AWS client is built anew, whatever was cached before, the answer of every ref, and exactly when the ref that was set answers the new value |
| `SecretMoves.SetLeavesOthers` | internal/secretstore/secretstore.go:302-372 | a Set, stopped anywhere and whichever calls fail, leaves another answer alone if and only if it cannot write, or that row reads the same of the object overwritten and by the login that is left |
| `SecretMoves.SetTakesExactly` | internal/secretstore/secretstore.go:302-327 | after a finished Set every ref, login or not, under every default, answers exactly what the login that is left and the object overwritten let it read |
| `SecretMoves.SetLocksOut` | internal/secretstore/backends.go:429-443 | through an external default a working login is lost exactly if it has to read the row that was set, and then every pointer into its backend fails |
| `SecretMoves.DeleteIsConfined` | internal/secretstore/secretstore.go:528-574 | a Delete touches no other answer but of rows aiming at the copy it takes along, is refused for login refs with nothing changed, and when it succeeds the ref is gone |
| `SecretMoves.ReadAfterWrite` | internal/secretstore/backends.go:471-644 | a write-through is read by exactly the pointers that name its object |
| `SecretMoves.WriteThenRead` | internal/secretstore/backends.go:471-644 | what is written through is read back by the pointer stored for it |
| `SecretMoves.BootstrapCoversLogins` | internal/secretstore/secretstore.go:381-432 | the refused refs cover every row a configured login reads |
| `SecretMoves.RunKeepsTidy` | internal/secretstore/secretstore.go:279-296 | over every run no operation makes one ref's pointer aim at another ref's object, and then every row survives every migration |
| `SecretFinishes.DeleteFinishes` | internal/secretstore/secretstore.go:538-574 | a Delete whose calls all work is refused exactly for login refs, and else takes the row, and from the external system the copy under "timothy/" that the row pointed at, and nothing more |
| `SecretFinishes.DeleteGoesOn` | internal/secretstore/secretstore.go:558-566 | when the external delete fails the row goes all the same |
| `SecretFinishes.SetFinishes` | internal/secretstore/secretstore.go:302-372 | a Set whose calls all work succeeds exactly when the default can keep the value, and then the row and one external object hold it, with every other row and object as it was; else nothing has changed |
| `SecretFinishes.MigrateFinishes` | internal/secretstore/secretstore.go:449-526 | a Migrate whose calls all work succeeds exactly when the secret is there already, or can be read and be kept there; then row and copy say so, the old copy is gone, and all else is as it was |
| `SecretFinishes.DbRowAnswers` | internal/secretstore/secretstore.go:122-135 | a row in the table answers what its bytes open to under its ref, else what they open to in the legacy format |
| `SecretFinishes.LegacyIsResealed` | internal/secretstore/secretstore.go:128-159 | a legacy row that is read and resealed undisturbed is afterwards bound to its ref, with the same value |
| `SecretFinishes.PointerReads` | internal/secretstore/backends.go:471-644 | "path#field" reads that field of the object at that path; without a field vault reads "value" and AWS the whole text |
| `SecretFinishes.VaultLoginExactly` | internal/secretstore/backends.go:405-470 | vault is reached exactly at the configured address and mount, with the stored token or the one an approle login returns, if vault accepts it |
| `SecretFinishes.AsmLoginExactly` | internal/secretstore/backends.go:646-685 | AWS is reached by the cached client, else by one built from the settings, with the stored key if they ask for it |
| `SecretFinishes.NamesStayUnder` | internal/secretstore/secretstore.go:279-296 | a name let through to an external system is a single path segment that leads nowhere else |
| `SecretFinishes.PlainNamesPass` | internal/secretstore/secretstore.go:284-296 | letters, digits, "_", "-" and single dots are let through, up to 128 of them |
| `SecretRaces.MigrateMeetsSet` | internal/secretstore/secretstore.go:302-526 | for every start and every interleaving of one Migrate and one Set of a ref that both succeed, the final answer, and exactly when it is the Set's value |
| `SecretRaces.NothingToMove` | internal/secretstore/secretstore.go:449-470 | with no row yet, or the secret at the target already, what the Set leaves stands in every interleaving |
| `SecretRaces.StaleCopyWins` | internal/secretstore/secretstore.go:472-493 | the run, from the two operations' start, in which a Set between the Migrate's read and its write home succeeds and is overtaken by the old value |
| `SecretRaces.LateWipeLosesSet` | internal/secretstore/secretstore.go:511-526 | the run, from the start, in which a Set back onto the old home between flip and wipe succeeds, reads well, and is lost to the wipe |
| `SecretRaces.ResolveIsCurrent` | internal/secretstore/secretstore.go:101-116 | a Resolve answers from one moment of its call, unless the row had left its pointer and a named event changed what it reads |
| `SecretRaces.OnlyTheseUnsettle` | internal/secretstore/backends.go:405-685 | nothing else changes what a pointer reads: writing or wiping its object, a login's row, new settings, a dropped client |
| `SecretTable.Store.Resolve` | internal/secretstore/secretstore.go:101-116 | undisturbed, the method answers as specified, upgrading what it read and keeping the client it built |
| `SecretTable.Store.OpenRow` | internal/secretstore/secretstore.go:122-135 | a row still as it was read is afterwards bound to its ref |
| `SecretTable.Store.ResealDB` | internal/secretstore/secretstore.go:142-159 | the rewrite is the compare-and-swap, and no plain value changes |
| `SecretTable.Store.AsmClient` | internal/secretstore/backends.go:646-685 | the client is built once, from the settings and key of that moment, and kept |
| `SecretTable.Store.ResealLegacy` | internal/secretstore/secretstore.go:161-229 | after the sweep every db row that opens at all opens bound to its ref; other rows are untouched; the count is the number of legacy rows |
| `SecretTable.Store.Set` | internal/secretstore/secretstore.go:302-372 | the method is the specified run of Set, which `SetFinishes` gives in full for every outcome of its calls, cached client included |
| `SecretTable.Store.Migrate` | internal/secretstore/secretstore.go:449-526 | likewise Migrate (`MigrateFinishes`) |
| `SecretTable.Store.Delete` | internal/secretstore/secretstore.go:538-574 | likewise Delete, external copy included (`DeleteFinishes`) |
| `SecretBackends.EveryHistoryIsSound` | internal/secretstore/backends.go:105-285 | over every history of configuring, unconfiguring and switching: one default at most, built-in or configured, and never lost once set; settings normalized; logins among the refused refs |
| `SecretBackends.SetThenResolveUnderAnyDefault` | internal/secretstore/secretstore.go:302-327 | under every default such a history reaches, Set then Resolve gives the value exactly unless the ref is the vault default's own login, and every ref answers as `SetTakesExactly` says |
| `SecretBackends.NormalizeSettles` | internal/secretstore/backends.go:340-403 | normalizing stored settings again changes nothing |
| `SecretBackends.VaultStoredAsGiven` | internal/secretstore/backends.go:340-376 | which of vault's settings are taken; every given field is stored as given, and mount, login method and login ref are filled in by their defaults |
| `SecretBackends.AsmStoredAsGiven` | internal/secretstore/backends.go:377-399 | likewise AWS's |
| `SecretBackends.ChangeReachesItsOwn` | internal/secretstore/backends.go:105-285 | over a sound table configuring or unconfiguring a backend changes its own settings alone, unconfiguring the default hands the flag to built-in storage, and moving the flag changes no settings |
| `SecretBackends.Backends.SetBackendConfig` | internal/secretstore/backends.go:109-135 | the table afterwards is the specified one; refused settings change nothing; AWS's settings drop the cached client |
| `SecretBackends.Backends.DeleteBackendConfig` | internal/secretstore/backends.go:142-175 | likewise, and some row still carries the flag |
| `SecretBackends.Backends.SetDefaultBackend` | internal/secretstore/backends.go:247-285 | likewise; on success the named backend is the default |
| `SecretBackends.Backends.DefaultBackend` | internal/secretstore/backends.go:227-242 | whichever flagged row comes back, it is the one default |
| `SecretBackends.Backends.List` | internal/secretstore/backends.go:188-223 | the listing names that same single default, and exactly the configured backends |
| `Sandbox.OwnersNeverCross` | internal/sandboxd/docker.go:320-329 | over all interleavings, ids ensureContainer returns carry this instance's label or none, Remove deletes only exact matches, and no instance acts on a container another created |
| `Sandbox.KeptOnlyForEqualText` | internal/sandboxd/services.go:158-199 | without hash collisions EnsureService succeeds on a container made from its own text, or one it keeps that no instance made from another |
| `Sandbox.NextKeepsInv` | internal/sandboxd/docker.go:509-559 | every daemon call of every instance and every outside move keeps labels, names and what operations know |
| `Sandbox.RunKeepsInv` | internal/sandboxd/docker.go:857-879 | so does every run |
| `Sandbox.DrivenIsARun` | internal/sandboxd/docker.go:509-559 | one operation driven to its end among others' moves is a run of the shared machine |
| `Sandbox.DrivenIsOwned` | internal/sandboxd/docker.go:848-879 | so what it returns or deletes is this instance's, whatever the others did between its calls |
| `SandboxOutcomes.ReturnedIsRunning` | internal/sandboxd/docker.go:519-559 | over all interleavings, when ensureContainer returns an id that container is live, has the mission's name and is running; it ran when it was inspected, or this call has just started it |
| `SandboxOutcomes.EnsureAlone` | internal/sandboxd/docker.go:519-559 | undisturbed it ends with a running container of that name, of this instance's label or none, started exactly if it was new or stopped; another instance's is refused and left alone; no other container changes |
| `SandboxOutcomes.EnsureCreates` | internal/sandboxd/docker.go:561-697 | a new container has this instance's label, was created and then started |
| `SandboxOutcomes.EnsurePulls` | internal/sandboxd/docker.go:672-697 | a missing image is pulled and the container then made |
| `SandboxOutcomes.EnsureLooksAgain` | internal/sandboxd/docker.go:535-555 | a create that finds the name taken uses what is there by then, under the same rules |
| `SandboxOutcomes.RemovedOrNotMine` | internal/sandboxd/docker.go:857-879 | over all interleavings Remove reports success exactly when its call worked, and then there was no container of that name, or one of another owner, or the one it inspected is gone |
| `SandboxOutcomes.RemoveAlone` | internal/sandboxd/docker.go:857-879 | undisturbed it takes away exactly the container of that name with this instance's label, and reports success |
| `SandboxOutcomes.ServiceWasMade` | internal/sandboxd/services.go:201-271 | over all interleavings a service that was made was created, connected to the internet if and only if its spec asks for that, and started |
| `SandboxOutcomes.KeptIsRunning` | internal/sandboxd/services.go:172-182 | a service that is kept was running, with that fingerprint and no other owner, and nothing is done to it |
| `SandboxOutcomes.ServiceAppears` | internal/sandboxd/services.go:161-199 | undisturbed a service that is not there is made: running, labelled with owner and fingerprint, connected exactly if asked |
| `SandboxOutcomes.ServiceIsRight` | internal/sandboxd/services.go:161-199 | undisturbed one that is there is refused as another's, kept if it runs as this spec, or replaced by a new one |
| `SandboxOutcomes.FailedServiceIsGone` | internal/sandboxd/services.go:260-271 | a service that cannot be connected or started leaves the containers as they were |
| `SandboxOutcomes.FailureShows` | internal/sandboxd/docker.go:509-559 | a call that fails changes nothing and fails its operation; but a missing image is pulled, a conflict looked at again, and a service that was made taken away |
| `SandboxOutcomes.EveryOperationEnds` | internal/sandboxd/docker.go:509-559 | whatever the daemon answers and the others do, the three operations are over after seven, two and eight calls |
| `Sandbox.Docker.EnsureContainer` | internal/sandboxd/docker.go:509-559 | the method, call by call, pull and retry and conflicts included, is the specified operation: daemon, record of actions and answer; `ReturnedIsRunning` and `EnsureAlone` say what that amounts to |
| `Sandbox.Docker.Remove` | internal/sandboxd/docker.go:857-879 | likewise Remove (`RemoveAlone`) |
| `Sandbox.Docker.EnsureService` | internal/sandboxd/services.go:161-199 | likewise EnsureService, with its closing look by name (`ServiceAppears`, `ServiceIsRight`) |
| `Sandbox.Docker.CreateService` | internal/sandboxd/services.go:201-271 | likewise createService, which removes what it could not connect or start |
| `SpecHash.TextTellsSpecs` | internal/sandboxd/services.go:132-150 | valid specs have the same text exactly when image, arguments, environment and internet flag are the same |
| `SpecHash.DecodeText` | internal/sandboxd/services.go:135-150 | the text reads back to all four, in whatever order the environment was written |
| `SpecHash.ValidatesExactly` | internal/sandboxd/services.go:98-130 | exactly the specs that are taken: a lower-case uuid; 1 to 64 arguments of at most 4096 bytes, the first not blank; at most 64 variables of at most 8192 bytes, named as such, neither PATH nor HOME |
| `SpecHash.KeptOnlyForEqualSpec` | internal/sandboxd/services.go:158-199 | over all interleavings the container EnsureService ends with, if an instance built it, was built from the same image and an equal spec |
| `SpecHash.OneAscending` | internal/sandboxd/services.go:141-145 | sorting leaves one possible order of the names |
| `SpecHash.WriteText` | internal/sandboxd/services.go:135-150 | the loops write that text for every spec, whatever order the map is walked in |
| `ExecLoop.ReturnsExactly` | internal/sandboxd/docker.go:783-845 | for every order of events the result is what the events amount to: context error, copy error, or the code of the first poll after the exit once the copier ended; and no result otherwise |
| `ExecLoop.NoFalseSuccess` | internal/sandboxd/docker.go:784-792 | a code with no error is the process's own, observed after it ended, and the stream ended cleanly or was cut off past the grace |
| `ExecLoop.ExitCodeComesBack` | internal/sandboxd/docker.go:842-845 | with no context end and no copy fault taken, the result is the code the poll saw: that very code, or for 124 the timeout |
| `ExecLoop.TimedOutMeans` | internal/sandboxd/docker.go:811-845 | a timeout is reported only if the context ended uncancelled or the process exited with 124 |
| `ExecLoop.ShutExactly` | internal/sandboxd/docker.go:830-838 | the stream is forced shut exactly by a beat more than 2000 ms after the exit was seen with the copier not heard from, or by the context's end |
| `ExecLoop.PlainCourse` | internal/sandboxd/docker.go:799-845 | exit, end of the stream, copier, poll: that exit code comes back |
| `ExecLoop.HeldOpenCourse` | internal/sandboxd/docker.go:824-845 | a stream held open past the grace is shut and the exit code comes back all the same |
| `ExecLoop.EndedCourse` | internal/sandboxd/docker.go:811-819 | after the context's end the copier is waited for, and the context's error returned whatever the copier says |
| `ExecLoop.ExitSeenThenEnds` | internal/sandboxd/docker.go:819-840 | eleven beats after the exit is seen the stream is forced shut or the call is over, and the copier's end then settles it with that code |
| `ExecLoop.GraceRunsOut` | internal/sandboxd/docker.go:830-838 | beats at least a poll interval apart pass the grace, and what was seen does not change meanwhile |
| `ExecLoop.ExecEnv` | internal/sandboxd/docker.go:799-845 | the loop over its local variables returns exactly that, for every possible order of events |
| `ExecLoop.Leave` | internal/sandboxd/docker.go:811-819 | after the context ends the copier is waited for and the context's error returned |
| `Paths.AcceptsExactly` | internal/sandboxd/docker.go:379-406 | a workdir is accepted exactly when it is a clean path at or below missions/kind/id for the given id, and that directory is the answer |
| `Paths.PathLaws` | internal/sandboxd/docker.go:391-393 | empty names and "." lead nowhere, ".." takes a name back, and there is nothing above the root |
| `Paths.MissionsApart` | internal/sandboxd/docker.go:379-406 | two ids never get equal or nested directories, nor workdirs inside each other's |
| `Paths.MountIsScoped` | internal/sandboxd/docker.go:408-431 | a mission's mount is of the workspace's kind and source, narrowed to missions/kind/id, and stands at /workspace/missions/kind/id inside |
| `Paths.MountsApart` | internal/sandboxd/docker.go:408-431 | two missions' mounts never overlap |
| `Paths.CacheIsInScope` | internal/sandboxd/docker.go:433-449 | the shared cache if there is one; else a mount of the mission's kind and source, one name below the mission's own, at /home/sandbox/.cache |
| `Paths.RewriteIsConfined` | cmd/brain/main.go:2440-2456 | every wildcard tail is rewritten to the usage prefix followed by the tail cleaned as a path of its own, so to a clean path at or below the prefix, and a tail of plain names goes through unchanged |
| `Paths.CleanSettles` | internal/sandboxd/docker.go:391-393 | cleaning twice is cleaning once, and the clean paths are exactly the printed settled ones |
| `Jwt.VerifySigned` | internal/brain/auth/jwt.go:69-239 | for every claims value, both algorithms and matching keys, verifying a signed token gives back every claim, issue time and issuer filled in only where they were not given, or says they have expired |
| `Jwt.AcceptedWasIssued` | internal/brain/auth/jwt.go:150-239 | an accepted token carries issued claims, unexpired, under the algorithm they were issued with, while Ed25519 holds; a composite token does so while either primitive holds |
| `Jwt.TagAloneExactly` | internal/brain/auth/jwt.go:21-27 | with the tag alone to rely on, every accepted token was issued if and only if no signature at hand passes for an unissued classical token |
| `Jwt.ClassicalIsAccepted` | internal/brain/auth/jwt.go:184-194 | a classical input with a passing 64-byte signature is accepted whatever the quantum key |
| `Jwt.UnissuedIsAccepted` | internal/brain/auth/jwt.go:184-194 | so for any unexpired claims, issued or not |
| `Jwt.SignsExactly` | internal/brain/auth/jwt.go:70-138 | signing succeeds exactly with a known algorithm and the keys it needs |
| `Jwt.SignPicks` | internal/brain/auth/jwt.go:103-138 | with a quantum key the token is named composite and its signature is the 64 bytes the private key made and a 32-byte tag over input and signature; without one it is the 64 bytes alone |
| `Jwt.VerifiesExactly` | internal/brain/auth/jwt.go:150-239 | a token is accepted exactly when it is three dotless parts: a JWT header, readable unexpired claims, and under the named algorithm a signature of its length that passes every check |
| `Base64.DecodeEncode` | internal/brain/auth/jwt.go:92-94 | decoding undoes encoding for every length, and encoded text holds no dot |
| `Base64.EncodeDecode` | internal/brain/auth/jwt.go:162-180 | decodable text is canonical exactly when it has no line break and its last group leaves no bits over |
| `HtmlChrome.StripKeepsExactlyTheLiving` | internal/brain/api/kb_html.go:55-69 | stripping keeps, in order and at their depth, exactly the nodes with no chrome among themselves and their ancestors, judged in the original tree |
| `HtmlChrome.StripIsClean` | internal/brain/api/kb_html.go:58-91 | no chrome element is left |
| `HtmlChrome.ChromeExactly` | internal/brain/api/kb_html.go:71-91 | exactly what goes: script, style, noscript, template, iframe, nav and aside elements, headers and footers of the page itself, and any other element marked as page furniture or hidden |
| `HtmlChrome.NoneIsLeft` | internal/brain/api/kb_html.go:55-91 | after stripping none of those elements is left anywhere below the root, nor any role of navigation, banner, contentinfo or complementary outside a header or footer |
| `HtmlChrome.BelowExactly` | internal/brain/api/kb_html.go:139-149 | an article, section or aside makes headers content again, the body makes them the page's |
| `HtmlChrome.CleanIsFixed` | internal/brain/api/kb_html.go:58-69 | a tree is left alone exactly when it holds no chrome |
| `HtmlChrome.StripTwice` | internal/brain/api/kb_html.go:58-69 | a second walk changes nothing |
| `HtmlChrome.StripKeepsTextOrder` | internal/brain/api/kb_html.go:151-161 | the surviving text is an in-order subsequence of the original |
| `HtmlWalk.StripChromeNodes` | internal/brain/api/kb_html.go:58-69 | the in-place sibling walk over linked nodes leaves exactly the functionally stripped tree, correctly linked, and touches nothing outside |
| `HtmlWalk.RemoveChild` | internal/brain/api/kb_html.go:62-64 | unlinking a child leaves its siblings linked in order |
| `HtmlWalk.IsPageChrome` | internal/brain/api/kb_html.go:139-149 | the parent walk finds whether the nearest sectioning ancestor is the page |
| `HtmlWalk.IsChrome` | internal/brain/api/kb_html.go:71-91 | the element test on a node is the one on its tree |
| `HtmlPage.PageKeepsText` | internal/brain/api/kb_html.go:30-53 | the whole result's text is an in-order subsequence of the page's, and a page with text never loses all of it |
| `HtmlPage.PageExactly` | internal/brain/api/kb_html.go:36-53 | the whole result: the one main alone in the body, else the stripped page, else, when only blanks would be left, the page as it was |
| `HtmlPage.MainExactly` | internal/brain/api/kb_html.go:93-130 | a main is lifted out exactly when it is the only outermost one in the body and holds text |
| `HtmlPage.IsolatedAgain` | internal/brain/api/kb_html.go:93-113 | an isolated main with text is all there is in the body, and isolating again can only reach into it |
| `HtmlPage.PageTwice` | internal/brain/api/kb_html.go:36-53 | exactly when a second run of the whole changes nothing |
| `HtmlPage.HeadersGoTheSecondTime` | internal/brain/api/kb_html.go:107-112 | a main lifted out of an article loses its headers to a second run |
| `HtmlPage.PageTwiceCanDiffer` | internal/brain/api/kb_html.go:107-112 | a concrete page for which it does |
| `Interpolate.ExpandIsPiecewise` | internal/brain/automations/interpolate.go:20-37 | the template's pieces print back to it, and the result is theirs one by one, so a value is never expanded again |
| `Interpolate.ExpandWritten` | internal/brain/automations/interpolate.go:20-37 | any sequence of plain text and placeholders, braces in the text included as long as no placeholder starts there, comes out as that text with each placeholder filled, whatever the values hold |
| `Interpolate.UnknownStaysLiteral` | internal/brain/automations/interpolate.go:20-36 | a template without known placeholders stays byte-identical |
| `Interpolate.HoleLengthExactly` | internal/brain/automations/interpolate.go:15-15 | at each place at most one match starts, and it is found |
| `Interpolate.EventPathExactly` | internal/brain/automations/interpolate.go:16-16 | a key is an event path exactly when it is "event" and step names joined by dots |
| `Interpolate.EventIsFilled` | internal/brain/automations/interpolate.go:31-33 | an event placeholder, however spaced, is the value at its path |
| `Interpolate.NoteIsFilled` | internal/brain/automations/interpolate.go:28-30 | a notes placeholder, however spaced, is that note, or nothing |
| `Interpolate.LookupPath` | internal/brain/automations/interpolate.go:39-51 | the loop finds the value at a path, nothing when a step is missing or no object |
| `Interpolate.Truncate` | internal/brain/automations/interpolate.go:67-77 | the loop cuts at the last rune start at or below the cap |
| `Interpolate.TruncateIsLongest` | internal/brain/automations/interpolate.go:67-77 | that is the longest prefix ending between runes; valid text stays valid and loses at most three bytes below the cap |
| `Interpolate.InterpolateIsValid` | internal/brain/automations/interpolate.go:20-37 | with a valid template and valid values the result is valid and within the cap |
| `Interpolate.InterpolateWritten` | internal/brain/automations/interpolate.go:24-37 | any sequence of plain text and placeholders comes out filled, whole when that is at most 32768 bytes, else as its longest prefix within 32768 bytes that ends between runes |
| `Interpolate.NoteInText` | internal/brain/automations/interpolate.go:27-30 | a notes placeholder between two texts is replaced by the note, or by nothing if there is none |
| `Interpolate.EventInText` | internal/brain/automations/interpolate.go:31-33 | so is an event placeholder by the value at its path |
| `Interpolate.StoredInText` | internal/brain/automations/interpolate.go:31-33 | text put under a path in the event, whatever else is there, is what the placeholder for that path gives |
| `Interpolate.OtherInText` | internal/brain/automations/interpolate.go:34-34 | any other placeholder stays as it is |
| `Interpolate.FoundWherePut` | internal/brain/automations/interpolate.go:41-51 | a value is found where it was put, and what lies beside that path is still found |
| `Interpolate.MissingIsEmpty` | internal/brain/automations/interpolate.go:41-65 | a step that is missing, or taken from what is no object, renders as nothing |
| `Interpolate.NoteNameExactly` | internal/brain/automations/interpolate.go:17-17 | note names are 1 to 64 of a-z, 0-9, "_" and "-" |
| `Interpolate.StepNameExactly` | internal/brain/automations/interpolate.go:16-16 | step names begin with a letter or "_" and go on with letters, digits, "_" and "-" |
| `Interpolate.HoleExactly` | internal/brain/automations/interpolate.go:15-15 | a placeholder is two braces around a body without braces |
| `Utf8.ValidSplit` | internal/brain/automations/interpolate.go:73-76 | valid text splits into valid halves at every rune start |
| `Utf8.StartIsNear` | internal/brain/automations/interpolate.go:73-75 | in valid text a rune starts at most three bytes before any place |
| `HookLimiter.WindowBound` | internal/brain/api/hooks.go:256-275 | over every history any window from t1 to t2 lets through at most 30 + (t2 - t1)/2 deliveries per trigger |
| `HookLimiter.BurstPasses` | internal/brain/api/hooks.go:256-275 | a fresh trigger's first 30 at one moment all pass and no more |
| `HookLimiter.OthersDoNotMatter` | internal/brain/api/hooks.go:239-246 | a trigger's bucket and decisions depend on its own deliveries alone |
| `HookLimiter.SameAsScheduling` | internal/brain/api/hooks.go:256-275 | every decision is the one virtual scheduling makes from a single stored time |
| `HookLimiter.Limiter.Allow` | internal/brain/api/hooks.go:258-275 | the method on its map of bucket objects makes that decision and changes that bucket alone |
| `HookLimiter.HookBucket.Take` | internal/brain/api/hooks.go:266-274 | a bucket is refilled for the time passed and gives one token if it has one |
| `Wilson.IntervalInvertsTest` | scripts/decide-eval/main.go:126-138 | the interval holds exactly the rates whose score test does not reject the tally |
| `Wilson.EndsEnclose` | scripts/decide-eval/main.go:127-138 | 0 <= lo <= correct/total <= hi <= 1 before clamping, so the clamps never act |
| `Wilson.TieExactly` | scripts/decide-eval/main.go:140-157 | two tallies tie exactly when some one rate is compatible with both |
| `Wilson.VerdictsAreRight` | scripts/decide-eval/main.go:148-157 | BETTER and WORSE name the order of disjoint intervals, so never the lower accuracy; swapping swaps them; empty or equal tallies tie |
| `Agents.HistoryKeepsOneDefault` | internal/brain/agents/agents.go:279-516 | over every sequence of changes one default at most, enabled, never lost once set, and names stay apart |
| `Agents.OnlyItsOwnAgent` | internal/brain/agents/agents.go:423-516 | a change reaches its own agent alone; SetDefault leaves the flag with exactly the agent it names; a default or referenced agent is never deleted |
| `Agents.AppliesExactly` | internal/brain/agents/agents.go:279-516 | exactly the changes that go through: names valid and free in any case, a known executor, the agent there, the default neither disabled nor deleted, only an enabled one made the default, none deleted while in use |
| `Agents.PatchStores` | internal/brain/agents/agents.go:355-421 | the row afterwards holds what the patch names, and everything else as it was |
| `Agents.CreateStores` | internal/brain/agents/agents.go:279-309 | a created agent holds what was asked for and not the flag |
| `Agents.NameStored` | internal/brain/agents/agents.go:69-83 | a name is stored without the blanks around it, if 1 to 64 characters are left and none is a control character |
| `Agents.ReadsSeeReturnedWrites` | internal/brain/agents/agents.go:228-274 | for every interleaving a read begun after a write returned is answered from a table at least as new; the answer reflects it exactly when all its rows arrived, and then its default is the table's |
| `Agents.GatheredReflectsExactly` | internal/brain/agents/agents.go:243-268 | rows gathered in any order reflect the table exactly when none is missing |
| `Agents.BrokenReadIsCached` | internal/brain/agents/agents.go:250-268 | a read that breaks off is cached, and later reads are answered from it |
| `Agents.DriveIsARun` | internal/brain/agents/agents.go:232-274 | a call driven alone is a run of the machine |
| `Agents.RunKeepsInv` | internal/brain/agents/agents.go:228-274 | what the mutex, the cache and pending loads keep over every run |
| `Agents.ResolveIsRight` | internal/brain/agents/agents.go:190-209 | from a right snapshot a name gives its enabled agent, else the default, and whether that was asked for |
| `Agents.ResolveByIdIsRight` | internal/brain/agents/agents.go:211-226 | likewise an id |
| `Agents.Store.Load` | internal/brain/agents/agents.go:228-268 | the cache while recent, else what arrives of the rows, right for the table exactly when all did, else the zero agent |
| `Agents.Store.Read` | internal/brain/agents/agents.go:232-268 | a whole read of the object is the machine's, step by step, with the same answer |
| `Agents.Store.Write` | internal/brain/agents/agents.go:270-516 | so is every change, from transaction to invalidation |
| `Agents.Store.ResolveByName` | internal/brain/agents/agents.go:199-209 | the method answers from that snapshot |
| `Agents.Store.ResolveByID` | internal/brain/agents/agents.go:215-226 | likewise by id, searching the map in any order |
| `Agents.Store.CreateAgent` | internal/brain/agents/agents.go:276-309 | on success the table is the specified one and the cache is gone; otherwise nothing changed |
| `Agents.Store.PatchAgent` | internal/brain/agents/agents.go:333-421 | likewise a patch, which cannot disable the default |
| `Agents.Store.MakeDefault` | internal/brain/agents/agents.go:423-453 | likewise the moving of the flag |
| `Agents.Store.DeleteAgent` | internal/brain/agents/agents.go:455-516 | likewise a deletion, refused for the default and for agents in use |

## Left out

- McpBridge: the HTTP layer, the token check, JSON parsing, the server's log, and overflow of the 64-bit id counter.
- An `initialize` without an id is a notification to the bridge and is forwarded as one; the handshake theorem is about requests.
- The secret store: logging in (settings, stored secret, approle login) and the request after it are one step; a failed call leaves no AWS client behind; a reseal that a login triggers is covered by independent readers; the sweep's row order and its log lines are left out.
- The transport to Vault and AWS, addresses beyond "parses as a URL with a host", and the texts of errors. An id names the same external object throughout.
- `Status`, `List` of refs, `TestBackend`, key derivation, and cryptographic strength anywhere.
- Sandbox: resource limits, mounts as container settings, and per-mission locks. Without the locks there are only more interleavings. Outsiders do not rename containers.
- Restarting services count as running. The Kubernetes backend is not modelled; it rechecks no owner.
- SpecHash: blanks other than ASCII in the check that a command is not blank.
- ExecLoop: creating and attaching the exec, the output bytes themselves, and the `timeout` command inside the container.
- Jwt: claims are Unicode text; JSON's replacement of malformed text is left out, as are reserved algorithms beyond their refusal.
- HtmlPage is on trees as values: the in-place relinking of `isolateMain` is not modelled, only what it leaves. Parsing and rendering are left out, and attribute values are compared with ASCII case folding and ASCII blanks.
- Interpolate: JSON rendering of objects and arrays, and printing of scalars, are parameters.
- HookLimiter and Wilson: rounding of floats; `gateFailures` and the report around the verdict.
- Agents: listing, the audit records, and columns the registry only carries. A read whose query fails outright answers the zero agent and is not about any table.
- Database isolation below whole statements and transactions.
