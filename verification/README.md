# Verified models of the Phenix runtime

Dafny models of the stateful protocols and recursive compilers of the Phenix repository, with the properties they are
built for proved over all inputs, all runs and all interleavings. `dafny verify dfyconfig.toml` checks the project.

- **Session cache of the Lua facade** (`FacadeSpec`, `Facade`, `FacadeRuns`, `FacadeReplay`, `FacadePasses`,
  `FacadeDeliveries`, `FacadeArrivals`). A client's copies of per-session server logs, fed by live updates, snapshots
  and repair answers. `FacadeSpec` says what one call does, `Facade` has the class that updates the fields in place,
  the others hold the theorems about whole runs.
- **Descriptor-to-Rust emitter** (`EmitterSpec`, `Emitter`, `EmitterMeaning`, `EmitterSuccess`, `EmitterConstants`,
  `EmitterNames`). Declarations are abstract syntax; `EmitterMeaning` has the reader that gives them back their
  schemas.
- **Schema literals for Lua** (`LuaLiteral`). The printer, a reader of Lua table literals, and why they are inverse.
- **Lua values** (`Utf8`, `LuaValuesSpec`, `LuaDecoders`, `LuaLifting`, `LuaReading`, `LuaProjection`, `LuaRoundTrip`,
  `LuaInexact`). Both decoders and the projection; tables are finite maps that cannot hold nil, traversed in an
  arbitrary order.
- **Client tools** (`AdmissionsSpec`, `Admissions`, `AdmissionsRuns`, `AdmissionsAnswers`, `ClientInputs`,
  `InputsServed`, `ToolEnds`, `ToolAnswers`). The registry and the admissions, the service's operations as interleaved atomic steps,
  and the Lua client at the other end.
- **ACP backend** (`AcpCancellation`, `AcpWorker`, `Catalog`). The cancellation latch with its channel and forwarder,
  the persistent worker's loop, and the model listing against the model selection.
- **Native backend** (`NativeLoop`, `NativeAnswers`).
- **Replies to callbacks** (`DeferredReplies`, `RepliesTold`, `DroppedHandles`). The bounded table of deferred
  replies, the facade's interaction handles, and what a dropped reply handle does to the client at the service's end.

`Schema`, `Text` and `Wrappers` hold what several of them share. A class whose methods update fields has a `View()`: the
fields as a value of the specification. Its methods state the new view as the specification's step of the old one, and
the theorems are about those steps.

## Findings

These expectations turned out not to hold of the code. Each is kept as the code has it, with an input that shows it
and the exact condition:

- A repair answered with a snapshot of another session can leave the gap it was asked about without a repair and without
  an error (`MisdirectedAnswerForgetsGap`); answers crossed among the sessions of one pass do not. Which gaps a pass
  forgets is `PassForgetsGapIff`.
- Such an answer can also schedule a repair that the pending request of the same session then replaces, so that its
  answer is never consumed (`CrossedAnswerReplacesRequest`, `ReplacedStaysOpen`). In the table's key order only an
  answer to a smaller key can do this. When a pass replaces none is `PassKeepsRequestsIff` and, in key order,
  `KeyOrderKeepsRequestsIff`; both conditions over whole runs are `AlwaysHealthyIff`.
- A snapshot from before the cached position takes applied updates back without a repair or an error; nothing asks for
  them again until another update of the session arrives (`OldSnapshotLosesUpdate`). That this and a session created
  again are the only ways to lose a delivered update is `DeliveredIsKeptIff`.
- The id constants of events and callbacks are not reserved, so two event ids or two callback ids that agree up to
  separators and letter case make the emitted file declare one constant twice although generation succeeds
  (`ConstantDeclaredTwice`, `ConstantsDeclaredOnceIff`).
- A callback that is to be deferred while 64 are pending loses its reply handle: it is taken out before the
  reservation, and the error path finds none to answer with. The ACP client then answers it as disconnected, and the
  service takes that for the loss of the client and retires its whole generation (`OneCallbackTooMany`). The facade's
  dispatcher drops handles in more cases, such as a request that does not decode; all of them are in `DroppedIff`.
- One model value with a character that identifiers do not allow makes the whole listing fail, with a message that says
  the value is empty, although the other models can still be selected (`OneBadValueHidesAll`, `ListingFailsIff`).
- The lifting decoder ignores unknown names in a variant's record that the plain decoder refuses
  (`ExtraNameTellsThemApart`); apart from callables this is the only difference (`DecodersAgreeIff`).
- A map of functions with two keys of the same text, such as 1 and "1", keeps the function of the first registered
  although no value refers to it (`TwoKeysWasteOne`); nothing else is left behind by a decoding that succeeds
  (`NothingElseIff`).
- A connection lost before the reply to a registration strands the admission until the client's generation is retired
  (`StrandingHappens`, `StrandedIff`).

## Model

| member | source | states |
|---|---|---|
| FacadeRuns.PrefixSafety | rust/crates/phenix-binding-lua/src/facade.rs:766-873 | over every run with late, repeated, reordered or lost deliveries and snapshots of any age, each cached projection is exactly the log prefix ending at its own position |
| FacadeRuns.EventsTellTheCache | rust/crates/phenix-binding-lua/src/facade.rs:766-860 | folding all events ever queued, drained or not, gives exactly the positions and updates of the cached sessions, and each update event is one past what its session's events said before |
| FacadeRuns.NoGapForgotten | rust/crates/phenix-binding-lua/src/facade.rs:804-930 | after every run a session with stashed updates has a repair in flight or an error is recorded, and the accepted, unconsumed requests are one per session, given that repairs answer for the session asked about |
| FacadeRuns.DriveAllHolds | rust/crates/phenix-binding-lua/src/facade.rs:910-930 | the loop that empties the repair table while refilling it keeps what was refilled, puts pending requests back and never replaces an unfinished request |
| FacadeRuns.DriveLosesNoRequest | rust/crates/phenix-binding-lua/src/facade.rs:910-930 | a whole repair pass keeps every pending request under its session and replaces none |
| FacadeRuns.GapForgottenIffMisdirected | rust/crates/phenix-binding-lua/src/facade.rs:910-930 | one turn of a pass: with a working worker and no error, consuming the answer to a gap's own repair leaves the gap without a repair if and only if the answer is a snapshot of another session |
| FacadePasses.PassForgetsGapIff | rust/crates/phenix-binding-lua/src/facade.rs:862-930 | a whole pass, whatever the answers: a gap ends it without a repair and without an error if and only if no request fails, its own is answered, and no request of the pass is answered with a snapshot of it |
| FacadePasses.PassKeepsRequestsIff | rust/crates/phenix-binding-lua/src/facade.rs:862-930 | a whole pass, whatever the answers: the open requests are those of the table if and only if no session whose own request is pending was first, earlier in the pass, given a snapshot from which its backlog has a gap |
| FacadePasses.AlwaysHealthyIff | rust/crates/phenix-binding-lua/src/facade.rs:804-930 | over whole runs with a working worker: no state forgets a gap or loses a request if and only if every pass of the run meets the two conditions on its table, backlog and answers |
| FacadePasses.ReplacedStaysOpen | rust/crates/phenix-binding-lua/src/facade.rs:910-930 | the answer to a replaced request is never consumed, whatever happens next |
| FacadePasses.KeyOrderKeepsRequestsIff | rust/crates/phenix-binding-lua/src/facade.rs:910-930 | the same in the table's own key order: a pending request is replaced exactly when the answer of least key that is a snapshot of its session belongs to a smaller key and leaves a gap |
| FacadePasses.CrossedAnswerReplacesRequest | rust/crates/phenix-binding-lua/src/facade.rs:910-930 | a concrete run in key order, two gaps and then a misdirected answer to the smaller key, in which a pass replaces the pending request of the larger |
| FacadeDeliveries.InstallKeepsUpdateIff | rust/crates/phenix-binding-lua/src/facade.rs:783-802 | after a snapshot an update is at or below the position or in the backlog if and only if it was waiting or every number from the snapshot's position up to its own was |
| FacadeDeliveries.DeliveredIsKeptIff | rust/crates/phenix-binding-lua/src/facade.rs:766-930 | over whole runs: from its arrival on a delivered update is at or below its session's position or in the backlog, after every turn of every pass, if and only if no snapshot or created session takes the position back below it while neither it nor what leads to it waits |
| FacadeDeliveries.ForwardHoldsDelivered | rust/crates/phenix-binding-lua/src/facade.rs:766-930 | when no snapshot is older than what it replaces and only uncached sessions are created, every update delivered from the server's log is itself in the projection or in the backlog at the end of every run |
| FacadeDeliveries.OldSnapshotLosesUpdate | rust/crates/phenix-binding-lua/src/facade.rs:766-836 | a concrete run in which a snapshot from before an applied update takes it back without a repair and without an error |
| FacadeArrivals.NextIsApplied | rust/crates/phenix-binding-lua/src/facade.rs:804-860 | for every state, whatever waits: an update that comes next is the last of its projection, the position is its number, its event is queued, and backlog, repairs and all other sessions are unchanged |
| FacadeArrivals.StaleChangesNothing | rust/crates/phenix-binding-lua/src/facade.rs:814-820 | an update at or below the position changes nothing |
| FacadeArrivals.OthersWait | rust/crates/phenix-binding-lua/src/facade.rs:804-836 | any other update waits last in its session's backlog and no projection changes; a session without a repair gets a new request if its id is valid and the worker takes it, and otherwise that error is recorded |
| FacadeArrivals.ReachedIff | rust/crates/phenix-binding-lua/src/facade.rs:804-860 | over runs: after an arrival for a cached session the position is at least the update's number if and only if that number was at most one past the old position |
| FacadeArrivals.InOrderDeliveryCatchesUp | rust/crates/phenix-binding-lua/src/facade.rs:766-873 | when the log's updates up to some number arrive in order, with anything else in between, and snapshots only go forward, the projection holds the log at least up to that number |
| FacadeArrivals.TitleIsLastRename | rust/crates/phenix-binding-lua/src/facade.rs:838-860 | over runs: the cached title is that of the last rename applied since the session was last replaced, or the replaced one's own |
| FacadeArrivals.SnapshotTitle | rust/crates/phenix-binding-lua/src/facade.rs:783-802 | a snapshot shows its own title or that of the last rename its replay applied |
| FacadeRuns.MisdirectedAnswerForgetsGap | rust/crates/phenix-binding-lua/src/facade.rs:910-930 | a concrete two-step run in which a misdirected answer leaves a gap without a repair and without an error |
| FacadeReplay.ReplayClosedForm | rust/crates/phenix-binding-lua/src/facade.rs:862-873 | replay advances the projection by exactly the maximal contiguous run in the backlog, keeps what is beyond the first gap in sorted order and drops the rest |
| FacadeReplay.ReplayConfluent | rust/crates/phenix-binding-lua/src/facade.rs:862-873 | with equal updates at equal sequence numbers the result does not depend on arrival order or repetition |
| FacadeReplay.SortKeepsEntries | rust/crates/phenix-binding-lua/src/facade.rs:862-873 | sorting the backlog loses and repeats no entry |
| Facade.FacadeState.FailCore | rust/crates/phenix-binding-lua/src/facade.rs:1540-1545 | records the error, the failed phase and a status event |
| Facade.FacadeState.ScheduleRepair | rust/crates/phenix-binding-lua/src/facade.rs:875-908 | at most one repair request a session; an invalid id or a refused submission is recorded as an error |
| Facade.FacadeState.ApplyValidUpdate | rust/crates/phenix-binding-lua/src/facade.rs:838-860 | appends one update, its title change and its execution, and queues its event |
| Facade.FacadeState.IngestSessionUpdate | rust/crates/phenix-binding-lua/src/facade.rs:804-836 | the method is the specified step of an arriving update, whose four cases (unknown session, stale, gap, next) are told apart by `NextIsApplied`, `StaleChangesNothing` and `OthersWait` |
| Facade.FacadeState.ReplayBacklog | rust/crates/phenix-binding-lua/src/facade.rs:862-873 | the loop over the sorted backlog is the fold of ingestion |
| Facade.FacadeState.InstallSnapshot | rust/crates/phenix-binding-lua/src/facade.rs:783-802 | the unconditional overwrite followed by the replay |
| Facade.FacadeState.InstallCreatedSession | rust/crates/phenix-binding-lua/src/facade.rs:766-781 | the overwrite with an empty projection at position 0, without a replay |
| Facade.FacadeState.DriveRepairs | rust/crates/phenix-binding-lua/src/facade.rs:910-930 | the loop over the emptied table, in ascending key order, is the fold of consuming one answer |
| Facade.FacadeState.IngestApplicationEvent | rust/crates/phenix-binding-lua/src/facade.rs:1059-1067 | a decodable arrival is ingested, any other is recorded as an error |
| Facade.FacadeState.DecodeOutcome | rust/crates/phenix-binding-lua/src/facade.rs:649-730 | each answer that touches the cache or its status is the step of that answer |
| Facade.FacadeState.DriveBootstrap | rust/crates/phenix-binding-lua/src/facade.rs:932-970 | the first request's outcome makes the facade ready or records why it is not |
| Facade.FacadeState.DrainQueue | rust/crates/phenix-binding-lua/src/facade.rs:1047-1051 | the oldest queued events, at most so many, are handed out and leave the queue |
| Facade.FacadeState.Pump | rust/crates/phenix-binding-lua/src/facade.rs:985-1057 | one pump is the run of: first request, repair pass, terminal error, arrivals, repair pass, hand-out of at most the clamped budget of the oldest events; it ends with the arrivals when handling a callback fails |
| EmitterMeaning.EmittedMeansDescriptor | rust/crates/phenix-application-interface/src/generate.rs:20-88 | whenever generation succeeds, reading the declarations back, names looked up among earlier declarations only, gives every type id exactly its schema, no item name is declared twice, and operations, events and callbacks refer to the types of their ids |
| EmitterMeaning.NestedSound | rust/crates/phenix-application-interface/src/generate.rs:168-200 | a nested schema is emitted as a type expression that reads back as that schema, and everything emitted before keeps its meaning |
| EmitterMeaning.DefineSound | rust/crates/phenix-application-interface/src/generate.rs:202-230 | a definition comes after what it mentions and reads back as its schema under the reserved name |
| EmitterNames.ItemsAreNamed | rust/crates/phenix-application-interface/src/generate.rs:20-167 | whenever generation succeeds: besides type declarations the output has exactly the operations, events, callback sides and capabilities of the descriptor, in order, each named by its id without separators, segments capitalised, and the literal word of its role; every type declaration has a type's name or a fresh one of its kind |
| EmitterNames.TypesAreNamed | rust/crates/phenix-application-interface/src/generate.rs:105-120 | each type of the descriptor is declared, with its schema, under its id's letters and the word Type |
| EmitterNames.SymbolIff | rust/crates/phenix-application-interface/src/generate.rs:108-141 | an id has a name, in any role, exactly if no segment between separators is empty, the first does not begin with a digit, and all of them are letters, digits and underscores |
| EmitterNames.GeneratedIsNameable | rust/crates/phenix-application-interface/src/generate.rs:20-141 | every id of a descriptor for which generation succeeds can be spelled so |
| EmitterSuccess.RustSucceedsIff | rust/crates/phenix-application-interface/src/generate.rs:20-141 | generation succeeds if and only if ids and keys make identifiers, schemas can be named, references resolve and the names of ids differ; fresh names never clash |
| EmitterSuccess.GeneratedInjective | rust/crates/phenix-application-interface/src/generate.rs:181-276 | fresh names of different kinds or numbers differ |
| EmitterConstants.RustConstants | rust/crates/phenix-application-interface/src/generate.rs:152-167 | the emitted id constants are exactly those of the events and then the callbacks, upper-cased, in order |
| EmitterConstants.ConstantsDeclaredOnceIff | rust/crates/phenix-application-interface/src/generate.rs:111-167 | when generation succeeds, each id constant is declared once if and only if no two event ids, and no two callback ids, agree up to separators and letter case; nothing checks this |
| EmitterConstants.SameConstantIff | rust/crates/phenix-application-interface/src/generate.rs:111-167 | in one role two ids get the same constant exactly when they agree up to separators and letter case |
| EmitterConstants.RolesApart | rust/crates/phenix-application-interface/src/generate.rs:152-167 | constants of events, callback requests and callback responses never clash with each other, whatever the ids |
| EmitterConstants.ConstantDeclaredTwice | rust/crates/phenix-application-interface/src/generate.rs:20-167 | a concrete descriptor for which generation succeeds and the output declares one constant twice |
| Emitter.RustEmitter.ReserveName | rust/crates/phenix-application-interface/src/generate.rs:146-151 | reserving fails exactly for a name already reserved |
| Emitter.RustEmitter.EmitNested | rust/crates/phenix-application-interface/src/generate.rs:168-200 | the recursion over a schema on the mutable emitter is the specified step, failures included |
| Emitter.RustEmitter.DefineNamed | rust/crates/phenix-application-interface/src/generate.rs:202-230 | reserve, emit the members, then emit the declaration |
| Emitter.RustEmitter.EmitCallable | rust/crates/phenix-application-interface/src/generate.rs:232-259 | input and output first, then a fresh name for the reference type |
| Emitter.RustEmitter.EmitRoleItem | rust/crates/phenix-application-interface/src/generate.rs:152-167 | the alias and the id constant of an event or callback side |
| Emitter.GenerateRust | rust/crates/phenix-application-interface/src/generate.rs:20-88 | the whole emission on the mutable emitter is the specified function of the descriptor, whose output is spelled out by `ItemsAreNamed` and `EmittedMeansDescriptor` |
| LuaLiteral.ReplaceTwiceIsEscape | rust/crates/phenix-binding-generator/src/lib.rs:408-410 | the two replacements in sequence are one escape per character |
| LuaLiteral.StringRoundTrip | rust/crates/phenix-binding-generator/src/lib.rs:408-410 | a quoted string reads back as itself and leaves what follows |
| LuaLiteral.SchemaReads | rust/crates/phenix-binding-generator/src/lib.rs:318-371 | a general reader of Lua table literals reads a printed schema, followed by any text, as the schema's table and leaves that text |
| LuaLiteral.WordIsRead | rust/crates/phenix-binding-generator/src/lib.rs:318-371 | the table read off a printed schema says its kind first, in the literal word of that schema |
| LuaLiteral.PrintedSchemaReadsBack | rust/crates/phenix-binding-generator/src/lib.rs:318-371 | printing a schema and reading it back, whatever follows it, gives that schema and what follows |
| LuaLiteral.LiteralsAreUnambiguous | rust/crates/phenix-binding-generator/src/lib.rs:318-371 | no schema's literal is another schema's literal with something after it |
| Utf8.RoundTrip | rust/crates/phenix-binding-lua/src/lib.rs:1681-1688 | encoded text decodes to itself, strictly and lossily |
| Utf8.LossyReplaces | rust/crates/phenix-binding-lua/src/lib.rs:1681-1688 | lossy decoding keeps encoded text and puts one replacement character for each malformed start, which is the longest stretch that begins a character, or one byte; strict decoding fails there |
| Utf8.StrictIsEncoded | rust/crates/phenix-binding-lua/src/lib.rs:1718-1728 | bytes that decode strictly are the encoding of what they decode to, and lossy decoding agrees on them |
| LuaDecoders.DecodeSound | rust/crates/phenix-binding-lua/src/lib.rs:1650-1766 | whatever the plain decoder returns conforms to its schema |
| LuaDecoders.HostSound | rust/crates/phenix-binding-lua/src/lib.rs:1768-1925 | whatever the lifting decoder returns conforms, and every callable in it is a function lifted by this call and registered at the very schema where it stands |
| LuaLifting.HostStands | rust/crates/phenix-binding-lua/src/lib.rs:1768-1925 | a relation that walks schema, Lua value and result together: the result stands part by part in the Lua value, and each callable of it is registered, at the schema where it stands, with exactly the Lua function at its place |
| LuaLifting.DecodeStands | rust/crates/phenix-binding-lua/src/lib.rs:1650-1766 | so it is with the plain decoder, scalars by an explicit table |
| LuaLifting.NothingElseIff | rust/crates/phenix-binding-lua/src/lib.rs:379-410 | what a successful decoding registers: one entry for each number handed out and nothing else, and those numbers are exactly those in the result if and only if no map on the way has two keys with the same text and a callable under the earlier one |
| LuaLifting.TwoKeysWasteOne | rust/crates/phenix-binding-lua/src/lib.rs:1832-1848 | a concrete map with the keys 1 and "1" whose first function stays registered although nothing refers to it |
| LuaReading.TakenIff | rust/crates/phenix-binding-lua/src/lib.rs:1650-1766 | which Lua values the plain decoder takes, schema by schema, whatever the traversal order: both directions |
| LuaReading.AnyReturnsIff | rust/crates/phenix-binding-lua/src/lib.rs:1976-2106 | a dynamic value is recovered from its projection if and only if it has no option, record, variant, reference, unsigned number or bytes, no empty list and no unit inside a container |
| LuaProjection.ProjectsIff | rust/crates/phenix-binding-lua/src/lib.rs:2008-2233 | a value that conforms projects if and only if its unsigned numbers fit, its floats are finite and its callables have a live connection |
| LuaProjection.EncodeShows | rust/crates/phenix-binding-lua/src/lib.rs:2008-2233 | whatever projects is shown part by part, items at 1, 2, …, entries and fields under their names and nothing else, each callable by the proxy of exactly its reference, for all schemas, dynamic ones included |
| LuaDecoders.HostExtendsDecode | rust/crates/phenix-binding-lua/src/lib.rs:1768-1925 | whatever the plain decoder accepts the lifting decoder accepts with the same result, lifting nothing |
| LuaDecoders.HostIsDecode | rust/crates/phenix-binding-lua/src/lib.rs:1768-1960 | on schemas without callables and without record payloads in variants the two decoders are the same function, failures included |
| LuaDecoders.DecodersAgreeIff | rust/crates/phenix-binding-lua/src/lib.rs:1650-1960 | for every schema and value: the plain decoder accepts what the lifting one accepts if and only if the walk meets no callable and no variant's record has a name that is no field, and then both give the same and nothing is lifted |
| LuaDecoders.ExtraNameTellsThemApart | rust/crates/phenix-binding-lua/src/lib.rs:1887-1960 | in a variant's record a name that is no field is refused by the plain decoder and ignored by the lifting one |
| LuaRoundTrip.RoundTrip | rust/crates/phenix-binding-lua/src/lib.rs:2108-2233 | on exact schemas whatever projects to Lua is recovered from it, for every traversal order of tables |
| LuaRoundTrip.NilOnlyFromNilable | rust/crates/phenix-binding-lua/src/lib.rs:2108-2233 | only units and absent options are projected as nil |
| LuaRoundTrip.SimpleIsExact | rust/crates/phenix-binding-lua/src/lib.rs:1650-1766 | no unit or option directly inside an option, list, array or map and no record payload with a field named kind is enough for exactness |
| LuaInexact.Counterexample | rust/crates/phenix-binding-lua/src/lib.rs:2108-2233 | every schema outside the exact ones has a value that projects to Lua and is not recovered |
| LuaInexact.RoundTripsIffExact | rust/crates/phenix-binding-lua/src/lib.rs:1650-2233 | every value that projects is recovered if and only if the schema is exact, for all schemas without dynamic values, callables and objects |
| AdmissionsSpec.AdmitKeepsConsistent | rust/crates/phenix-domain/src/client_tools.rs:86-121 | admitting keeps both indexes exact descriptions of the admissions |
| AdmissionsSpec.RemoveKeepsConsistent | rust/crates/phenix-domain/src/client_tools.rs:126-167 | removing keeps both indexes exact |
| AdmissionsSpec.RetireKeepsConsistent | rust/crates/phenix-domain/src/client_tools.rs:169-180 | retiring keeps both indexes exact |
| AdmissionsSpec.AdmittedIsTheOne | rust/crates/phenix-domain/src/client_tools.rs:186-196 | a session holds at most one admission of a callable and the lookup finds exactly it |
| AdmissionsRuns.RetirementIsFinal | rust/crates/phenix-acp-stdio/src/transport.rs:221-228 | under every interleaving, once a retirement has run to its end no later state has an admission or a handler of the generation and none can be registered |
| AdmissionsRuns.AdmissionsAreServed | rust/crates/phenix-acp-stdio/src/transport.rs:332-450 | in every reachable state, lock held or free, each live admission's handler is registered with exactly its callable schema |
| AdmissionsRuns.RegisteredIsAdmitted | rust/crates/phenix-acp-stdio/src/transport.rs:389-414 | an admission that got as far as registering its handler is always admitted, so a rejected one leaves nothing behind |
| AdmissionsRuns.HandlerOutlivesAdmissions | rust/crates/phenix-acp-stdio/src/transport.rs:421-450 | a step takes a client's live handler away only after the last admission that uses it is gone |
| AdmissionsRuns.LastIsUnused | rust/crates/phenix-acp-stdio/src/transport.rs:446-448 | live admissions that share a handler share the whole reference, so the check by reference is a check by handler |
| AdmissionsRuns.HandlesAreNotReused | rust/crates/phenix-domain/src/client_tools.rs:86-121 | an admission id names one admission for good |
| AdmissionsAnswers.AdmittedAloneIff | rust/crates/phenix-acp-stdio/src/transport.rs:332-419 | from every reachable state with the lock free, an admission request that runs alone ends with exactly that tool admitted if and only if its generation is not retired, its place is free and its handler is unregistered or registered with exactly the tool's callable schema; otherwise nothing changes |
| AdmissionsAnswers.RemovedAloneIff | rust/crates/phenix-acp-stdio/src/transport.rs:421-450 | likewise a removal takes exactly the session's own admission, and the handler only with the last admission that uses it |
| AdmissionsAnswers.RetiredAlone | rust/crates/phenix-acp-stdio/src/transport.rs:221-228 | likewise a retirement takes all admissions and handlers of its generation and nothing else |
| AdmissionsAnswers.RetirementSparesOthers | rust/crates/phenix-acp-stdio/src/transport.rs:221-228 | retiring one generation changes nothing for what another may admit |
| Admissions.CapabilityRegistry.RegisterHandler | rust/crates/phenix-core/src/capability.rs:121-159 | registration succeeds exactly if the schema is callable with the reference's contract, the reference's own generation is not retired and its key is free; then exactly that entry is new |
| Admissions.CapabilityRegistry.Retire | rust/crates/phenix-core/src/capability.rs:162-168 | every handler of the generation goes and the generation stays retired |
| Admissions.CapabilityRegistry.UnregisterHandler | rust/crates/phenix-core/src/capability.rs:173-187 | removes one handler of a generation that is not retired |
| Admissions.ClientToolAdmissions.AdmitTool | rust/crates/phenix-domain/src/client_tools.rs:86-121 | admits under a new id or refuses a duplicate, with the indexes kept exact |
| Admissions.ClientToolAdmissions.RemoveOne | rust/crates/phenix-domain/src/client_tools.rs:140-167 | removes one admission of the generation from the table and both indexes |
| Admissions.ClientToolAdmissions.RemoveFrom | rust/crates/phenix-domain/src/client_tools.rs:126-138 | removes only an admission of the named session |
| Admissions.ClientToolAdmissions.Retire | rust/crates/phenix-domain/src/client_tools.rs:169-180 | the loop over the generation's ids leaves exactly the admissions of other generations |
| Admissions.ClientToolAdmissions.Find | rust/crates/phenix-domain/src/client_tools.rs:186-196 | the lookup by session and callable |
| Admissions.ClientToolAdmissions.UsesInvoke | rust/crates/phenix-domain/src/client_tools.rs:203-207 | whether some admission uses the reference |
| Admissions.SdkApplicationService.AdmitCurrentClientCallable | rust/crates/phenix-acp-stdio/src/transport.rs:557-628 | succeeds exactly for the connected client's reference that is registered now or was registered with the same schema |
| Admissions.SdkApplicationService.AdmitClientTool | rust/crates/phenix-acp-stdio/src/transport.rs:332-419 | run alone it ends as the interleaved steps do, and a refusal leaves registry and admissions as they were |
| Admissions.SdkApplicationService.RemoveClientTool | rust/crates/phenix-acp-stdio/src/transport.rs:421-450 | run alone it ends as the interleaved steps do: the handler goes with the last admission |
| Admissions.SdkApplicationService.RetireClient | rust/crates/phenix-acp-stdio/src/transport.rs:221-228 | run alone it ends as the interleaved steps do, with no admission of the client left |
| Admissions.SdkApplicationService.PrepareInvocation | rust/crates/phenix-acp-stdio/src/transport.rs:467-503 | the lookup under the admission lock: the route is that of the session's own admission of the callable, if there is one, and the input is checked against exactly the schema that is registered for its handler at that moment, unless the generation is already retired in the registry, which then answers stale |
| AdmissionsRuns.InvocationWindow | rust/crates/phenix-acp-stdio/src/transport.rs:467-503 | between that lookup and the registry's own, under every interleaving: the registry still has the handler at the checked schema, unless it was gone in between |
| ClientInputs.ConformingIsNotBroken | rust/crates/phenix-acp-stdio/src/transport.rs:505-551 | the walk over an input that conforms to its schema reaches every callable |
| ClientInputs.AdmittedAreServed | rust/crates/phenix-acp-stdio/src/transport.rs:505-555 | when the walk succeeds every client callable in the input is registered at the schema where it stands, and nothing registered before is lost |
| ClientInputs.AdmitClientCallables | rust/crates/phenix-acp-stdio/src/transport.rs:505-551 | the recursive walk registers the client's callables one by one up to the first failure |
| InputsServed.VisitedIff | rust/crates/phenix-acp-stdio/src/transport.rs:505-551 | the walk over a conforming input visits exactly the client's callables that stand somewhere in it |
| InputsServed.InputAcceptedIff | rust/crates/phenix-acp-stdio/src/transport.rs:505-628 | a conforming input is accepted if and only if each client callable in it is the connected client's own, live and registered with no other schema, and none stands at two schemas; then each is served at its schema, and whatever the outcome only callables of the input are new in the registry |
| ToolEnds.AdmittedHandlersAreHeld | rust/crates/phenix-binding-lua/src/tools.rs:61-226 | while the connection lives, every admission of a handler the Lua client registered finds that handler among its local callables |
| ToolEnds.DroppedOnlyWhenUnserved | rust/crates/phenix-binding-lua/src/tools.rs:174-181 | a handler is dropped only on a refused admission or an acknowledged removal, when no admission uses it, or on a failed connection |
| ToolEnds.AdmittingIsAlone | rust/crates/phenix-acp-stdio/src/transport.rs:332-419 | the one step in which a request is served at this level is the interleaved admission request that runs alone |
| ToolEnds.RemovingIsAlone | rust/crates/phenix-acp-stdio/src/transport.rs:421-450 | likewise for a removal |
| ToolEnds.RegisteredHandlersAreHeld | rust/crates/phenix-binding-lua/src/tools.rs:61-226 | over both ends: while the connection lives, a handler of the client that the server has registered for a tool is held by the client, and every admission of it is served at exactly its schema |
| ToolEnds.StrandedIff | rust/crates/phenix-binding-lua/src/tools.rs:152-226 | in every run, the function that an admission goes to is gone from the client if and only if its registration was rejected, which takes a lost connection |
| ToolEnds.StrandingHappens | rust/crates/phenix-binding-lua/src/tools.rs:152-226 | a concrete run from the start, four steps, that strands an admission |
| ToolEnds.LostReplyStrands | rust/crates/phenix-binding-lua/src/tools.rs:152-226 | when the connection fails before the admission's reply arrives the handler goes while the admission stays, until the client's generation is retired |
| ToolAnswers.AddIsServed | rust/crates/phenix-acp-stdio/src/transport.rs:332-419 | in every run a registration's request is answered with an admission if and only if the server has no reason of its own to refuse and the generation is live, the place free and the handler free or fitting; otherwise it is refused and nothing changes on the server |
| ToolAnswers.StopIsServed | rust/crates/phenix-acp-stdio/src/transport.rs:421-450 | a removal is acknowledged if and only if the session has the admission, which then is gone, the handler with the last that used it |
| ToolAnswers.HeldIff | rust/crates/phenix-binding-lua/src/tools.rs:146-226 | in every run the client holds the functions of exactly the registrations that were neither rejected nor stopped |
| ToolAnswers.DroppedIff | rust/crates/phenix-binding-lua/src/tools.rs:146-226 | exactly when a function is dropped: its registration is seen refused, its removal seen acknowledged, or the connection found failed while it is not answered |
| ToolAnswers.RegistrationSucceeds | rust/crates/phenix-binding-lua/src/tools.rs:61-181 | from every reachable state, a registration in a free place of a live generation is admitted, served at its schema, and held by the client |
| ToolAnswers.StopUndoes | rust/crates/phenix-binding-lua/src/tools.rs:183-226 | and its stop function undoes it: exactly that admission and its handler go from the server and the function from the client |
| AcpCancellation.OutcomeFollowsHistory | rust/crates/phenix-backend-acp/src/lib.rs:211-231 | whether an execution is refused, skipped or armed follows from the history of cancels and executions alone |
| AcpCancellation.OneExecutionIsArmed | rust/crates/phenix-backend-acp/src/lib.rs:211-231 | at most one execution is armed and a refused one changes nothing |
| AcpCancellation.NotifiesIffSignalled | rust/crates/phenix-backend-acp/src/lib.rs:884-916 | a forwarder that has ended notified the agent exactly when a cancel came in while its execution was armed and before it was told to complete, started or not |
| AcpCancellation.ForwarderEnds | rust/crates/phenix-backend-acp/src/lib.rs:889-916 | a forwarder told to complete can always receive and then ends, so joining it does not hang |
| AcpCancellation.DisarmForgets | rust/crates/phenix-backend-acp/src/lib.rs:233-240 | no cancel that came in before an execution is disarmed reaches a later one |
| AcpCancellation.IdleCancelSkipsOne | rust/crates/phenix-backend-acp/src/lib.rs:211-251 | a cancel while idle skips exactly the next execution |
| AcpCancellation.CancellationState.ArmCancellation | rust/crates/phenix-backend-acp/src/lib.rs:211-231 | the latch and the channel in place follow the step of the model |
| AcpCancellation.CancellationState.DisarmCancellation | rust/crates/phenix-backend-acp/src/lib.rs:233-240 | the latch and the channel in place follow the step of the model |
| AcpCancellation.CancellationState.RequestCancellation | rust/crates/phenix-backend-acp/src/lib.rs:242-251 | the latch is set and the armed channel gets a cancel |
| AcpWorker.Worker.ServeCommand | rust/crates/phenix-backend-acp/src/lib.rs:785-877 | one taken command: its channel gets exactly the expected messages and completion, and a prompt goes out only with the agent's model at the command's |
| AcpWorker.Worker.Bind | rust/crates/phenix-backend-acp/src/lib.rs:829-850 | the channel is active before the bridge is bound, so a failed binding reports the notifications that came in meanwhile |
| AcpWorker.Worker.SendPrompt | rust/crates/phenix-backend-acp/src/lib.rs:829-876 | notifications reach the channel while it is active and tool calls while the bridge is bound to it, and neither outlasts the command |
| AcpWorker.Worker.Loop | rust/crates/phenix-backend-acp/src/lib.rs:785-878 | the commands taken, their events and outcomes, up to the first that ends the loop |
| AcpWorker.PromptsMatchModels | rust/crates/phenix-backend-acp/src/lib.rs:764-877 | every prompt is sent while the agent's model, as its own requests set it, is the command's model |
| AcpWorker.OutcomesFollowAnswers | rust/crates/phenix-backend-acp/src/lib.rs:764-877 | said on the log of requests alone: a command is done as unsupported exactly if the agent was asked nothing for it, as succeeded if its prompt was answered well, and as failed if its last request went wrong |
| AcpWorker.TakenAre | rust/crates/phenix-backend-acp/src/lib.rs:764-877 | for each taken command which outcome it has and what gets through to its channel, in order, from the command, the known model and the agent's answers; the next one is taken exactly after a success or a refusal of tools |
| AcpWorker.ChannelIsReport | rust/crates/phenix-backend-acp/src/lib.rs:696-877 | a taken command's channel carries its notifications and tool calls in order, then exactly one completion, and after it at most tool calls taken up before |
| AcpWorker.ReceiveWorkerMessages | rust/crates/phenix-backend-acp/src/lib.rs:443-475 | the executor reads to the first completion or the channel's end and the host's first failure wins |
| AcpWorker.CallsAreAnswered | rust/crates/phenix-backend-acp/src/lib.rs:443-475 | every tool call is answered once and in order; the host is given all events up to and with the first it refuses, asked all tool calls before it and nothing after, and the refused event is the one reported |
| AcpWorker.ExecutorGetsReport | rust/crates/phenix-backend-acp/src/lib.rs:443-475 | both ends of one channel: the executor takes exactly the finished command's messages and ends with its outcome |
| Catalog.CollectSelectValues | rust/crates/phenix-backend-acp/src/lib.rs:1011-1029 | the recursion over the output vector appends the tree's values in order |
| Catalog.ContainsIffCollected | rust/crates/phenix-backend-acp/src/lib.rs:1077-1090 | the search finds a value exactly when the collection contains it |
| Catalog.KeepFirst | rust/crates/phenix-backend-acp/src/lib.rs:974-992 | the filter over the seen set keeps first occurrences and fails as a whole on a value that is no identifier |
| Catalog.ModelDescriptors | rust/crates/phenix-backend-acp/src/lib.rs:961-993 | the listing, or the failure that replaces all of it |
| Catalog.FirstsAre | rust/crates/phenix-backend-acp/src/lib.rs:974-979 | the positions kept increase and are exactly the first occurrences |
| Catalog.FirstOccurrencesAre | rust/crates/phenix-backend-acp/src/lib.rs:974-979 | each value is listed once, in the order of first occurrences |
| Catalog.ListedIffSelectable | rust/crates/phenix-backend-acp/src/lib.rs:1051-1075 | when the listing succeeds and the model option has a text id, a model is listed exactly when selecting it succeeds |
| Catalog.ModelOptionIff | rust/crates/phenix-backend-acp/src/lib.rs:994-1009 | listing and selecting look at the first option of the category model, and fail exactly without one |
| Catalog.ListedNames | rust/crates/phenix-backend-acp/src/lib.rs:961-1029 | when the listing succeeds, exactly the values that stand in that option's tree are listed, each with the name at its first place: its own name if that is a text, and otherwise the value |
| Catalog.SelectedIff | rust/crates/phenix-backend-acp/src/lib.rs:1051-1090 | a model is selected exactly if that option has a text id and offers the value; the selection has the option's id and current value |
| Catalog.ListingFailsIff | rust/crates/phenix-backend-acp/src/lib.rs:961-993 | the listing fails, for all models at once, exactly when there is no model option, the option has no options, or some value in their tree is no identifier |
| Catalog.OneBadValueHidesAll | rust/crates/phenix-backend-acp/src/lib.rs:961-993 | a concrete option tree: one value with a space makes the listing fail while another model can still be selected |
| NativeLoop.PhenixSession.ReceiveStream | rust/crates/phenix-backend-native/src/lib.rs:496-514 | reading a stream to its end, a cancellation or a failure, with the content captured last |
| NativeLoop.PhenixSession.DispatchCalls | rust/crates/phenix-backend-native/src/lib.rs:525-529 | the loop gives the specified responses, one per call in call order, or the host's error; what each is answered with is `CallsAreAnsweredAs` |
| NativeLoop.PhenixSession.ExecuteTurn | rust/crates/phenix-backend-native/src/lib.rs:472-531 | the loop is the specified turn: which histories are sent and how it ends |
| NativeLoop.PhenixSession.Execute | rust/crates/phenix-backend-native/src/lib.rs:536-568 | only a turn that succeeds is saved; an executing session refuses and is left as it is |
| NativeLoop.RequestsAreProper | rust/crates/phenix-backend-native/src/lib.rs:472-531 | every history sent extends the saved one and is well formed, each longer by one answered round, and with a limit there are at most that many |
| NativeLoop.SavedHistoriesGrow | rust/crates/phenix-backend-native/src/lib.rs:536-568 | over any sequence of turns, failed and cancelled mid-stream included, the saved history only grows and is well formed |
| NativeAnswers.CallsAreAnsweredAs | rust/crates/phenix-backend-native/src/lib.rs:105-141 | a call of an offered tool is answered with the host's own text on success and an error report on a refusal or protocol error, a call of another tool with an error report whatever the host would say; there is no response only if the host fails on an offered tool |
| NativeAnswers.PromptIsPlayed | rust/crates/phenix-backend-native/src/lib.rs:472-568 | every history that a prompt sends or saves, message by message: what each round's stream gives and what each call is answered with |
| NativeAnswers.StreamIsRead | rust/crates/phenix-backend-native/src/lib.rs:496-514 | reading a stream stops at the first event that stops it, and otherwise gives the content captured last |
| NativeAnswers.HostErrorEndsIff | rust/crates/phenix-backend-native/src/lib.rs:472-531 | a round that asks for tools ends the turn with the host's failure if and only if the host fails on a call of an offered tool |
| DeferredReplies.RepliesAreGivenOnce | rust/crates/phenix-binding-lua/src/lib.rs:412-453 | in every run a callback has its one reply, or waits for it in the table, or is held by an interaction handle, and at most 64 wait |
| DeferredReplies.ClosingAnswersAll | rust/crates/phenix-binding-lua/src/lib.rs:455-470 | once the table is rejected every callback has been replied to exactly once, except those an interaction handle holds |
| RepliesTold.ToldIff | rust/crates/phenix-binding-lua/src/lib.rs:412-470 | in every run a callback has the reply output, failure or disconnect exactly if some step told it so: a value that converts, or an interaction answered in its kind or cancelled, gives an output; a refusal, a value that does not convert, a rejection or the end of the table gives a failure; a dropped handle a disconnect |
| DeferredReplies.DroppedIff | rust/crates/phenix-binding-lua/src/facade.rs:1069-1184 | a reply handle is dropped exactly when a callback is to be deferred and the table is full or the ids are used up, or when the facade cannot decode it or cannot call into Lua for it |
| DeferredReplies.DisconnectedIffDropped | rust/crates/phenix-client-acp/src/lib.rs:396-445 | in every run the replies that the ACP client makes in the binding's place are exactly those to the dropped callbacks, one each |
| DroppedHandles.ReactsIffDropped | rust/crates/phenix-acp-stdio/src/transport.rs:600-608 | a step of the binding is answered as disconnected, on which the service retires the client, exactly if it drops a reply handle |
| DroppedHandles.OneCallbackTooMany | rust/crates/phenix-acp-stdio/src/transport.rs:585-612 | with a full table the next deferred callback is answered as disconnected and the service forgets the client's generation for good, under every later interleaving |
| DeferredReplies.FullTableIsReached | rust/crates/phenix-binding-lua/src/lib.rs:412-430 | deferring as many callbacks as there are places fills the table, and the next is dropped |
| DeferredReplies.IdsAreNotReused | rust/crates/phenix-binding-lua/src/lib.rs:422-428 | a deferred id is not given out again and once settled stays settled |
| DeferredReplies.LocalCallables.ReserveDeferred | rust/crates/phenix-binding-lua/src/lib.rs:412-430 | a place and the next id, or nothing |
| DeferredReplies.LocalCallables.SettleDeferred | rust/crates/phenix-binding-lua/src/lib.rs:438-453 | the first completion of a pending id replies; any other changes nothing |
| DeferredReplies.LocalCallables.RejectDeferred | rust/crates/phenix-binding-lua/src/lib.rs:455-464 | the loop over the taken table fails each entry once, in id order |
| DeferredReplies.LocalCallables.DispatchLocalCallback | rust/crates/phenix-binding-lua/src/lib.rs:1432-1534 | each way of handling a callback, and which of them gives a deferred id |
| DeferredReplies.LocalCallables.DispatchCallback | rust/crates/phenix-binding-lua/src/facade.rs:1069-1184 | the facade's dispatcher in front of it: what is dropped, turned down, handed to an interaction handle or passed on |
| DeferredReplies.InteractionReply.Perform | rust/crates/phenix-binding-lua/src/facade.rs:562-611 | the first accepted operation settles the interaction |
| DeferredReplies.InteractionReply.Drop | rust/crates/phenix-binding-lua/src/facade.rs:612-625 | dropping an open interaction answers it as cancelled |
| DeferredReplies.InteractionReply.Live | rust/crates/phenix-binding-lua/src/facade.rs:562-625 | whatever is done with the handle until it is dropped, exactly one answer is sent, and it is the first accepted one |
| DeferredReplies.Request.Poll | rust/crates/phenix-binding-lua/src/lib.rs:519-537 | once a result is shown every later poll shows the same result |

## Left out

- The text of the emitted Rust: declarations are abstract syntax, so quoting, attributes and the bodies of the generated
  trait implementations are not modelled; what a `Callable` or `Object` struct means is its contract and schemas.
- The rest of the Lua source generator (operation tables, error kinds, binding names): string assembly without recursion.
- Texts of error messages: failures are told apart by kind only, and conversions of Lua values fail without a reason.
- Numbers at the Lua boundary: integers are exact 64-bit values and floats are reals or not finite, so the rounding of
  integers beyond 2^53 by a Lua 5.1 number and the text of fractions are not modelled (small whole numbers have their
  decimal text, other texts are arbitrary).
- LuaRoundTrip.RoundTrip: says nothing about dynamic values, which have their own condition (`LuaReading.AnyReturnsIff`),
  nor about callables and objects, because the decoder takes neither from tables.
- Metatables and proxies: table reads are raw, and a projected remote callable is an opaque value.
- The 64-bit counters that saturate (lifted functions, admission ids, fresh names): they are unbounded here; the
  checked counter of deferred ids and the saturating sequence numbers of sessions are modelled with their width.
- FacadeRuns.NoGapForgotten: assumes that a repair is answered for the session it was asked about, which is enough but not
  necessary; `FacadePasses` has the exact conditions, for a worker that takes every submission and with the types of the
  source, ids that parse and 64-bit sequence numbers.
- Admissions.SdkApplicationService.PrepareInvocation: covers the lookup under the admission lock only; what can happen
  before the registry looks the handler up is `AdmissionsRuns.InvocationWindow`. Validating the input against the
  schema and calling the handler are not part of it.
- The facade's session, execution and feature tables, its selections and provenance, and its permission and elicitation
  dialogs: they leave sessions, backlog and repairs alone; answers that only change them are one status action.
- Admission requests are checked for a parsable session id, a callable value, a description and the tool kind before
  they begin; those refusals touch no state and are not modelled, nor are a tool's capabilities and permission policy.
- The contents of permission and elicitation dialogs and the invocation of a handler with its thread: an answer is an
  output, a failure or a disconnect, and a disconnect seen by a handler is a retirement.
- The server's admissions and registered handlers in `ToolEnds` change in one step per request, as in a request of
  `AdmissionsRuns` that runs alone, and handlers that come with other inputs are not in it; the number in a lifted function's reference stands for the whole reference id.
- AcpWorker.Worker.Loop: the agent's model is what the worker's own requests made it and what the agent reported at the
  start; a model the agent changes by itself is not seen by the code either.
- Starting the agent process, the bridge's own protocol, one-shot turns and authentication of the ACP backend.
- NativeLoop.PhenixSession.ExecuteTurn: resolving the provider target and building the tool schemas come before the loop
  and can only fail the turn; a provider that would answer for ever is a script of any finite length.
- What the host is shown while a native turn streams: each piece is accepted or refused, its content is not kept; a tool
  call's arguments are a JSON value, so encoding them is taken not to fail.
- Lua callbacks that call back into the client while a deferred start runs appear as later actions of the run.
- OAuth, credentials, provider tables, environment variables, stdio wiring, lock poisoning and panics.
