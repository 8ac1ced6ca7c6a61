# Verification of the toybloom scalable Bloom filter

toybloom keeps scalable Bloom filters in a string-keyed store. A filter is a chain of stages, each with
its own bit count, hash count and capacity; bits are sharded over keys, counts live in counters, and a
stage is appended by an atomic compare-and-append when the newest one is full. Any number of clients
work on one filter at once, each with its own, possibly outdated, copy of the stage list.

This project models that engine (`pkg/bloom`), the two stores it runs on (`pkg/store`) and the service
that reloads a filter before every call (`internal/service`), and proves what they promise. To check it,
use Dafny 4.11: `dafny verify dfyconfig.toml`.

## How the model is organised

| file | contents |
|---|---|
| Base, Env | results, errors, integer widths; the functions the engine calls but does not define (xxhash, ln, exp, float printing) |
| Decimal, Keys | decimal printing and parsing; the key functions and exactly when keys collide |
| Hash, Shard, Sizing | double hashing with 64-bit wrap-around, the shard split, stage sizing over reals and naturals |
| Store, Valkey | MemStore as a class proved against functions on its state; the Lua append script and the pipelined bit batches |
| Chain | a filter's chain of stages, with the atomic operations on it |
| Layout, Persist | which cell every key holds; New, Load and Drop as functions of the store |
| Reference | a filter as nothing but a list of added items, cut into stages |
| Engine | the Filter class over MemStore: New, Load, Add, Exists, Drop, growth and reload, with their loops |
| Service, Runs | the service class, refined to a catalogue of item lists; theorems over every sequence of calls |
| Promises | every reply of the service, a stage's size and Load on any store in plain numbers, by n, p, the items, the hash and the logarithm alone |
| Samples | concrete inputs for the promises that fail in some case |
| Protocol, ProtocolSafety, ProtocolProgress | the concurrent protocol as a transition system, its invariants, its progress |
| ProtocolTight | runs that reach the overshoot bound |
| ProtocolSolo | a protocol call nobody interleaves does what the Filter class does |
| Bridge, Tenants | every protocol step is one MemStore call on rendered keys, over whole runs, for one filter and for many at once |
| Estimate | fill ratio, estimated error and the error budget over the reals |

The concurrent model takes one step per atomic store operation. The bits of one SetBits or GetBits are
separate steps, because ValkeyStore pipelines them, and the shard groups come in any order, because Go's
map iteration does. Clients may start each call with a fresh Load, as the service does, or reuse a handle,
as a library user may. They may give up anywhere, and a write they gave up on may reach the store at any
later time, or never. The sequential model has the same code as classes and loops over MemStore. `Bridge`
takes each protocol step to a store call, and `ProtocolSolo` takes each protocol call that nobody interleaves
to the specification the Filter class is proved against.

The functions that the class methods and the runs are proved against are in turn characterized without their
own help: `Promises` says what every reply is by n, p, the items added, the hash and the logarithm, and the
lemmas named `...Exactly` and `...ThenRead` do the same for hashing, sizing, estimates, decimals and the store.

## What the proofs found

- Through the library (not the API) a name may contain a colon, and then two filters can share keys: `a`
  and `a:s0` do. `Layout.IsolationByParameters` says exactly when, by the stages that each filter's own n and
  p let it get (`Reference.AttainableExactly`); `Samples.NeighbourRefused` and `Samples.NeighbourLost` show
  what follows in either order of creation.
- MemStore compares the stage count as a number, the Lua script as a string. They differ on a count such as
  `01`; `Valkey.AppendsAgreeExactly` gives the exact condition, and `Bridge.EngineAppendsAgree` shows the
  engine never leaves it.
- "False means the item was definitely never added" (pkg/bloom/filter.go:270-272) holds for every handle as
  long as the stored chain, fresh or kept (`ProtocolSafety.CurrentHandleExists`). A shorter one, kept while
  others grew the filter, scans just the stages it knows, and `Reference.MissedExactly` says exactly which
  added items it misses; `Samples.StaleHandleScenario` is a case.
- When an Add fills the newest stage, or finds it full, and the next cannot be sized, it records the item and
  still returns an error, and the stage goes on filling (`Runs.AddFailsExactly`, `Reference.CutExact`;
  `Samples.BlockedAdd` is a case).
- A call that fails between the Incr that fills a stage and the end of growth, or whose Incr fills a stage
  after it has failed, lets one more item into that stage and, unless the next stage is appended all the same,
  leaves it full until another Add; no other failure does (`ProtocolSafety.GrowthNotMissed`,
  `ProtocolSafety.BoundedOvershoot`, which `ProtocolTight.OvershootReached` shows to be exact).
- docs/LLD.md:31-32 and docs/ADR/0004-double-hashing.md:12 describe two halves or two seeds of one digest;
  the code rehashes the bytes of h1 (pkg/bloom/hash.go:12-18). The model follows the code, and
  `Hashing.HashPartsExactly` says what it computes.

## Model

| member | source | states |
|---|---|---|
| ProtocolSafety.NoFalseNegatives | pkg/bloom/filter.go:168-303 | In every interleaving of any number of clients, growing, racing or giving up, with any of the writes they gave up on arriving at any later time: once some Add(x) has returned success, every Exists(x) whose Load begins later answers true. |
| ProtocolSafety.ExistsSandwich | pkg/bloom/filter.go:273-303 | The answer of a non-atomic Exists lies between two snapshots: membership over the whole chain when the call began forces true, and true implies membership over the chain when it ended. |
| ProtocolSafety.RetainedExists | pkg/bloom/filter.go:273-303 | The lower half of the sandwich for a call on a handle kept from an earlier call: any stage the handle knows that held x at the start forces true. |
| ProtocolSafety.CurrentHandleExists | pkg/bloom/filter.go:273-303 | A kept handle that is as long as the chain was when the call began finds every item acknowledged by then. |
| ProtocolSafety.ExistsOnStillChain | pkg/bloom/filter.go:273-303 | An Exists during which no stage changed answers exactly whether some stage its handle knows holds x. |
| ProtocolSafety.BoundedOvershoot | pkg/bloom/filter.go:241-268 | With W clients, a stage that has a successor to grow into is never filled beyond capacity + W - 1, plus one for each increment that reached its capacity for a call cut off before the end of its growth, late increments of calls given up on included; calls that fail anywhere else cost nothing. |
| ProtocolSafety.CutOnlyWhileFilling | pkg/bloom/filter.go:255-266 | While clients move, that count goes up only when a client that filled the stage is interrupted before it has moved on, and then by one. |
| ProtocolSafety.CutOnlyByLateIncr | pkg/bloom/filter.go:255-260 | Otherwise it goes up exactly when the increment of a call given up on arrives after all and reaches the capacity, and then by one. |
| ProtocolTight.OvershootReached | pkg/bloom/filter.go:241-268 | The bound is exact: for any W >= 1 clients and any number c of calls cut off, some run of every filter that can be created fills stage 0 to precisely capacity + W - 1 + c. |
| ProtocolTight.WriteOut | pkg/bloom/filter.go:244-254 | From any reachable state with one stage a client can finish setting its bits while the others pause, changing nothing else of the filter. |
| ProtocolSafety.GrowthNotPremature | pkg/bloom/filter.go:255-266 | Stage i + 1 exists only when stage i has at least its capacity of items, in every reachable state, aborted calls included. |
| ProtocolSafety.GrowthNotMissed | pkg/bloom/filter.go:345-369 | When no call is in flight and the next stage can be sized, the newest stage is below its capacity if and only if no increment filled it for a call cut off before growing. |
| ProtocolSafety.AppendedOnce | docs/HLD.md:87 | However many clients race, exactly one step of a run appends stage i, and the stage before it was full by then. |
| ProtocolSafety.ChainAgreement | pkg/bloom/filter.go:91-109 | At every moment every stored stage has exactly the parameters computeStage gives its index, and every client's own list, loaded, extended or reloaded, is a prefix of the stored chain. |
| ProtocolSafety.RunGrows | pkg/bloom/filter.go:345-378 | Between any two moments of a run the chain only gets longer, stage parameters never change, bits and counters only grow, and no acknowledgement or increment is forgotten. |
| ProtocolSafety.ItemsConserved | pkg/bloom/estimate.go:57-63 | The fill counters always add up to the number of Incr steps taken, and a non-atomic Load followed by the sum Items computes reports a number between those at its start and end. |
| ProtocolSafety.InvAt | pkg/bloom/filter.go:241-378 | The system invariant holds in every reachable state, and every step carries the history on. |
| ProtocolSafety.NextKeepsInv | pkg/bloom/filter.go:241-378 | One step of any client, or the late arrival of a write its caller gave up on, from any state with the invariant keeps it. |
| ProtocolSafety.StepKeeps | pkg/bloom/filter.go:241-378 | Each of the sixteen client steps keeps the shared invariant and that client's own, and changes the shared state only in ways every bystander tolerates. |
| ProtocolSafety.ArrivesKeeps | pkg/bloom/filter.go:249-260 | A bit, an increment or an append that reaches the store after its client has given up keeps the shared invariant and is a change every client tolerates, at whatever stage the others are. |
| ProtocolSafety.DriftKeepsPending | pkg/bloom/filter.go:345-369 | Even if such an increment fills the newest stage, a full newest stage that no call was cut off at has a client about to append. |
| ProtocolSafety.BumpKeeps | pkg/bloom/filter.go:255-260 | The Incr step: acknowledged items stay members, the overshoot of a stage is paid for by distinct clients, each at most once. |
| ProtocolSafety.WinKeeps | pkg/bloom/filter.go:345-369 | The step that wins the append race keeps all invariants, with the winner's list extended by the stage it wrote. |
| ProtocolSafety.LoseKeeps | pkg/bloom/filter.go:345-378 | A client that loses the race changes no stage; told idx + 1 it extends its own list correctly, told more it goes to reload, and on overflow it fails. |
| ProtocolSafety.Bystander | pkg/bloom/filter.go:168-378 | A client in the middle of Load, Add or Exists keeps its invariant through any tolerable change made by others. |
| ProtocolSafety.BystanderLate | pkg/bloom/filter.go:255-266 | The same for the bookkeeping that bounds overshoot. |
| ProtocolSafety.AppendStaysPending | pkg/bloom/filter.go:345-369 | While the newest stage is full and no call was cut off there, some client is about to append. |
| ProtocolProgress.NeverStuck | pkg/bloom/filter.go:168-378 | In every reachable state a client in the middle of a call can take its next step at once; no guard of the model hides a behaviour and nobody waits. |
| ProtocolProgress.CallsAdvance | pkg/bloom/filter.go:345-378 | Every step of a call strictly lowers a well-founded rank whatever others do, so each call ends; a lost race costs one reload. |
| ProtocolSolo.SoloAddIsAddOf | pkg/bloom/filter.go:241-268 | An Add nobody interleaves, through a fresh or a kept handle, ends with exactly the chain, handle and outcome that Filter.Add is proved to produce. |
| ProtocolSolo.SoloExistsIsMember | pkg/bloom/filter.go:273-303 | An Exists nobody interleaves leaves the chain alone and answers as Filter.Exists is proved to. |
| Tenants.ProductOnStore | pkg/store/memstore.go:32-171 | Any number of filters, each with any number of clients, run concurrently over one store while filters are created and dropped: every step of a client is at most one store call, and at every moment the store represents all the chains. |
| Tenants.Project | pkg/bloom/filter.go:48-60 | Leaving out everybody else's steps, creations and drops, what remains of one filter from its creation on is a run of its own protocol, state for state; so all that is proved of one filter's runs holds of it among others. |
| Tenants.TurnOnStore | pkg/bloom/filter.go:113-165 | One turn of the product, be it a client's step, a late write, New or Drop, done by its store calls, takes a store that represents all filters to one that does. |
| Tenants.LoadDuringRun | pkg/bloom/filter.go:168-238 | A Load at any moment sees exactly its own filter's chain, whatever the clients of other filters are in the middle of, and does not find a filter that is not there. |
| Bridge.RunOnStore | pkg/store/memstore.go:32-171 | Every concurrent run is matched step for step by MemStore states on rendered string keys: each step is at most one store call, and the store represents the shared chain at every moment. |
| Bridge.StepRefines | pkg/bloom/filter.go:168-378 | Any step of the code is its one store call, or none; the client's whole next state is what the code computes from the answer, and a step without a call could be taken whatever the store held. |
| Bridge.LoadExplained | pkg/bloom/filter.go:173-227 | The stage count, stage parameters and fill a Load step takes are the parsed contents of the meta hash, the stage hash and the counter over its seed, and nothing else about the client changes. |
| Bridge.ProbeExplained | pkg/bloom/filter.go:282-296 | A probe step reads exactly the stored bit of its flat index. |
| Bridge.WriteRefines | pkg/bloom/filter.go:249-254 | A single SETBIT on the shard key sets exactly the flat bit in the shared stage. |
| Bridge.BumpRefines | pkg/bloom/filter.go:255-260 | INCR on the fill key bumps the shared counter and answers the new fill the client stores. |
| Bridge.GrowRefines | pkg/bloom/filter.go:345-369 | AppendStage on the meta key is the shared compare-and-append, and the returned count decides between extending and reloading as the code does. |
| Bridge.ArrivesRefines | pkg/store/memstore.go:32-171 | A write that arrives late is the same store call it would have been in time, and the store goes on representing the chain. |
| Bridge.LateOpIsClients | pkg/bloom/filter.go:249-260 | What can be left adrift is exactly the call the client was waiting for: one of its pipelined bits, its Incr, or its AppendStage. |
| Bridge.LoadAfterRun | pkg/bloom/filter.go:168-238 | Whenever a run pauses, a Load of the store returns exactly the shared chain, and Loads of all other names return what they did before the run. |
| Bridge.EngineAppendsAgree | pkg/store/valkey.go:176-190 | On every store that represents a valid world, the Lua script and MemStore.AppendStage give the same reply and the same hashes for every stage the filter's name can be given, winner or loser. |
| Runs.ServeAll | internal/service/service.go:91-156 | For every finite sequence of Create/Add/Exists/Stats/Delete over many names, every reply and error kind equals the reference catalogue's, the registry lists exactly the live names, and the store represents exactly the final catalogue. |
| Runs.TenantIsolation | api/openapi.yaml:226 | Over whole runs, the replies to one filter's calls and what is kept of it are the same as if no other filter had ever been called. |
| Runs.NoFalseNegatives | docs/PRD.md:43 | In any sequential run, once Add(x) answered without complaint every later Exists(x) answers true until that filter is deleted. |
| Runs.AddRecords | internal/service/service.go:103-116 | An Add records its item exactly when it is not refused for an empty or unknown name. |
| Runs.AddFailsExactly | pkg/bloom/filter.go:345-350 | An Add on a live filter always records its item, and fails if and only if, before it, the newest stage was one short of capacity or full and the next stage cannot be sized. |
| Runs.AddFailure | pkg/bloom/filter.go:345-350 | On a live filter the only error Add can report is the size overflow of the next stage. |
| Runs.GrowthFailsOnlyBySize | pkg/bloom/sizing.go:83-127 | Once stage 0 could be sized, no later stage fails for any reason but size. |
| Runs.SessionLeavesNoTrace | pkg/bloom/filter.go:321-343 | Any calls on a free name that end with Delete take the catalogue back to what it was. |
| Runs.StoreRoundTrip | pkg/bloom/filter.go:321-343 | Create, any adds and reads, Delete is a store round trip: hashes, bitmaps and counters end equal to what they were, set members too, so nothing stale remains. |
| Runs.CreateAndFill | pkg/bloom/filter.go:113-238 | Persistence round trip: after New and any Adds through the one handle, a fresh Load returns a handle equal in n, p, r, s, every stage's M, K, capacity and live fill. |
| Runs.AddAll | pkg/bloom/filter.go:241-268 | Any number of Adds through one current handle keep it current and append the items in order. |
| Runs.CurrentStaysCurrent | pkg/bloom/filter.go:241-268 | An Add through a handle that shows the whole chain leaves it showing the whole new chain, live counts included. |
| Service.FilterService.Handle | internal/service/service.go:91-156 | One service call of any kind: reply and catalogue as the reference service says, with the store still representing the catalogue. |
| Service.FilterService.Create | internal/service/service.go:91-101 | Create replies with the sized stage 0 or the mapped error, and the catalogue gains the filter exactly on success. |
| Service.FilterService.Add | internal/service/service.go:103-116 | Load then Add: the item is appended to the filter's list; unknown and empty names are reported. |
| Service.FilterService.Exists | internal/service/service.go:118-131 | Load then Exists: the answer is exact membership over the items cut into stages. |
| Service.FilterService.Stats | internal/service/service.go:133-142 | Load then Stats: every number reported is the one the item list determines. |
| Service.FilterService.Delete | internal/service/service.go:144-156 | Load then Drop: the filter leaves the catalogue and the store. |
| Service.FilterService.ListFilters | pkg/bloom/estimate.go:69-71 | Exactly the live names, each once. |
| Service.FilterService.ToInfos | internal/service/service.go:194-208 | As many infos as stages, and the index, m, k, capacity and fill of each are those of the stage in its place. |
| Service.FilterService.constructor | internal/service/service.go:75-77 | A service may start over any store that holds valid filters, and then represents exactly those. |
| Service.LoadFinds | pkg/bloom/filter.go:168-238 | The Load every call starts with fails on exactly the empty and the unknown names and otherwise shows the filter's current chain. |
| Promises.CreateReply | internal/service/service.go:91-101 | Outright: an empty name, n = 0 or p outside (0, 1) is an invalid argument; else a live name already exists; else a stage 0 whose size does not fit is the size overflow; in no other case does Create fail, and then the reply has the name, one stage and the right m and k of stage 0, and the filter is new and empty. |
| Promises.StatsReply | internal/service/service.go:133-142 | Outright: the reply has the filter's n and p, r = 0.9 and s = 2; stage i has capacity n 2^i and the right m and k; every stage but the last is full, the fills make up the items added, and the last has room unless no successor fits. |
| Promises.RightStatsOnce | internal/service/service.go:188-210 | Only one reply meets all that. |
| Promises.ExistsReply | internal/service/service.go:118-131 | Outright: true exactly when, in some stage of the Stats reply, every position of the item is a position of an item that stage took; stage i took the items from number n(2^i - 1) on, as many as its fill. |
| Promises.AddReply | internal/service/service.go:103-116 | Outright: the item is appended, and the call fails exactly when with it all L stages are full, N + 1 >= n(2^L - 1), and stage L has no size that fits. |
| Promises.DeleteReply | internal/service/service.go:144-156 | The filter is gone and every other is as it was. |
| Promises.ItemsAreAdds | internal/service/service.go:103-116 | Over a run, a filter's items are those of all Adds to it since its Create, in order, whatever else was called short of its Delete. |
| Promises.StatsInRun | internal/service/service.go:133-142 | So every Stats reply in a run is determined by the Create and those Adds. |
| Service.ServeKeepsValid | internal/service/service.go:91-156 | The reference service keeps a valid catalogue valid. |
| Engine.Filter.New | pkg/bloom/filter.go:113-165 | New on any store, every check in order and the three writes, as a function of the store. |
| Engine.Filter.Load | pkg/bloom/filter.go:168-238 | Load on any store, malformed ones included: the first failing read decides the error, the counter overrides the seed. |
| Engine.Filter.Add | pkg/bloom/filter.go:241-268 | Add through a current or out-of-date handle: the chain gets the bits, the count and perhaps one stage; result, store and handle are all determined; nothing else in the store changes. |
| Engine.Filter.WriteBits | pkg/bloom/filter.go:244-254 | The SetBits calls over arbitrary shard order add exactly the item's flat bits. |
| Engine.Filter.AppendNewStage | pkg/bloom/filter.go:345-369 | Overflow leaves everything alone; otherwise compare-and-append, then extend or reload. |
| Engine.Filter.Reload | pkg/bloom/filter.go:371-378 | Reload succeeds and the handle shows the stored chain. |
| Engine.Filter.Exists | pkg/bloom/filter.go:273-303 | True if and only if some stage the handle knows holds every position of the item. |
| Engine.Filter.AllSet | pkg/bloom/filter.go:278-300 | One stage: the early-breaking scan over arbitrary group order decides whether all flat bits are set. |
| Engine.Filter.AllTrue | pkg/bloom/filter.go:288-293 | The inner loop's flag is the conjunction of the bits read. |
| Engine.Filter.Drop | pkg/bloom/filter.go:321-343 | Deletes exactly the listed keys and unregisters the name. |
| Engine.Filter.Stats | pkg/bloom/filter.go:306-318 | A snapshot, even of an out-of-date handle, carries the stored n, p, r, s, and every stage in it is exactly the one computeStage gives its index, the fill aside, which is the handle's. |
| Engine.Filter.constructor | pkg/bloom/filter.go:156-164 | The handle carries exactly the loaded or created fields. |
| Engine.AddKeepsValid | pkg/bloom/filter.go:241-268 | Add keeps every invariant of a stored filter: bits below m, planned parameters, counters in range. |
| Engine.GroupRead | pkg/bloom/filter.go:282-296 | A GetBits reply is all true exactly when the stage holds every flat index of the group. |
| Engine.ConfigIsSound | pkg/bloom/filter.go:91-109 | computeStage yields M, K and capacity at least 1 and the index asked for, or an error. |
| Persist.LoadUnderRep | pkg/bloom/filter.go:168-238 | On a store of valid filters Load finds exactly the live names and reads parameters, stages and live counts back as written. |
| Promises.NewExactly | pkg/bloom/filter.go:113-165 | On any store whatever: the five refusals in their order, none of which writes, and otherwise a handle on one empty stage of the right size, with the name registered. |
| Promises.LoadExactly | pkg/bloom/filter.go:168-238 | On any store whatever: Load gives a handle if and only if the meta hash and each stage hash it counts parse to that handle, the counter replacing the seed when there is one. |
| Promises.LoadFails | pkg/bloom/filter.go:168-238 | Every failure is told apart: no name, no hash, a negative count, or else a number that does not parse. |
| Persist.LoadStagesFails | pkg/bloom/filter.go:202-227 | A stage that cannot be read fails the whole Load with that stage's error. |
| Persist.NewUnderRep | pkg/bloom/filter.go:113-165 | A free name with valid arguments is created with one empty stage and no stale bits or counts; any refusal leaves the store untouched; all else in the store stays. |
| Persist.DropListComplete | pkg/bloom/filter.go:321-336 | Every key a filter ever wrote is on the list a current handle drops. |
| Persist.DropUnderRep | pkg/bloom/filter.go:321-343 | Drop through a current handle removes the filter and nothing else. |
| Persist.MetaReadBack | pkg/bloom/filter.go:137-150 | The filter's meta hash has its six fields and no other, and each is read back unchanged. |
| Persist.ParamsInRange | pkg/bloom/filter.go:91-109 | Stored parameters fit their machine types, and a chain has at most 64 stages. |
| Layout.RepDetermines | pkg/bloom/filter.go:48-60 | The set of filters determines the whole store, cell by cell; hashes, bitmaps and counters outright. |
| Layout.Updates | pkg/bloom/filter.go:48-60 | Frame rule: writing the cells of some keys changes the filters at exactly those keys. |
| Layout.IsolationByParameters | pkg/bloom/filter.go:48-109 | The same by what New was given: two filters share a key if and only if one name is the other followed by :s and an index to which all of the other's stages can be sized from its n and p. |
| Layout.PlainFamily | api/openapi.yaml:226 | Names without a colon form a family in which any filter may have any stages. |
| Layout.StageRoundTrip | pkg/bloom/filter.go:62-89 | A stage written by stageToMap has its four fields, each parsing to its own value, and is read back unchanged by mapToStage. |
| Layout.SetBitsStep | pkg/bloom/filter.go:249-254 | SetBits on one shard key adds exactly the corresponding flat bits of one stage of one filter. |
| Layout.GetBitsStep | pkg/bloom/filter.go:282-289 | GetBits on one shard key reads exactly those flat bits, in order. |
| Layout.IncrStep | pkg/bloom/filter.go:255-260 | Incr on the fill key bumps one stage's count, returns it, and touches nothing else. |
| Layout.AppendStep | pkg/store/store.go:41-46 | AppendStage is the atomic compare-and-append on one filter's chain: the loser changes nothing and learns the current count. |
| Reference.AddIsAppend | pkg/bloom/filter.go:241-268 | The growing chain refines a plain list: Add through a current handle is appending the item, stages, bits, counters, growth and error included. |
| Reference.CutExact | pkg/bloom/filter.go:255-266 | Cutting items into stages is exact: the parts make up the list, every part but the last fills its stage, the last has room unless it can have no successor. |
| Reference.CutSnoc | pkg/bloom/filter.go:255-266 | One more item goes to the last part, and a new empty part follows exactly when that fills a stage whose successor can be sized. |
| Reference.CutSlices | pkg/bloom/filter.go:255-266 | Part j is the run of items that begins where the capacities of the stages before it end. |
| Reference.MembershipExact | pkg/bloom/filter.go:270-303 | The bit-level disjunction over stages holds of x exactly when, in some stage, every position of x is a position of some item added to that stage. |
| Reference.AddedIsFound | pkg/bloom/filter.go:270-303 | Every added item satisfies the exact membership condition. |
| Reference.KnownStagesExactly | pkg/bloom/filter.go:273-303 | Through a handle that knows the first L stages, the bit-level answer is exact membership over the items of those stages. |
| Reference.MissedExactly | pkg/bloom/filter.go:270-303 | An added item is missed through such a handle if and only if it collides in none of the first L parts; then L is less than the chain's length and the item is in none of those parts. |
| Reference.AddResultExactly | pkg/bloom/filter.go:255-266 | Add's error, by the state before it: the newest part one short of capacity or full, and the next stage without a size. |
| Reference.ExactStageCount | pkg/bloom/sizing.go:103-127 | After N adds, duplicates counted, the stages number L with n(2^(L-1) - 1) <= N < n(2^L - 1), and every older stage holds exactly its capacity n 2^i. |
| Reference.AttainableExactly | pkg/bloom/filter.go:255-266 | A filter can come to have stage i if and only if stages 0 to i can all be sized; then some list of items takes it there. |
| Reference.StageCountUnique | pkg/bloom/sizing.go:103-127 | No other number satisfies those bounds. |
| Reference.GeometricSum | pkg/bloom/sizing.go:103-127 | The first L stages have capacity n(2^L - 1) in all. |
| Keys.RenderInjective | pkg/bloom/filter.go:48-60 | Registry, meta, stage, fill and shard keys of compatible names never collide. |
| Keys.IsolationExactly | pkg/bloom/filter.go:48-60 | The keys of two filters are disjoint if and only if neither name is the other followed by :s and the number of a stage the other can have, whatever stages each may have. |
| Keys.PlainNamesCompatible | api/openapi.yaml:226 | Names without a colon, as the API admits, are always compatible. |
| Samples.NeighbourKey | pkg/bloom/filter.go:50-56 | The meta key of a:s0 is the stage-0 key of a, for every name a. |
| Samples.NeighbourRefused | pkg/bloom/filter.go:124-132 | Once a filter a exists, New refuses a:s0 as already existing, although only a is registered. |
| Samples.NeighbourLost | pkg/bloom/filter.go:321-343 | In the other order the library accepts both; dropping a then leaves a:s0 registered but impossible to load. |
| Samples.StaleHandleMisses | pkg/bloom/filter.go:270-272 | A filter with n = 1 and p = 0.5, after adding [] and [1]: the stored chain holds [1], its first stage does not. |
| Samples.StaleHandleScenario | pkg/bloom/filter.go:270-303 | Two handles on that filter, adds through the first: Exists through the second, loaded before them, answers false for an added item, through the first true. |
| Samples.BlockedAdd | pkg/bloom/filter.go:345-350 | A filter with n = 2^61 and p = 0.5 that is one item short of filling stage 0, at seven bits an item (the true figure is a little over six): whatever item comes next, Add records it and fails. |
| Keys.Spelling | pkg/bloom/filter.go:48-60 | The five kinds of key, letter by letter. |
| Keys.RenderFields | pkg/bloom/filter.go:48-60 | A key splits at its colons into the name's fields and the fixed tail of its kind. |
| Decimal.PrintParse | pkg/bloom/filter.go:62-89 | Printed numbers are read back by ParseUint, Atoi and Sscanf exactly within each parser's range. |
| Decimal.PrintParseInt | pkg/bloom/filter.go:65-65 | A printed int64 is read back by Atoi. |
| Decimal.ParseUintExactly | pkg/bloom/filter.go:62-89 | ParseUint reads v exactly from the decimal spellings of v, leading zeros allowed, when v is below 2^64. |
| Decimal.AtoiExactly | pkg/bloom/filter.go:65-65 | Atoi reads v exactly from those with at most one sign, within int64. |
| Decimal.ScanExactly | pkg/store/memstore.go:149-171 | Sscanf reads what Atoi reads from the front, up to the first character that is not a digit. |
| Decimal.FormatWidth | pkg/bloom/filter.go:50-60 | A printed number has exactly the digits base 10 needs. |
| Decimal.CanonicalExactly | pkg/store/valkey.go:12-12 | Printing and parsing are inverse exactly on spellings without leading zeros. |
| Decimal.FormatInjective | pkg/bloom/filter.go:50-60 | Different numbers print differently. |
| Store.MemStore.SetBits | pkg/store/memstore.go:32-43 | Exactly the listed offsets are set in that key's bitmap, which exists afterwards. |
| Store.MemStore.GetBits | pkg/store/memstore.go:46-55 | One answer per offset, in order; a missing bitmap reads as clear. |
| Store.MemStore.HGetAll | pkg/store/memstore.go:57-67 | The stored fields, or none. |
| Store.MemStore.HSet | pkg/store/memstore.go:69-79 | The listed fields are overwritten, the others kept. |
| Store.MemStore.Incr | pkg/store/memstore.go:81-86 | The counter goes up by one in int64 arithmetic and its new value is returned; a missing one counts as 0. |
| Store.MemStore.Get | pkg/store/memstore.go:88-97 | The printed counter, or absent. |
| Store.MemStore.SAdd | pkg/store/memstore.go:99-111 | Exactly the listed members are added. |
| Store.MemStore.SRem | pkg/store/memstore.go:113-124 | Exactly the listed members are removed; a missing set stays missing. |
| Store.MemStore.SMembers | pkg/store/memstore.go:126-135 | Every member once, in some order. |
| Store.MemStore.Del | pkg/store/memstore.go:137-147 | The listed keys vanish from all four maps and no other does. |
| Store.MemStore.AppendStage | pkg/store/memstore.go:149-171 | Compare, then replace the new hash and advance the count together; every failure and loss leaves the state as it was. |
| Store.MemStore.constructor | pkg/store/memstore.go:21-28 | A new store is empty. |
| Store.SetBitsThenGet | pkg/store/memstore.go:32-55 | A bit reads as set after SetBits exactly when it was listed for that key or set before. |
| Store.HSetThenGet | pkg/store/memstore.go:57-79 | After HSet a listed field has its new value; every other field of every hash keeps its own. |
| Store.IncrThenGet | pkg/store/memstore.go:81-97 | After Incr the counter reads one higher, 2^63 - 1 wrapping to -2^63; other counters keep their values. |
| Store.SetsThenRead | pkg/store/memstore.go:99-135 | Membership after SAdd and SRem, for every set and member. |
| Store.DelThenRead | pkg/store/memstore.go:137-147 | A deleted key reads as never written in all four maps, and every other key as before. |
| Store.AppendStageThenRead | pkg/store/memstore.go:149-171 | On any store: the two failures, the loss with the count it reports, and the win with the new hash, the count one higher and all other fields kept. |
| Valkey.AppendsAgreeExactly | pkg/store/valkey.go:11-19 | The Lua script and MemStore.AppendStage return the same value and leave the same hashes if and only if a condition on the stored count's spelling and the new key's fields holds. |
| Valkey.AppendsAgree | pkg/store/memstore.go:149-171 | In particular they agree whenever the count is a canonical decimal and the new key is free. |
| Valkey.CountStaysCanonical | pkg/store/memstore.go:149-171 | Appending keeps the count canonical. |
| Valkey.DisagreementExample | pkg/store/valkey.go:12-14 | With the count spelled 01, MemStore appends and the script declines. |
| Valkey.ValkeyStore.AppendStage | pkg/store/valkey.go:176-190 | The script's comparison, field loop and increment, as one function of the hashes. |
| Valkey.ValkeyStore.SetBits | pkg/store/valkey.go:35-51 | The pipelined batch, one single-bit write after another. |
| Valkey.ValkeyStore.GetBits | pkg/store/valkey.go:53-73 | One answer per offset, in order. |
| Valkey.ValkeyStore.HSet | pkg/store/valkey.go:16-16 | One HSET of one field. |
| Valkey.BatchIsSetBits | pkg/store/valkey.go:35-51 | A pipelined batch ends where MemStore's one call ends if and only if the batch is not empty or the key exists. |
| Valkey.WriteAllMerges | pkg/store/valkey.go:15-17 | The HSET loop overwrites exactly the listed fields, in any order. |
| Hashing.HashPartsExactly | pkg/bloom/hash.go:12-18 | h1 is the item's hash; h2 is the hash of the eight bytes that spell h1, least significant first, or 1 if that is 0. |
| Hashing.TargetsExactly | pkg/bloom/hash.go:12-43 | The i-th of the k positions an item owns is (h1 + i h2) mod 2^64 mod m, with h1 and h2 given by the hash function alone. |
| Hashing.LittleEndianExactly | pkg/bloom/hash.go:15-15 | Of all lists of eight bytes just one spells a given word, and that is the one hashed again. |
| Hashing.Positions | pkg/bloom/hash.go:34-43 | k probes, each below m, as wrapping double hashing gives them; none for k <= 0. |
| Hashing.ProbeWrapsOnce | pkg/bloom/hash.go:40-40 | Wrapping the product and the sum at 2^64 is wrapping once before the reduction mod m. |
| Hashing.ProbesAdvance | pkg/bloom/hash.go:20-28 | With the forced non-zero step, consecutive probes never coincide before the reduction mod m. |
| Shard.SplitJoin | pkg/bloom/shard.go:21-26 | Splitting a bit index into shard and offset and joining it again are inverse both ways, and the index is 2^25 times the shard plus the offset. |
| Shard.GroupByShard | pkg/bloom/shard.go:32-39 | The loop yields exactly the shards hit, each with its offsets in order. |
| Shard.GroupsExact | pkg/bloom/shard.go:32-39 | An offset is listed under a shard exactly when the flat index they denote was asked for; no group is empty. |
| Shard.GroupsInOrder | pkg/bloom/shard.go:32-39 | A group lists the positions of its shard in their order, duplicates included. |
| Shard.FlatOfGroups | pkg/bloom/shard.go:32-39 | The groups together denote exactly the positions asked for. |
| Shard.ShardBelowCount | pkg/bloom/filter.go:327-333 | Every position below m lies in a shard Drop counts. |
| Shard.ShardCountExactly | pkg/bloom/filter.go:327-333 | Drop counts exactly the shards some position below m lies in. |
| Sizing.OptimalMLeast | pkg/bloom/sizing.go:48-62 | m is the integer with (m - 1) ln2^2 < -n ln(p) <= m ln2^2, refused exactly when that integer does not fit 64 bits. |
| Sizing.OptimalKNearest | pkg/bloom/sizing.go:67-76 | k is the integer nearest to (m / n) ln2, a half rounded up, or 1 when that would round to none. |
| Promises.ComputeStageExactly | pkg/bloom/filter.go:91-109 | For any ratios: the capacity is n s^i rounded down, m and k are the least bits and the nearest hashes for that capacity at error rate p(1 - r)r^i; bad arguments are refused in order, and a stage exactly when those numbers do not fit. |
| Promises.StageSizeOnce | pkg/bloom/filter.go:91-109 | Those conditions leave one capacity, one m and one k. |
| Sizing.CapacityDoubles | pkg/bloom/sizing.go:107-127 | With the default ratio the capacity of stage i is exactly n 2^i, or a size overflow. |
| Sizing.AtMost64Stages | pkg/bloom/sizing.go:119-126 | A chain can never have more than 64 stages. |
| Sizing.ComputeStage | pkg/bloom/filter.go:91-109 | A sized stage has the index asked for, no fill, and M, K, capacity at least 1 and in range. |
| Estimate.FillRatio | pkg/bloom/estimate.go:17-27 | The loop computes the number that, times the wrapping sum of the capacities, is the wrapping sum of the fills, and 0 when there is no capacity. |
| Estimate.FillRatioExact | pkg/bloom/estimate.go:17-27 | On a freshly loaded filter with N adds and L stages the ratio is N / (n(2^L - 1)), below 1 whenever the next stage can be sized. |
| Estimate.Items | pkg/bloom/estimate.go:57-63 | The loop computes the wrapping sum of the fills. |
| Estimate.ChainSums | pkg/bloom/estimate.go:57-63 | The fills of a freshly loaded filter sum to the number of adds. |
| Estimate.EstimatedFPP | pkg/bloom/estimate.go:42-53 | The loop computes one minus the product of 1 - q over the stages, where q is 0 for a stage without bits or hashes and otherwise (1 - e^x)^k for the x with x m = -k fill. |
| Estimate.EstimateExactly | pkg/bloom/estimate.go:42-53 | The recursive form the order theorems use is that product. |
| Estimate.StageFppOrder | pkg/bloom/estimate.go:42-53 | A stage's estimate is in [0, 1), 0 when empty, and never falls as it fills. |
| Estimate.FppMonotone | pkg/bloom/estimate.go:42-53 | The estimate is in [0, 1) and never decreases as stages fill. |
| Estimate.FppFreshStage | pkg/bloom/estimate.go:42-53 | Appending a fresh stage leaves the estimate unchanged. |
| Estimate.FppGrows | pkg/bloom/estimate.go:42-53 | The estimate never decreases as a chain grows in fill and in length, so not over any concurrent run either. |
| Estimate.AddNeverLowersFpp | pkg/bloom/filter.go:241-268 | No Add, through whatever handle, lowers the estimate, which stays in [0, 1). |
| Estimate.FppUnionBound | pkg/bloom/estimate.go:42-53 | The compounded estimate never exceeds the sum of the per-stage estimates. |
| Estimate.BudgetExact | pkg/bloom/sizing.go:83-101 | The stage budgets sum to exactly p(1 - r^L), below p for every L. |
| Estimate.BudgetInUnit | pkg/bloom/sizing.go:83-101 | Every stage's budget is itself an admissible error rate. |
| Estimate.CompoundedBelowTarget | pkg/bloom/sizing.go:78-101 | Any per-stage rates within their budgets compound to at most their sum, which is below p. |
| Runtime.SoundIsSatisfiable | pkg/bloom/filter.go:139-141 | The assumptions made of the hash, the math package and the float conversions do not contradict each other. |

## Left out

- HTTP, configuration, logging, tracing, metrics and deployment, and the FilterSamples cap: plumbing with no hard property.
- xxhash itself and every statistical claim: the hash is an arbitrary function of the bytes, and no stage's true error rate is claimed to meet its budget, because k is rounded.
- Floating-point rounding: p, r, s and all rates are reals, NaN does not occur, and printing and parsing a float64 is assumed to be a round trip (`Runtime.Env.Sound`, shown satisfiable).
- Sizes of exactly 2^64: the source's guards compare as floats and admit that one value, whose conversion Go leaves open; the model reports a size overflow.
- Racing New calls for one name: the existence check and the three writes are separate calls, and a late second writer can reset the stage count. Clients of the concurrent model start after New has returned, and among many filters a New that succeeds is one step.
- Drop while other calls on the same name are in flight or their writes adrift, and Drop through an outdated handle: the code gives no guarantee there. Drop is sequential, or one step while the filter is quiet and others are not.
- A handle kept beyond the Drop of its filter: it can write to keys that nothing lists.
- Store failures, timeouts and cancellation in the sequential model; in the concurrent one a call may be given up at any point and what it had sent may still take effect then or later, once.
- MemStore's mutex and inner maps: each method is one atomic step, and bitmaps, hashes and sets are values inside the four map fields, so no aliasing of an inner map is modelled.
- ValkeyStore's single-command methods: each is one server command with MemStore's meaning; only AppendStage, SetBits and GetBits are modelled, and the empty-argument early returns of the others are not.
- The clock: created_at is a parameter.
- Leading white space before a count in MemStore's Sscanf: the engine never writes any.
- ProtocolSafety.BoundedOvershoot: does not bound a stage whose successor cannot be sized, because there the source goes on filling it (`Runs.AddFailsExactly`).
- Sizing.OptimalKNearest: reports a size overflow for a hash count of 2^63 or more, where the source converts such a float64 to int with a result Go leaves open.
- Bridge.RunOnStore: covers runs whose increments fit an int64 counter, as does Tenants.ProductOnStore; the protocol's own counters are unbounded.
- Runs.ServeAll: covers runs of fewer than 2^63 calls, the range of the counters, and families of names that leave room for every stage the filters created can get, the exact condition for isolation (`Layout.IsolationByParameters`, `Layout.PlainFamily`).
- Engine.Filter.Add: requires the newest known stage's counter to be short of 2^63 - 1 and the handle to hold a stage, because int64 overflow and an empty handle are never reached from New.
