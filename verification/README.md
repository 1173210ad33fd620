# Extension scaffold: a verified model

This project models the parts of the extension scaffold in which something can go wrong between
steps, between threads, between runs, or between two programs that must agree, and proves what those
parts promise. `dafny verify dfyconfig.toml` checks all of it.

**The extension server** (`Contract`, `GoExtension`, `PythonServer`, `TypeScriptServer`, `Agreement`,
`Service`, `SharedMemory`, `Linearizability`, `LockedServers`, `UnlockedServers`, `PromiseQueue`, `QueuedServer`;
`Encoding`, `Names`, `Dispatch` and `Json` underneath).
`Contract` is one sequential machine: decode, dispatch, validate, count, respond. Each of the three
implementations is written out in its own form, as a class with its own control flow, and every method
is proved to do what the machine does. `Service` says what that is from the outside: the texts, numbers,
status codes and wire bytes of every request, spelled out. Two step systems then add concurrency. In `LockedServers` each
reference to a shared field is a step of its own, an increment being a load and a store; Go locks only
its critical section and shares the lock between state reads, Python locks whole handlers; every run is
linearizable, and once calls stop arriving every schedule answers them all. `UnlockedServers` is the same
machine without the lock, which is not linearizable. `PromiseQueue` models promises, reactions and the microtask queue, with the callers that
await their jobs, the adoption of an async handler's promise, and microtasks of other code. It shows
that the `queue` field starts jobs first in, first out, one at a time, past rejected ones, within a
bound that is met; `QueuedServer` puts requests on it, refused ones included, and every run is
linearizable.

**TEE registration** (`Registration`). A run of `register-tee` is a function of a script that says how
each outside effect turned out: a transaction mined, not mined, or mined and not seen; a save written,
failed, or cut short before or after. Any sequence of such runs is a history of crashes and resumes.

**Extension ids** (`ExtensionLatch`). The contract's scan and one-time latch over an append-only
registry, the R2 and R7 deployment checks over the same registry, and the theorem that joins them.

**Env files** (`EnvText`, `UseChain`, `Activation`, `ExtensionEnv`). `get_val` and `set_kv` on arbitrary text, the
scaffolding and activation of `use-chain.sh`, and the two Go parsers of the file `pre-build.sh` prints.

**Reports, funds, the test sequencer** (`Report`, `Funds`, `Sequencer`). The filter that overwrites the
array it reads, the grouped print, the deploy-cost comparison, and weighted rotation with restarts and
a stale-lock wait.

Some promises turned out to hold only under a condition. Each has a lemma giving the condition, and
where it helps a lemma giving an input that fails:

- Signed `data` is not byte-exact across languages "naturally", as docs/extension-contract.md:164-168
  has it: it is exactly for names, and in a farewell reasons, of ASCII characters below DEL without `<`,
  `>` and `&` (`Agreement.SignedBytesPortable`, `Agreement.SignedFarewellsPortable`,
  `Agreement.AmpersandDiffers`).
- A name read back from its bytes32 form is the name in Python always, in TypeScript exactly if it does
  not begin with a byte order mark, which the decoder drops (`Names.NameRoundTrip`).
- An availability check carries the latest attestation over all crashes and resumes only if every run
  uses the same command (`Registration.ChecksAreFresh`); with any command and any state file, exactly
  when `WillBeFresh` held once the run had removed or kept that file (`Registration.FreshExactlyWhen`,
  `Registration.ChangedCommandGoesStale`).
- R2 and R7 together predict the latched id exactly when that id is public and below the counter and no
  public id below it that went unanswered is registered to the contract
  (`ExtensionLatch.VerifierPredictsLatch`). Told from the answers alone, a pass is proof exactly when the
  id is public, below the counter, and every public id below it was answered
  (`ExtensionLatch.PassProvesLatch`). `UnansweredQueryMisleads` and `ReservedIdMisleads` are passes that
  predict wrongly.
- The `0x` prefix is optional on every identifier but the empty one and one that starts with it
  already (`Dispatch.PrefixIrrelevant`).
- `use-chain.sh --language` loses the text of `.env` exactly when `LosesEdits` holds before the call
  (`UseChain.EditsSurvive`, `UseChain.LanguageLosesEdits`). Across several activations the one backup
  keeps the last edit found unsaved, so a second edit loses the first (`UseChain.EditsAcrossActivations`,
  `UseChain.SecondEditLosesFirst`). The `CHAIN=` line appended after activation is never needed
  (`UseChain.ActiveNamesChain`).
- A key set twice in extension.env is read by the Go parsers as its last value and by the scripts as its
  first (`ExtensionEnv.DuplicatesDisagree`); beyond int64 the R7 check passes unseen
  (`ExtensionLatch.HugeCounterPasses`).
- The report's summary adds up exactly when every status has a name (`Report.CountsAddUp`).

## Model

| member | source | states |
|---|---|---|
| Encoding.HexToBytes | typescript/src/base/encoding.ts:16-35 | decodes pair by pair; throws exactly on odd length or a non-hex digit after the prefix |
| Encoding.BytesToHex | typescript/src/base/encoding.ts:38-42 | the appending loop writes the digit pairs of every byte, in order, behind 0x |
| Encoding.DecodeEncode | typescript/src/base/encoding.ts:37-42 | decoding undoes encoding for every byte string |
| Encoding.EncodeDecode | typescript/src/base/encoding.ts:10-42 | encoding what was decoded gives the lower-case 0x form of the text |
| Encoding.EncodeInjective | typescript/src/base/encoding.ts:38-42 | different byte strings have different hex |
| Encoding.TrimUnique | typescript/src/base/encoding.ts:71-73 | the trimmed string is the only prefix without a trailing NUL that leaves nothing but NULs |
| Encoding.Bytes32RoundTrip | python/base/encoding.py:30-51 | encode then trim is the identity on at most 32 bytes without a trailing NUL |
| Encoding.Bytes32Collision | python/base/encoding.py:30-39 | two names share a bytes32 if and only if they differ in trailing NULs alone |
| Encoding.FromHexSpaceless | python/base/encoding.py:12-22 | without whitespace the scanning decoder accepts exactly even runs of hex digits, as pairs |
| Encoding.PythonExtendsTypeScript | python/base/encoding.py:12-22 | whatever TypeScript's decoder accepts, Python's accepts with the same bytes |
| Encoding.DecodersAgree | python/base/encoding.py:12-22 | without whitespace and without a doubled prefix both decoders accept and reject alike |
| Names.CharRoundTrip | typescript/src/base/encoding.ts:51-51 | a character's UTF-8 decodes to it and its own length, whatever follows |
| Names.TextRoundTrip | python/base/encoding.py:36-51 | the replacing decoder gives back every encoded text |
| Names.StringToBytes32Hex | typescript/src/base/encoding.ts:50-58 | the UTF-8 of the name, right-padded with zero bytes to 32; throws exactly beyond 32 bytes |
| Names.Bytes32HexToString | typescript/src/base/encoding.ts:64-74 | the text of the bytes without trailing NULs; bad hex reads as empty; the name that was encoded, unless it began with a byte order mark |
| Names.NameRoundTrip | python/base/encoding.py:30-51 | a name that fits and has no trailing NUL survives bytes32 always in Python, in TypeScript if and only if it has no byte order mark in front |
| Names.NamesDiffer | python/base/encoding.py:30-39 | such names have the same bytes32 if and only if they are the same text |
| Encoding.WhitespaceBetweenPairs | python/base/encoding.py:22-22 | whitespace around pairs is skipped and inside a pair refused |
| Dispatch.Framework.Handle | python/base/types.py:120-129 | appends under the bytes32 forms of both names; a name over 32 bytes of UTF-8 stores nothing |
| Dispatch.Framework.Lookup | typescript/src/base/types.ts:105-116 | two passes over the list find what the map says: exact pair, else wildcard, else nothing |
| Dispatch.FirstWins | python/base/types.py:136-141 | in the map, the earliest registration of a pair wins |
| Dispatch.Absent | python/base/types.py:136-142 | a pair is in the map if and only if it was registered |
| Dispatch.OrderIrrelevant | docs/extension-contract.md:197-199 | with distinct pairs every permutation of the registrations gives the same map |
| Dispatch.CaseIrrelevant | python/base/types.py:145-152 | identifiers that differ in letter case normalize alike |
| Dispatch.PrefixIrrelevant | typescript/src/base/types.ts:120-124 | dropping 0x changes nothing if and only if the rest is not empty and has no second prefix |
| Dispatch.EncodedIsNormal | typescript/src/base/types.ts:96-108 | what registration stores is already in the form lookup compares |
| Dispatch.NamesReachTheirOwn | docs/extension-contract.md:197-199 | a name without trailing NULs reaches the first handler of exactly that pair, failing that its type's first wildcard, and nothing else |
| Json.EscapeAllAlike | docs/extension-contract.md:164-168 | two JSON writers produce the same text if and only if they treat each of its characters alike |
| Json.PayloadAlike | docs/extension-contract.md:164-168 | the same for the whole payload object |
| Json.AllThreeAlike | docs/extension-contract.md:164-168 | all three writers agree exactly on ASCII below DEL without the three characters Go escapes |
| Json.WrittenTextReads | python/app/handlers.py:98-100 | a JSON reader gets back any text, whichever language wrote it |
| Json.WrittenNumberReads | python/app/handlers.py:98-100 | numbers are written in decimal without leading zeros |
| Json.BareExactlyWhen | docs/extension-contract.md:164-168 | which characters each language leaves unescaped |
| Contract.NumberingIsGapless | go/internal/extension/extension.go:119-130 | over any request sequence the numbers handed out are 1..count in order, and the last text is number count's |
| Contract.GaplessStep | python/app/handlers.py:65-100 | one more call keeps that; a call that is not counted changes none of the four fields |
| Contract.LogTellsStatus | docs/extension-contract.md:183-191 | the log begins with error exactly at status 0 and is ok exactly at status 1 |
| Contract.LogTellsOutcome | go/internal/extension/utils.go:34-54 | in every result to any request, log ok goes with a numbered payload and a changed state, an error log with neither |
| Contract.IdentifiersDistinct | contracts/InstructionSender.sol:16-24 | the two commands are different bytes32 values and neither is the wildcard |
| Contract.RoutesAreASwitch | go/internal/extension/extension.go:70-103 | lookup in the route table is the two-level switch |
| Contract.RegisteredTable | python/app/handlers.py:49-52 | the two registrations make up the route table |
| Service.IdentifiersOnTheWire | contracts/InstructionSender.sol:16-24 | the op type and both commands as bytes32, digit by digit |
| Service.DenotesIsHexBytes | docs/extension-contract.md:113-122 | which hex text each language accepts and for which bytes, from the values of the digits up |
| Service.WelcomeIsWellFormed | go/internal/extension/extension.go:64-68 | what each language requires of an envelope before dispatch |
| Service.HelloCounts | go/internal/extension/extension.go:105-133 | a hello with a name adds one to greetingCount, remembers and returns the greeting under that number with status 1 and log ok, and leaves the farewell fields |
| Service.GoodbyeCounts | go/internal/extension/extension.go:135-161 | a goodbye with a name does so for the farewells |
| Service.UndecodableFails | python/app/handlers.py:69-86 | a payload that does not decode gives status 0, an explanation, no data, and the same state |
| Service.EmptyNameFails | typescript/src/app/handlers.ts:82-86 | an empty name gives status 0, its explanation, no data, and the same state |
| Service.StateIsShown | python/base/server.py:168-173 | a state read shows the four fields in place and the version as bytes32, and changes nothing |
| Service.RefusedExactlyWhen | python/base/server.py:95-135 | 404, 405, 400 and 501 each occur on their own requests and no others, and change nothing |
| Service.CountersMoveExactlyWhen | docs/extension-contract.md:195-201 | greetingCount changes if and only if the request is a hello with a name, farewellCount if and only if a goodbye with one |
| Service.DataOnTheWire | go/internal/extension/extension.go:126-130 | the payload bytes: one object of the text, readable by any JSON reader, and the number in decimal |
| GoExtension.ParseHash | go/internal/extension/extension.go:65-68 | succeeds exactly on 32-byte prefixed hex and encodes back to its lower-case form |
| GoExtension.Extension.New | go/internal/extension/extension.go:32-41 | starts in the initial state |
| GoExtension.Extension.StateHandler | go/internal/extension/extension.go:44-55 | answers as the sequential machine answers a state read |
| GoExtension.Extension.ProcessSayHello | go/internal/extension/extension.go:106-133 | new state and reply are the machine's, on every payload |
| GoExtension.Extension.ProcessSayGoodbye | go/internal/extension/extension.go:136-161 | new state and reply are the machine's, on every payload |
| GoExtension.Extension.ProcessAction | go/internal/extension/extension.go:64-103 | the nested switch dispatches as the registry specification does |
| GoExtension.Extension.ActionHandler | go/internal/extension/utils.go:16-32 | decoding failures answer 400 and change nothing; the rest is the machine's |
| GoExtension.Extension.Handle | go/internal/extension/extension.go:35-37 | every request, routed or refused, has the machine's effect and reply |
| GoExtension.RoutedLikeTheSwitch | go/internal/extension/extension.go:70-103 | comparing decoded hashes picks the same handler as comparing encoded names |
| GoExtension.HashesMatch | go/internal/extension/extension.go:71-90 | a hash equals a padded name if and only if their hex texts are equal |
| PythonServer.Register | python/app/handlers.py:49-52 | the registry then holds exactly the contract's routes |
| PythonServer.Server.constructor | python/base/server.py:32-55 | a new server has all routes and the initial state |
| PythonServer.Server.HandleSayHello | python/app/handlers.py:65-100 | new state and result are the machine's, on every payload |
| PythonServer.Server.HandleSayGoodbye | python/app/handlers.py:103-129 | new state and result are the machine's, on every payload |
| PythonServer.Server.ProcessAction | python/base/server.py:112-166 | every body has the machine's effect and reply |
| PythonServer.Server.HandleRequest | python/base/server.py:95-108 | every request has the machine's effect and reply |
| PythonServer.EmptyMessage | python/base/server.py:128-138 | an absent payload and 0x are treated alike |
| TypeScriptServer.Register | typescript/src/app/handlers.ts:40-43 | the registry then holds exactly the contract's routes |
| TypeScriptServer.Server.constructor | typescript/src/base/server.ts:42-56 | a new server has all routes and the initial state |
| TypeScriptServer.Server.HandleSayHello | typescript/src/app/handlers.ts:56-96 | new state and result are the machine's, on every payload |
| TypeScriptServer.Server.HandleSayGoodbye | typescript/src/app/handlers.ts:99-129 | the same, though the payload passes the hex codec once more |
| TypeScriptServer.Server.ProcessAction | typescript/src/base/server.ts:105-168 | every body has the machine's effect and reply |
| TypeScriptServer.Server.HandleRequest | typescript/src/base/server.ts:85-101 | every request has the machine's effect and reply |
| Agreement.PlansAgree | go/internal/extension/extension.go:64-103 | on a canonical request any two implementations decide alike, up to error wording |
| Agreement.ImplementationsAgree | docs/extension-contract.md:195-201 | any sequence of canonical requests gives equal HTTP statuses, result fields up to error wording, and state in any two implementations |
| Agreement.GreetingBytesAgree | docs/extension-contract.md:164-168 | two implementations sign the same greeting bytes if and only if they write each character of the name alike |
| Agreement.FarewellBytesAgree | docs/extension-contract.md:164-168 | the same for name and reason of a farewell |
| Agreement.SignedBytesPortable | docs/extension-contract.md:164-168 | all three sign the same bytes if and only if the name is portable ASCII |
| Agreement.SignedFarewellsPortable | docs/extension-contract.md:164-168 | the same for a farewell, if and only if name and reason are portable |
| Agreement.AmpersandDiffers | docs/extension-contract.md:164-168 | the name A&B makes Go sign other bytes than the other two |
| SharedMemory.SectionIsCall | go/internal/extension/extension.go:119-130 | the operations of an undisturbed critical section add up to one step of the machine, reply included |
| SharedMemory.ReadersLeaveMemory | go/internal/extension/extension.go:45-55 | a state read changes no field at any point |
| Linearizability.CommitKeepsLinearization | docs/extension-contract.md:201-201 | a call that has not returned may be put last in the sequential order, with the reply the machine then gives |
| Linearizability.SameNumberTwice | docs/extension-contract.md:201-201 | two counted calls of a kind told the same number have no sequential explanation |
| UnlockedServers.LockIsNeeded | go/internal/extension/extension.go:119-124 | without the lock, for every counted request and language, some run of two calls loses an update and is not linearizable |
| LockedServers.WorkStep | go/internal/extension/extension.go:119-130 | a single reference to shared memory keeps every invariant of the run |
| LockedServers.Linearizable | docs/extension-contract.md:201-201 | every interleaving of any number of calls is explained by some one-at-a-time order respecting real time |
| LockedServers.UnlockedNumbering | go/internal/extension/extension.go:106-161 | whenever no writer holds the lock, memory is the sequential state and numbering is gapless |
| LockedServers.SectionsExclude | python/base/server.py:137-138 | no two calls are in their sections together, except state reads in Go |
| LockedServers.GoLocksOnlyItsSection | go/internal/extension/extension.go:45-55 | Go lets reads overlap and failed calls pass without the lock; Python does neither |
| LockedServers.NoDeadlock | python/base/server.py:137-138 | while a call is live some step other than an arrival is possible |
| LockedServers.StepCountsDown | go/internal/extension/extension.go:119-130 | each step but an arrival, whoever takes it, leaves exactly one step fewer |
| LockedServers.EveryCallReturns | python/base/server.py:137-138 | once calls stop arriving every schedule ends, after exactly the steps the live calls had left and with all of them answered |
| PromiseQueue.Server.Serialize | typescript/src/base/server.ts:184-191 | subscribes the job to the old queue and makes the new one swallow its outcome |
| PromiseQueue.Server.Request | typescript/src/base/server.ts:136-171 | the awaiting caller subscribes to the job's promise behind that |
| PromiseQueue.FirstInFirstOut | typescript/src/base/server.ts:179-191 | in every run jobs start in queueing order and at most one is in progress |
| PromiseQueue.CallersResumeInOrder | typescript/src/base/server.ts:136-138 | callers go on in that order, each after its own job ended and with its outcome |
| PromiseQueue.NextJobStarts | typescript/src/base/server.ts:179-191 | once all started jobs have ended, rejected or not, the next has started when the microtasks then queued, four more, and those other code queued meanwhile have run; until then one is ready |
| PromiseQueue.BoundIsMet | typescript/src/base/types.ts:12-16 | behind an async job the next can still be waiting after all but one of that many |
| PromiseQueue.QuietMeansDone | typescript/src/base/server.ts:184-191 | when no microtask and no job is left, every queued job has ended and every caller has gone on |
| PromiseQueue.AnsweredInQueueOrder | typescript/src/base/server.ts:136-138 | each ended handler call or state read is answered as the machine answers it in queueing order |
| PromiseQueue.NumberingBetweenJobs | typescript/src/app/handlers.ts:56-129 | between jobs memory is the sequential state and the numbers handed out are gapless |
| QueuedServer.InsideStep | typescript/src/base/server.ts:105-177 | any step of the promise queue keeps committed jobs, answers and the order explained |
| QueuedServer.Linearizable | typescript/src/base/server.ts:85-191 | every run of overlapping requests, accepted or refused, handlers awaiting or rejecting, is explained by some one-at-a-time order respecting real time |
| QueuedServer.QuietMeansAnswered | typescript/src/base/server.ts:136-138 | when the loop is quiet every accepted request is answered, except those whose handler rejected |
| Registration.ChecksAreFresh | tools/pkg/fccutils/registration.go:74-171 | from a fresh start, over all crashes, failed saves and resumes of one attesting command, every check carries the latest attestation and every promotion uses the latest check |
| Registration.RunKeepsFresh | tools/pkg/fccutils/registration.go:59-172 | one run, however it ends, leaves a state file that a resume can trust |
| Registration.StepsAreAccounted | tools/pkg/fccutils/registration.go:76-151 | steps mined are exactly those recorded plus those whose record was lost, and the record never repeats a letter |
| Registration.RunCounts | tools/pkg/fccutils/registration.go:76-151 | a run loses or repeats a step only through a crash or failed save between its transaction and its record |
| Registration.FreshExactlyWhen | tools/pkg/fccutils/registration.go:74-155 | from any state file, resuming or not, with any command, the check sent is fresh if and only if WillBeFresh held once the file was removed or kept |
| Registration.ChangedCommandGoesStale | tools/cmd/register-tee/main.go:21-23 | a crash after R and a resume with rap sends the check with a superseded attestation |
| Registration.MinedExactlyOnce | tools/pkg/fccutils/registration.go:76-171 | any number of crashed or failed attempts that lose no record, then one that completes, leave exactly one attestation for each of r and R and one check for a on chain, and with p a promotion of the last check as its last event |
| Registration.CompletesExactlyWhen | tools/pkg/fccutils/registration.go:74-171 | a run completes if and only if every step due goes through, the policy gate included |
| Registration.ReachesExactlyWhen | tools/pkg/fccutils/policy_consistency.go:22-75 | up to the proof: which steps, saves, lookups and epochs let a run go on, and the log it then leaves |
| Registration.CompletedLog | tools/pkg/fccutils/registration.go:74-171 | the log of a completed run, event by event with its ids |
| Registration.PromotesExactlyWhen | tools/pkg/fccutils/registration.go:157-167 | any run promotes if and only if p is commanded, the proof reached and found, and the transaction mined; then once and last, with the check of this run, of the record, or of the flag |
| Registration.PromotesLastCheck | tools/pkg/fccutils/registration.go:126-167 | after any runs, a completed one with p ends in exactly one promotion: of the last check on chain, or without a of the flag's |
| Registration.FreshStartForgets | tools/cmd/register-tee/main.go:27-32 | a run that starts afresh does not depend on what the state file held |
| Registration.SuccessRemovesFile | tools/pkg/fccutils/registration.go:169-171 | a completed run leaves no state file if it could remove it |
| Registration.Operator.PreRegister | tools/pkg/fccutils/registration.go:75-106 | file, chain and process move as the run model says |
| Registration.Operator.RequestAttestation | tools/pkg/fccutils/registration.go:108-124 | file, chain and process move as the run model says |
| Registration.Operator.CheckAvailability | tools/pkg/fccutils/registration.go:126-155 | the same, with the policy gate in front of the transaction |
| Registration.Operator.Promote | tools/pkg/fccutils/registration.go:157-167 | promotes with the check id at hand, after its proof was found |
| Registration.Operator.RegisterTee | tools/cmd/register-tee/main.go:27-70 | a whole run, removal of the old file included, is the run the theorems are about |
| ExtensionLatch.InstructionSender.SetExtensionId | contracts/InstructionSender.sol:60-71 | succeeds if and only if unset and registered; then holds the least public id registered to it |
| ExtensionLatch.SetExactlyWhenLatched | contracts/InstructionSender.sol:60-71 | over any run the id is set if and only if some setExtensionId met a registry listing the contract |
| ExtensionLatch.SendsOnlyOnceLatched | contracts/InstructionSender.sol:75-122 | a send goes through if and only if such a call came earlier and the outside calls succeed; it then carries the least public match |
| ExtensionLatch.ScanFindsLeast | contracts/InstructionSender.sol:63-69 | the scan finds an id if and only if it is the least match below the counter |
| ExtensionLatch.StepKeepsLatch | contracts/InstructionSender.sol:60-122 | registrations, latches and sends of any kind leave a latched id least and unchanged |
| ExtensionLatch.LatchIsLeast | contracts/InstructionSender.sol:33-71 | in every run 0 soundly means unset, a latched id is the least match, and no send preceded it |
| ExtensionLatch.LatchNeverChanges | contracts/InstructionSender.sol:60-61 | once latched, no later transaction changes the id |
| ExtensionLatch.RegisterAppends | contracts/InstructionSender.sol:63-69 | registration takes the next id and changes no other |
| ExtensionLatch.PublicIdsBegin | contracts/InstructionSender.sol:31-33 | the scan finds id 65536 and not the one below it |
| ExtensionLatch.RegistrationChecks | tools/pkg/validate/checks.go:354-501 | exactly when R2 passes, fails or is not asked, and R7 passes, warns or is not asked |
| ExtensionLatch.AddRegistrationChecks | tools/cmd/verify-deploy/main.go:102-104 | the report then holds a failure if and only if it did before, or the extension id is malformed, or the chain names another sender or could not be asked |
| ExtensionLatch.HugeCounterPasses | tools/pkg/validate/checks.go:471-500 | beyond int64 R7 passes whatever the registry holds |
| ExtensionLatch.VerifierPredictsLatch | tools/pkg/validate/checks.go:371-501 | if both pass on true answers, the contract latches the file's id if and only if it is public, below the counter, and no unanswered public id below it is registered to the contract |
| ExtensionLatch.PassProvesLatch | tools/pkg/validate/checks.go:470-501 | every registry that could have given the answers latches that id, if and only if it is public, below the counter, and all public queries below it were answered |
| ExtensionLatch.UnansweredQueryMisleads | tools/pkg/validate/checks.go:476-479 | with one query skipped both checks pass and the contract latches another id |
| ExtensionLatch.ReservedIdMisleads | tools/pkg/validate/checks.go:371-391 | a registration under a reserved id passes both checks and the contract latches nothing |
| ExtensionLatch.MisleadingValues | tools/pkg/validate/checks.go:25-28 | well-formed values to which those two apply |
| EnvText.PutGet | scripts/use-chain.sh:60-64 | after set_kv the key reads back and every other key reads as before, whatever the lines, with or without a final newline |
| EnvText.ReadsBare | scripts/use-chain.sh:60-64 | on the first line that binds the key a bare value reads as itself, a '#' within it kept, blanks and a comment behind it dropped |
| EnvText.ReadsQuoted | scripts/use-chain.sh:60-64 | a quoted value reads as what stands between the quotes |
| EnvText.ReadsNothing | scripts/use-chain.sh:58-64 | without a binding line the value is empty |
| EnvText.AppendedText | scripts/use-chain.sh:310-328 | a new key goes on a line of its own, behind the missing newline if there was none, an empty file excepted |
| EnvText.AllDuplicatesRewritten | scripts/use-chain.sh:320-324 | no older line of the key survives, however many there were |
| EnvText.SecondOverwritesFirst | scripts/use-chain.sh:320-328 | a second set_kv on a key leaves the very text it alone would have left |
| EnvText.SetKvLines | scripts/use-chain.sh:311-328 | line by line: bound lines replaced in place, else one line appended, a missing final newline notwithstanding |
| EnvText.LinesAppend | scripts/use-chain.sh:311-311 | appending after a final newline adds lines and touches none |
| EnvText.SettingWhatIsSet | scripts/use-chain.sh:320-323 | setting a key to what all its lines hold changes nothing |
| EnvText.HoldsThrough | scripts/use-chain.sh:320-328 | what all lines of a key hold they go on holding when another key is set |
| UseChain.Project.PrepareEnv | scripts/use-chain.sh:333-372 | keep, clone from .env, clone from the example, or refuse, with the keys each path rewrites |
| UseChain.Project.PrepareSim | scripts/use-chain.sh:375-393 | the simulated variant, or the live chain with simulation off |
| UseChain.Project.BackUp | scripts/use-chain.sh:456-468 | the loop over env files copies .env to the backup exactly when no other copy has its text |
| UseChain.Project.Activate | scripts/use-chain.sh:276-485 | the files after a run, successful or stopped at any refusal |
| UseChain.EditsSurvive | scripts/use-chain.sh:456-479 | after a successful run the old .env text survives if and only if LosesEdits did not hold; always without --language |
| UseChain.LanguageLosesEdits | scripts/use-chain.sh:456-479 | an input on which --language loses it |
| UseChain.EditsAcrossActivations | scripts/use-chain.sh:453-479 | after any rounds of edits and activations a text is still there if and only if the last round is foretold to leave it in an env file or it is the last edit found unsaved |
| UseChain.SecondEditLosesFirst | scripts/use-chain.sh:464-467 | two edits, an activation after each: the first is gone |
| UseChain.ActivationIsIdempotent | scripts/use-chain.sh:333-485 | after a successful run a second with the same arguments succeeds and changes no file |
| UseChain.SourceNamesChain | scripts/use-chain.sh:333-393 | every scaffolding path leaves a source file naming the chain, its id and its mode |
| UseChain.ActiveNamesChain | scripts/use-chain.sh:469-485 | .env is then a verbatim copy of it and names the language asked for |
| UseChain.KeptSettingsUntouched | scripts/use-chain.sh:333-393 | activating from an existing env file, live or simulated, keeps every setting but the four the script owns |
| Activation.RefusesWithoutDonor | scripts/use-chain.sh:340-347 | scaffolding refuses exactly without the chain's file, .env and .env.example |
| Activation.CreatedCarriesOver | scripts/use-chain.sh:331-349 | a created chain file reads every other setting as .env did, or as the example did without one |
| Activation.CreatedValues | scripts/use-chain.sh:350-369 | the eight values a created file holds, for each of the five chains |
| Activation.CreatedSimCarriesOver | scripts/use-chain.sh:374-384 | a created simulated file reads all but four settings as the live file |
| Activation.CreatedSimValues | scripts/use-chain.sh:379-385 | and true for the mode and nothing for the proxy URL |
| Activation.FirstActivationCarriesOver | scripts/use-chain.sh:331-479 | after a chain's first activation .env reads every setting of the user as before |
| Activation.FileNames | scripts/use-chain.sh:284-289 | where each chain keeps its live and simulated settings |
| Activation.SucceedsExactlyWhen | scripts/use-chain.sh:276-479 | exactly when a run succeeds |
| Activation.RefusalLeavesActive | scripts/use-chain.sh:276-479 | a run that stops leaves .env as it was |
| Activation.BackupsAreNoCopies | scripts/use-chain.sh:460-467 | a text found only in *.backup files is backed up again |
| ExtensionEnv.SpacedSetting | tools/pkg/validate/checks.go:257-266 | a setting reads as its trimmed key and value however it is spaced, split at the first '=' |
| ExtensionEnv.NoSetting | tools/pkg/validate/checks.go:257-264 | blank lines, indented comments and lines without '=' set nothing |
| ExtensionEnv.SpacesListed | tools/pkg/validate/checks.go:257-257 | the white space that trimming removes, code point by code point |
| ExtensionEnv.DuplicatesDisagree | tools/pkg/validate/checks.go:267-272 | of a key set twice the Go parsers take the last value, get_val the first |
| ExtensionEnv.ParseExtensionEnv | tools/pkg/validate/checks.go:248-275 | returns the last value set for each key, empty when there is none or no file |
| ExtensionEnv.CheckExtensionEnvFormat | tools/pkg/validate/checks.go:155-244 | passes both keys if and only if the other parser's values match both patterns; skips without a file |
| ExtensionEnv.PrintedParses | scripts/pre-build.sh:115-148 | the file written after validation reads back, in both Go parsers and in get_val, as the two ids |
| ExtensionEnv.PrintedLines | scripts/pre-build.sh:144-148 | the printed file is those three lines |
| Report.Report.Add | tools/pkg/validate/report.go:53-55 | appends, whether the backing array had room or not |
| Report.Report.KeepOnly | tools/cmd/verify-deploy/main.go:87-93 | overwriting the array being read leaves exactly the matching results in order, and nothing else moved behind them |
| Report.KeptInOrder | tools/cmd/verify-deploy/main.go:87-93 | each matching result ends up behind exactly the matches that stood before it |
| Report.KeptCount | tools/cmd/verify-deploy/main.go:88-92 | matching results are kept as often as they occurred, others not at all |
| Report.Report.HasFailures | tools/pkg/validate/report.go:58-65 | true if and only if some result failed, which is when the summary counts one |
| Report.Report.Summary | tools/pkg/validate/report.go:68-84 | the loop's counters are the numbers of results of each status |
| Report.TallyCounts | tools/pkg/validate/report.go:71-81 | every result counts under its own status and no other |
| Report.NotesShown | tools/pkg/validate/report.go:150-157 | message and fix stand below a result if it failed or warns, each if there is one |
| Report.StepsAreHeaded | tools/pkg/validate/report.go:136-141 | the headings are those of the steps, once each and in their order |
| Report.BlockIsHeaded | tools/pkg/validate/report.go:136-159 | each heading stands above exactly its step's results |
| Report.CountsAddUp | tools/pkg/validate/report.go:68-84 | the four counts sum to the number of results if and only if all statuses are named ones |
| Report.Report.Fprint | tools/pkg/validate/report.go:123-163 | prints every result exactly once, grouped, under totals that are those of what is printed |
| Report.EachResultOnce | tools/pkg/validate/report.go:136-146 | the grouped order is a permutation of the results |
| Report.StableWithinStep | tools/pkg/validate/report.go:143-146 | within each step the results keep their order |
| Report.StepsByFirstAppearance | tools/pkg/validate/report.go:126-134 | steps come in the order of their first results |
| Report.ArrangedIsSettled | tools/pkg/validate/report.go:126-160 | each step's results stand together: grouping a grouped report changes nothing |
| Funds.AffordableWithinGasCap | tools/pkg/validate/validate.go:94-132 | succeeds if and only if the price is positive and the gas that balance over price allows covers the deploy |
| Funds.RefusalsTell | tools/pkg/validate/validate.go:120-131 | a missing or non-positive price is its own error; the other names both sums |
| Funds.AffordableMonotone | tools/pkg/validate/validate.go:119-132 | more balance or a lower positive price never turns a yes into a no |
| Sequencer.SlotTakesConfig | testing/scripts/sequencer.sh:44-55 | a readable config is taken up, else the old rotation goes on; the slot falls to the agent at the index |
| Sequencer.Script.Resume | testing/scripts/sequencer.sh:30-36 | continues from the saved number, or from 0 without one |
| Sequencer.Script.TakeSlot | testing/scripts/sequencer.sh:43-103 | one pass: config reloaded or kept, dead session skipped or heartbeat sent, number saved |
| Sequencer.RestartsRepeatOnlyTheSlotInFlight | testing/scripts/sequencer.sh:30-36 | over any crashes no slot is skipped or finished twice; only the slot in flight is begun again, once per restart |
| Sequencer.WindowIsFair | testing/scripts/sequencer.sh:53-64 | any window of finished slots as long as its rotation holds each agent exactly as often as the rotation |
| Sequencer.AwaitLock | testing/scripts/sequencer.sh:66-82 | the wait ends at the first look where the lock is gone or stale, and clears it by force exactly if stale, that is older than the timeout, and no earlier |
| Sequencer.UnrenewedLockClears | testing/scripts/sequencer.sh:70-81 | a lock that is not rewritten keeps nobody waiting beyond its timeout and one more poll |
| Sequencer.WaitEndsUnlessRenewed | testing/scripts/sequencer.sh:70-81 | the wait outlasts the timeout only if someone rewrote the lock with a later time |

## Left out

- JSON and ABI decoding are foreign code: they enter as function values that all three implementations share, so inputs on which real decoders differ (extra text after the object, non-string names, absent fields) are outside the agreement theorem.
- Lone surrogates, which Python's encoder refuses and JavaScript's replaces: a character is a Unicode scalar value.
- Dispatch.CaseIrrelevant: folds the case of ASCII letters, which is all a hex identifier has; identifiers with other letters are outside the model.
- Text elsewhere is a sequence of characters: the UTF-8 of payloads is not modelled.
- HTTP transport, the HEAD method, Go's path rewriting, and the wording of 4xx and 501 bodies and of invalid-hex errors.
- The handler registry holds a tag per handler, not a closure.
- Counters, file indexes and the sequencer's number are unbounded; the 64-bit wrap of epoch + 1 is modelled in `PolicyInSync`.
- `LockedServers` also admits the TypeScript handlers, as if under one mutex; their real mechanism is `PromiseQueue`, and `QueuedServer` has the theorem about it.
- QueuedServer.Linearizable: a rejected handler call takes effect but has no answer; what the transport sends then is not modelled.
- PromiseQueue.NextJobStarts: speaks of the time after the earlier jobs have ended; that an async handler ever ends is up to the handler.
- Registration assumes atomic state-file writes and one operator: a torn file, another party requesting attestations, and sleeps are not modelled. On a registered machine whose lookup failed, `register` is taken to revert.
- The proof text, signatures, recovered addresses and revert decoding of the registration tools.
- Gas and the `uint256` bound in the contract's loop; the registry's choice of TEE ids and the forwarding of instructions are two flags.
- ExtensionLatch.RegistrationChecks: models R2 and R7 given a client and a registry; R1, R3 to R6 and the checks of the other steps are flat branches on single answers.
- Go leaves the conversion of a counter beyond 64 bits undefined; `Int64` takes the low 64 bits, and the prediction theorem assumes a counter that fits.
- The Go scanner's 64 KB line limit and carriage returns before a newline.
- EnvText.PutGet: keys are free of regular-expression characters and written values free of whitespace, quotes and sed's special characters, as all the script's own are; stored text is arbitrary, save that it holds no NUL, at which bash and grep part ways with the model. Sed implementations that add a missing final newline are not modelled.
- UseChain.Project.Activate: the proxy toml and the compose override are one flag each run, as are the address dump and the list of languages; `--status`, `--list` and `--versions` only print.
- Colours, JSON output and the parsing of the `--checks` argument; the filter takes the set of ids.
- Sequencer.AwaitLock: speaks of waits that end, as does Sequencer.Script.TakeSlot; one in which somebody renews the lock for ever does not, in the script either. When a wait does end is the subject of `Sequencer.UnrenewedLockClears` and `Sequencer.WaitEndsUnlessRenewed`.
- A sequencer state file truncated by a crash in mid-write, and a lock file without a time.
- Docker, tunnels, tmux and process management.
