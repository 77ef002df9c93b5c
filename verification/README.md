# A verified model of Oxigeon's hard parts

Oxigeon is a game server that runs Lua. This project models, in Dafny, the parts of it where a mistake
is hard to see by reading one function, and proves what those parts promise:

- **The compute pool** (`ComputeProtocol`, `ComputeInvariants`, `ComputeTheorems`, `ComputeOutcomes`,
  `ComputeCounters`, `ComputeCancel`, `ComputeServing`, `ComputeProgress`, `ComputeBridge`, `WorkerHandle`,
  `JobControl`). Jobs are queued, handed to child processes by one host thread per
  slot, cancelled over the same pipe they were sent on, and answered for by whoever comes first. The
  pool is a transition system whose steps are its lock regions, atomic operations and pipe operations;
  every theorem is about every reachable state or every run of any interleaving. The bridge, a worker
  slot and the controls of one job are also classes whose methods change their fields in place.
- **The wire** (`Bytes`, `Wire`, `WireLimits`, `Messages`, `Frames`, `WireBuffers`, `WireLayout`, `Utf8`) and
  **the marshaller** (`LuaHeap`, `Marshal`, `MarshalContent`, `MarshalRebuild`, `MarshalCopies`,
  `MarshalTheorems`, `MarshalChoices`, `MarshalRuns`): a tagged binary encoding, and the copy between a Lua
  heap that may share and cycle and a finite tree. `Transport` puts them end to end.
- **Lua and JSON** (`JsonConvert`, `JsonTheorems`, `JsonMeaning`, `JsonRuns`). `Refusals` says why a value
  is refused, there and by the marshaller.
- **The time stamp of the log** (`CivilDate`).
- **The line tokenizer and the long-bracket scanner** (`LuaSyntax`, `LuaSyntaxTheorems`,
  `LuaStrings`, `LuaColours`, `LuaKinds`, `LuaSyntaxRuns`).
- **The debug client**: the chunked frame decoder (`DapDecoder`, `DapTheorems`, `DapHeaders`), the collapsed file tree
  (`FileTree`, `FileTreeView`) and the variables list (`VarsList`).

Each recursive function that specifies a loop of the program has a method with that loop, proved equal
to it; the properties are lemmas about the function. Three conventions run through the model. A VM is
free to report any border of a table (Lua 5.4 Reference Manual, section 3.4.7) and any order of `pairs`
(section 6.1), and both may change from one visit to the next: they are parameters, and the theorems hold
for every legal choice. A floating-point number is its 64-bit pattern. Integers of the program are
bounded where the bound matters: `u64`, `i64` and `byte` are subset types, and no arithmetic of the model
leaves them.

Where the code and its comments disagree, the model follows the code:

- The marshaller's module comment calls copying out after rebuilding an identity. It is one on content
  always, but on the copy itself, for every VM, exactly when no table of it has a hole in its list part
  or a positive index outside it (`IdentityIffTight`, `HolesMayMove`).
- `ComputeVm::run` is described as never panicking. A log message longer than 512 bytes whose 513th byte
  continues a character makes `compute_log` panic (`JobControl.JobCtl.Log`, `LongMessageMayPanic`).
- The debug client's decoder is said to be incremental. How a stream was cut matters to what it hands on
  when it accepts a negative `Content-Length` (`NegativeLengthMatters`), and when a stream fails after a
  message, because a feed that throws loses the messages it had decoded (`FailureTakesItsFeed`); exactly
  when is `CutNeverMattersIff`.
- The line scanner takes a string without its closing quote for one Lua would reject. Lua continues one
  behind a backslash or `\z`, and then the scanner may take the rest of a file that Lua accepts for the
  inside of a long bracket (`ContinuedStringMisleads`). It has Lua's own state at every line exactly when
  it finds every string closed on its line (`AgreesWithLuaIff`), and in a file that Lua accepts exactly
  when no string runs over a line end (`AcceptedAgreesIff`).
- Tokenizing line by line is said to need only the scanner's state. It shows what one reading of the text
  shows but for two things (`LinesShowTheText`): the later lines of a long string are shown as comment
  (`LongStringLooksLikeComment`), and a call whose parenthesis is on a later line as a plain word
  (`CallLooksPlain`).
- The JSON conversion turns an integer key below 1 into a string key, so the way there and back keeps a
  value exactly when no table in it has such a key (`JsonRoundTrip`); `{[0] = 1}` comes back as
  `{["0"] = 1}` (`LowKeyBecomesAName`).
- The wire's depth bound is 256; a comment says it mirrors the copy's default limit, which is 64. Under a
  configured limit above 256 a job can be sent that the worker refuses to decode (`TooDeepForTheWire`);
  exactly which is `Transport.Arrives`.
- A budget equal to the largest 64-bit value never stops a job, because the counter saturates there
  (`BudgetStopsOnTime`).

Verify with `dafny verify dfyconfig.toml` (Dafny 4.11).

## Model

| member | source | states |
|---|---|---|
| `ComputeInvariants.StepKeepsInv` | src/core/compute/mod.rs:228-529 | every step of every thread, watchdog, canceller and child keeps the protocol's invariant |
| `ComputeInvariants.ReachableInv` | src/core/compute/mod.rs:178-223 | the invariant holds in every state any interleaving reaches from a started pool |
| `ComputeTheorems.CancelHitsItsOwnJob` | crates/oxigeon-compute/src/main.rs:95-126 | a running job that sees the cancel flag set was itself cancelled, though the child never compares ids |
| `ComputeTheorems.CancelledWasAskedFor` | src/core/compute/mod.rs:447-459 | "cancelled" is only ever reported for an id that `cancel` was called with |
| `ComputeCancel.CancelledInQueueNeverRuns` | src/core/compute/mod.rs:252-268 | a job cancelled while queued is in no child, on no pipe and beyond no host thread's first look in any continuation |
| `ComputeCancel.CancelReachesItsWorker` | src/core/compute/mod.rs:447-459 | a cancel of a live job that a worker has taken up marks its entry, puts the cancel for it on that worker's pipe, and changes nothing else |
| `ComputeCancel.CancelCanStop` | crates/oxigeon-compute/src/main.rs:95-126 | a child that runs a job and reads a cancel may end that job as cancelled, and says so |
| `ComputeTheorems.RefusedNeverRan` | src/core/compute/mod.rs:413-430 | a job reported as refused was never taken from the queue, is in no host thread's hand, and is nowhere in a child: neither on its pipes nor in its channel nor in its Lua thread |
| `ComputeTheorems.ExactlyOneResult` | src/core/compute/mod.rs:328-369 | an id past its insertion is live, or claimed, or reported: exactly one of the three, and reported at most once |
| `ComputeTheorems.NoResultWithoutId` | src/core/compute/mod.rs:391-411 | an id that was never handed out has no entry, no claim and no result |
| `ComputeTheorems.ReportedForGood` | src/core/compute/mod.rs:338-342 | in every continuation a reported id stays reported exactly once and is never live again |
| `ComputeProgress.EveryJobCanBeReported` | src/core/compute/mod.rs:34-42 | from every reachable state every id handed out has a continuation in which it is reported, exactly once; it begins no watchdog pass beside another, and fails a cancel's write only if there is no live child to take it |
| `ComputeProgress.OnlyExpiredAreTimedOut` | src/core/compute/mod.rs:498-506 | when the watchdog claims a job to time it out, that job's deadline had passed when the pass began |
| `ComputeTheorems.ReapLeavesNothingExpired` | src/core/compute/mod.rs:498-529 | when a watchdog pass ends, none of the jobs in its snapshot is live, cancelled ones included, and each has one result or claim |
| `ComputeTheorems.CountersBalance` | src/core/compute/mod.rs:344-353 | submitted plus inserts not yet counted equals the ending counters plus claims not yet counted plus live jobs; exact balance at rest |
| `ComputeCounters.CountersCountResults` | src/core/compute/mod.rs:344-353 | in every reachable state each of the five counters is the number of results of its kind sent, and of those counted and about to be sent |
| `ComputeTheorems.OneOutstandingJob` | src/core/compute/worker.rs:186-244 | a host thread that reads has exactly its own job outstanding on that pipe; one that does not has none, or a dead child it will drop |
| `ComputeTheorems.AnswersMatchRequests` | src/core/compute/worker.rs:213-223 | the answer read is for the job being run: the branch for another job's answer is unreachable |
| `ComputeOutcomes.EveryEndingHasItsOrigin` | src/core/compute/mod.rs:306-369 | in every run whatever is claimed or reported of a job is the ending a child gave that very job; or a timeout that a watchdog claimed; or a refusal by the queue; or a load error for which no worker could be started; or an error whose worker was lost or unreadable |
| `ComputeOutcomes.ChildsEndingIsReported` | src/core/compute/mod.rs:306-319 | a job that a watchdog, the queue, a failed start and a lost worker all left alone is reported with the ending its child gave it |
| `ComputeOutcomes.EndedOnce` | crates/oxigeon-compute/src/main.rs:140-162 | in every run a child ends a job at most once, so that ending is one |
| `ComputeOutcomes.ReadableAnswerIsClaimed` | src/core/compute/worker.rs:213-223 | a readable answer read in an unmarked slot for a live job leads by the host thread's next steps to a claim with exactly the child's ending |
| `ComputeServing.JobIsServed` | src/core/compute/mod.rs:245-320 | from every reachable state an idle worker can report the job at the head of the queue with any ending a child can give, without failure, cancel or watchdog; it starts a child exactly if it has none of the current epoch, and is left idle with a live one in an unmarked slot |
| `ComputeServing.LostWorkerIsDropped` | src/core/compute/mod.rs:307-315 | after a failed write, a failed read or an unreadable answer the slot is marked, and in every continuation its child is dropped before that worker's next job |
| `ComputeServing.DroppingKills` | src/core/compute/worker.rs:262-278 | a child dropped as stale or broken is killed, and its slot, reading end and epoch are forgotten |
| `ComputeTheorems.ReloadReachesEveryLaterJob` | src/core/compute/mod.rs:273-304 | a job taken after `recycle` returned is never held by a child that existed before it, through failed starts, kills and respawns |
| `ComputeTheorems.DroppedForGood` | src/core/compute/mod.rs:307-315 | a child that was dropped is never read from again |
| `ComputeBridge.AllowedMeansUnderARoot` | src/core/compute/mod.rs:434-440 | a module is allowed exactly when the path components of some root are a prefix of its own |
| `ComputeBridge.TrimmedDropsSlashes` | src/core/compute/mod.rs:437-437 | trimming a root takes all slashes off both ends and nothing else |
| `ComputeBridge.ComponentsLieBetweenSlashes` | src/core/compute/mod.rs:434-440 | the components of a path are what lies between its slashes |
| `ComputeBridge.SubmitIsARun` | src/core/compute/mod.rs:391-430 | an uninterrupted `submit` is a run of the protocol: four steps if queued, seven if refused |
| `ComputeBridge.Bridge.constructor` | src/core/compute/mod.rs:178-223 | a new bridge is an initial state of the protocol |
| `ComputeBridge.Bridge.Submit` | src/core/compute/mod.rs:372-431 | fails exactly for a module outside the roots or an asked deadline over the maximum, says which, and then changes nothing; else the new id is live with its deadline and queued, or refused at once if the queue is full; the whole is that run |
| `ComputeBridge.Bridge.Answer` | src/core/compute/mod.rs:328-369 | if the id is live, its entry goes, exactly the one counter of its ending rises and one result is sent; else nothing changes |
| `ComputeBridge.Bridge.Cancel` | src/core/compute/mod.rs:447-459 | returns whether the id was live; if so exactly its entry is marked, and the child of the worker it names gets one cancel frame for it, or that slot is marked if the write fails |
| `ComputeBridge.Bridge.Recycle` | src/core/compute/mod.rs:462-464 | moves the epoch on by one protocol step and touches nothing else |
| `ComputeBridge.Bridge.ReapOne` | src/core/compute/mod.rs:508-528 | one expired entry goes, is answered as a timeout, and the worker it ran on is marked |
| `ComputeBridge.Bridge.ReapExpired` | src/core/compute/mod.rs:498-529 | exactly the expired entries go, each answered once and as a timeout, exactly the workers on which an expired job was running are marked, and the counters say so; the pass is a run of the protocol |
| `ComputeBridge.ReapOneIsARun` | src/core/compute/mod.rs:508-528 | handling one expired entry without interruption is a run of the protocol: four steps if it was queued, six if it was running |
| `WorkerHandle.Handle.Start` | src/core/compute/worker.rs:122-179 | the child takes the slot exactly if its process starts, its pipe takes the greeting, and the first message it sends is that it is ready; else the slot is unchanged |
| `WorkerHandle.Handle.Write` | src/core/compute/worker.rs:281-291 | the frame is appended whole or the write fails and the slot is marked |
| `WorkerHandle.Handle.Run` | src/core/compute/worker.rs:186-244 | the outcome is the next message's if it answers this job, and then exactly that much was read; anything else is an error ending and a marked slot |
| `WorkerHandle.OwnAnswerIsTaken` | src/core/compute/worker.rs:205-223 | a job's own encoded answer is taken whatever bytes follow, and is nobody else's answer |
| `WorkerHandle.OtherMessages` | src/core/compute/worker.rs:224-230 | a second greeting is passed over, and a worker that says it is broken gives no answer |
| `WorkerHandle.NoAnswer` | src/core/compute/worker.rs:231-243 | a stream that ends, is cut inside a frame or holds no message gives no answer |
| `WorkerHandle.OnlyReadyGreets` | src/core/compute/worker.rs:149-176 | of all messages only the greeting lets a child take the slot |
| `WorkerHandle.AnswersStayInStep` | src/core/compute/worker.rs:312-317 | if the child's answers come in order, the k-th job reads the k-th answer, for runs of any length |
| `JobControl.JobCtl.Begin` | crates/oxigeon-lua/src/vm.rs:317-325 | nothing of the job before is left: counter, logs and cancel flag are reset |
| `JobControl.JobCtl.Fire` | crates/oxigeon-lua/src/vm.rs:252-276 | a firing stops for a cancel exactly if it is asked for, else for a deadline exactly if it has passed, else for the budget exactly if the charge exceeds it; it charges only if neither of the first two |
| `JobControl.JobCtl.Log` | crates/oxigeon-lua/src/vm.rs:213-230 | a line is kept cut to 512 bytes or counted as dropped; panics exactly if the cut falls inside a character |
| `JobControl.JobCtl.TakeLogs` | crates/oxigeon-lua/src/vm.rs:109-118 | gives the lines kept, and the number dropped if any were |
| `JobControl.BudgetStopsOnTime` | crates/oxigeon-lua/src/vm.rs:196-198 | the budget stops a job at the first firing whose charge exceeds it, at most one step late, for every limit but the largest |
| `JobControl.FirstLinesAreKept` | crates/oxigeon-lua/src/vm.rs:77-81 | of any calls, those that find room (32 in all) are kept in order, cut to 512 bytes, up to the first that would be cut inside a character, which panics; if none would, no call panics and the rest are counted as dropped |
| `JobControl.CutIsText` | crates/oxigeon-lua/src/vm.rs:221-223 | a cut of UTF-8 text is UTF-8 exactly if it falls between two characters, which is exactly when the call does not panic |
| `JobControl.LongMessageMayPanic` | crates/oxigeon-lua/src/vm.rs:221-223 | a valid UTF-8 message exists that makes the log call panic |
| `Bytes.LittleEndianRoundTrip` | crates/oxigeon-lua/src/wire.rs:124-138 | the little-endian bytes of a number that fits give the number back |
| `Bytes.U64RoundTrip` | crates/oxigeon-lua/src/wire.rs:191-199 | a 64-bit word survives its eight bytes |
| `WireLayout.LittleEndianDigit` | crates/oxigeon-lua/src/wire.rs:124-138 | byte k of a number is its k-th digit to the base 256 |
| `WireLayout.TwosComplement` | crates/oxigeon-lua/src/wire.rs:130-132 | a signed number is sent as the unsigned one it equals modulo 2^64 |
| `WireLayout.SampleNumbers` | crates/oxigeon-lua/src/wire.rs:127-132 | a number below 256 is its byte and seven zeroes, -1 is eight full bytes |
| `WireLayout.ScalarLayout` | crates/oxigeon-lua/src/wire.rs:222-240 | scalars are a tag byte and their value, strings with their length first |
| `WireLayout.KeyLayout` | crates/oxigeon-lua/src/wire.rs:248-258 | keys have the tags of the values they are |
| `WireLayout.KeysInOrder` | crates/oxigeon-lua/src/wire.rs:251-262 | entries go integers first, by size, then strings, by the first byte in which they differ |
| `WireLayout.TableLayout` | crates/oxigeon-lua/src/wire.rs:241-262 | tag, number of items, items, number of entries, entries |
| `WireLayout.ItemsInARow` | crates/oxigeon-lua/src/wire.rs:243-246 | the items' bytes stand one behind the other, whatever is before and after |
| `WireLayout.EntriesInARow` | crates/oxigeon-lua/src/wire.rs:248-261 | so do the entries', each its key and then its value |
| `WireLayout.UnknownValues` | crates/oxigeon-lua/src/wire.rs:272-301 | unknown value and key tags and too deep values are refused as such; any nonzero byte is true |
| `Utf8.TextExactly` | crates/oxigeon-lua/src/wire.rs:204-207 | what is accepted as text is exactly the encodings of sequences of Unicode scalar values |
| `Wire.InsertGet` | crates/oxigeon-lua/src/wire.rs:296-296 | inserting into the ordered map changes the binding of that key only |
| `Wire.ReadDataAt` | crates/oxigeon-lua/src/wire.rs:222-302 | wherever a value was written in a buffer, the reader gives it back and stops at its end, or reports that it nests too deep: exactly by the depth bound |
| `WireLimits.ReadDataMore` | crates/oxigeon-lua/src/wire.rs:272-302 | if any bytes decode to a value, appended bytes do not change it |
| `WireLimits.ReadDataBounded` | crates/oxigeon-lua/src/wire.rs:175-187 | on any bytes, what is decoded has no more values than bytes consumed, nests within the bound, and is well formed |
| `WireLimits.ReadableExactly` | crates/oxigeon-lua/src/wire.rs:266-275 | the values some bytes decode to are exactly the well-formed ones nesting at most 256 deep |
| `Messages.EndingCodes` | crates/oxigeon-lua/src/wire.rs:374-397 | the two tables of ending codes are inverse, and no other code is accepted |
| `WireLayout.EndingNumbers` | crates/oxigeon-lua/src/wire.rs:374-397 | the numbers 0 to 6 mean ok, error, load error, timeout, cancelled, budget, refused |
| `Messages.ToWorkerRoundTrip` | crates/oxigeon-lua/src/wire.rs:314-369 | decoding an encoded message to the worker, with any trailing bytes, gives it back if its value nests at most 256 deep, and else fails as too deep |
| `Messages.ToServerRoundTrip` | crates/oxigeon-lua/src/wire.rs:399-453 | the same for messages to the server |
| `Messages.ToWorkerPrefixRefused` | crates/oxigeon-lua/src/wire.rs:344-368 | no strict prefix of an encoded message decodes |
| `Messages.ToServerPrefixRefused` | crates/oxigeon-lua/src/wire.rs:430-452 | the same for messages to the server |
| `Messages.OneMessagePerBody` | crates/oxigeon-lua/src/wire.rs:315-342 | two messages whose encodings start one body are the same message |
| `WireLayout.ToWorkerLayout` | crates/oxigeon-lua/src/wire.rs:315-341 | the messages to the worker are a tag and their fields in order |
| `WireLayout.AnswerLayout` | crates/oxigeon-lua/src/wire.rs:400-428 | an answer is a tag, its id, ending, value, error behind a flag, and logs behind their number |
| `WireLayout.LogLayout` | crates/oxigeon-lua/src/wire.rs:422-427 | a log line is its level and then its message |
| `WireLayout.ToServerLayout` | crates/oxigeon-lua/src/wire.rs:400-408 | the greeting is one byte, a broken worker's message a tag and its text |
| `WireLayout.UnknownTags` | crates/oxigeon-lua/src/wire.rs:344-367 | a body with no message's tag is refused for that tag, an empty one as cut short |
| `Messages.DecodedIsBounded` | crates/oxigeon-lua/src/wire.rs:358-364 | a decoded job or answer carries a value no larger than the body and within the depth bound |
| `Frames.Stream.WriteFrame` | crates/oxigeon-lua/src/wire.rs:90-100 | a body over the limit is refused and nothing written; else length and body are appended |
| `Frames.Stream.ReadFrame` | crates/oxigeon-lua/src/wire.rs:103-120 | a clean end inside the length, an error for an oversized or short body, else one body off the front |
| `Frames.CutStream` | crates/oxigeon-lua/src/wire.rs:103-119 | a stream of frames cut at any byte gives exactly the bodies that arrived whole, in order, then a clean end if fewer than four bytes are left over, else an error |
| `Frames.WholeStream` | crates/oxigeon-lua/src/wire.rs:97-99 | an uncut stream gives back every body and ends cleanly |
| `WireBuffers.Out.Data` | crates/oxigeon-lua/src/wire.rs:222-264 | appends exactly the value's encoding to the buffer |
| `WireBuffers.Out.MessageToWorker` | crates/oxigeon-lua/src/wire.rs:315-341 | appends exactly the message's encoding |
| `WireBuffers.Out.MessageToServer` | crates/oxigeon-lua/src/wire.rs:400-428 | appends exactly the message's encoding |
| `WireBuffers.Cursor.Take` | crates/oxigeon-lua/src/wire.rs:175-186 | stays in bounds; advances by what it returns |
| `WireBuffers.Cursor.Data` | crates/oxigeon-lua/src/wire.rs:272-301 | returns and leaves the cursor as the reader's function says, on any bytes and at any depth |
| `WireBuffers.Cursor.MessageToWorker` | crates/oxigeon-lua/src/wire.rs:344-367 | returns what the message reader's function says |
| `WireBuffers.Cursor.MessageToServer` | crates/oxigeon-lua/src/wire.rs:430-451 | returns what the message reader's function says |
| `MarshalContent.FromLuaReads` | crates/oxigeon-lua/src/marshal.rs:119-170 | for every border and order, a successful copy is faithful table by table, counts every value it was charged for, and nests within the limit |
| `MarshalContent.ReadsUnfolds` | crates/oxigeon-lua/src/marshal.rs:140-166 | a faithful copy has the unfolded content of its original, holes and outlying integer keys included |
| `MarshalRebuild.ToLuaUnfolds` | crates/oxigeon-lua/src/marshal.rs:173-194 | a rebuilt value has the copy's content, in new tables; the tables that were there are unchanged |
| `MarshalTheorems.CopyKeepsContent` | crates/oxigeon-lua/src/marshal.rs:114-195 | copying out and rebuilding elsewhere keeps the unfolded content, within both limits |
| `MarshalTheorems.RebuiltCopiesAgain` | crates/oxigeon-lua/src/marshal.rs:13-19 | copying a rebuilt value gives a copy of equal content, the same copy if it is tight, and is refused for size only |
| `MarshalTheorems.HolesMayMove` | crates/oxigeon-lua/src/marshal.rs:135-141 | a copy with a hole may come back cut at another border |
| `MarshalTheorems.CyclesAreRefused` | crates/oxigeon-lua/src/marshal.rs:131-133 | a value from which a table containing itself is reached is refused, whatever the limits |
| `MarshalTheorems.FiniteIsCopied` | crates/oxigeon-lua/src/marshal.rs:125-134 | a value that unfolds within the depth limit is refused only for its number of values |
| `Refusals.CopyRefusedForCause` | crates/oxigeon-lua/src/marshal.rs:125-167 | whatever error a refused copy gives, what it names is in the value: a table at exactly the depth limit, or a value or key of exactly that kind, at the end of a path |
| `MarshalChoices.CopiesAreTheFaithful` | crates/oxigeon-lua/src/marshal.rs:119-170 | what copying out can return, over all legal VMs and limits, is exactly the faithful copies; each is returned under limits of its own size |
| `MarshalChoices.OnlyCopyIffTight` | crates/oxigeon-lua/src/marshal.rs:137-142 | a copy that was returned is returned under every legal VM and all limits under which copying succeeds, exactly if no table of it has a hole or a positive index outside its list |
| `MarshalChoices.IdentityIffTight` | crates/oxigeon-lua/src/marshal.rs:13-19 | copying out a rebuilt value gives the copy it was rebuilt from, for every legal VM and all limits under which it succeeds, exactly if that copy is tight |
| `MarshalCopies.CopyFits` | crates/oxigeon-lua/src/marshal.rs:29-51 | a copy can be put on the wire: entries in key order, lengths of machine size |
| `MarshalRuns.Copier.Copy` | crates/oxigeon-lua/src/marshal.rs:119-169 | counts the budget down in place and returns what the copying function says |
| `MarshalRuns.Copier.CopyItems` | crates/oxigeon-lua/src/marshal.rs:138-142 | the list part up to the border, nil where nothing is stored |
| `MarshalRuns.Copier.CopyPairs` | crates/oxigeon-lua/src/marshal.rs:144-161 | every key outside the list part, in the VM's order; other kinds of key are refused |
| `MarshalRuns.LuaVm.Build` | crates/oxigeon-lua/src/marshal.rs:173-195 | makes a table before what it holds and sets its fields in place, as the rebuilding function says |
| `Transport.Arrives` | crates/oxigeon-lua/src/wire.rs:265-275 | a framed job decodes to the job that was sent exactly if its argument nests at most 256 deep, as every argument does under a limit within that bound |
| `Transport.TooDeepForTheWire` | crates/oxigeon-lua/src/wire.rs:265-275 | under the depth limit 257 there is a job that can be copied, encoded and framed and that the worker refuses as too deep |
| `Transport.JobsArrive` | crates/oxigeon-lua/src/wire.rs:86-120 | jobs sent in order down a pipe cut at any byte: exactly those whose frames arrived whole decode, in order, and rebuild with the content they had; then the stream ends or fails |
| `JsonTheorems.ClassifyIsRight` | src/core/scripting/efuns.rs:1565-1621 | in any key order: refused exactly for a key that is neither string nor integer, or for list indices together with names; else empty, a list up to the largest index, or an object |
| `JsonTheorems.JsonRoundTrip` | src/core/scripting/efuns.rs:1640-1748 | an accepted value unfolds, and converting it back keeps its content if and only if no table in it has an integer key below 1 |
| `JsonTheorems.LowKeyBecomesAName` | src/core/scripting/efuns.rs:1691-1700 | a table with one integer key below 1 is accepted, and comes back with the decimal text of that key in its place |
| `JsonMeaning.JsonBecomes` | src/core/scripting/efuns.rs:1719-1748 | what a JSON value becomes in Lua: scalars as they are, a large integer as a float, array items at 1, 2 and so on, fields under their names, null nowhere, in tables of its own |
| `JsonTheorems.AmbiguousTablesAreRefused` | src/core/scripting/efuns.rs:1596-1619 | a value is refused if a table that is both list and map, or has an unnameable key, is reached from it |
| `JsonTheorems.CyclesAreRefused` | src/core/scripting/efuns.rs:1668-1676 | a value from which a table containing itself is reached is refused |
| `JsonTheorems.ConvertedExactly` | src/core/scripting/efuns.rs:1640-1715 | for every legal VM a value is converted exactly if JSON can hold it within the depth limit and it has no more values than the budget, a hole of a list counting as one; it is charged for exactly those |
| `Refusals.JsonRefusedForCause` | src/core/scripting/efuns.rs:1565-1715 | whatever error a refused conversion gives, what it names is in the value, at the end of a path |
| `JsonRuns.ClassifyTable` | src/core/scripting/efuns.rs:1566-1594 | one counting pass over the keys gives the shape |
| `JsonRuns.Converter.Convert` | src/core/scripting/efuns.rs:1640-1715 | counts the budget down, returns what the converting function says, and leaves the path as it was on success and on failure |
| `JsonRuns.Converter.ConvertArray` | src/core/scripting/efuns.rs:1680-1690 | every index up to the largest, null for a hole |
| `JsonRuns.Converter.ConvertObject` | src/core/scripting/efuns.rs:1691-1708 | every key under its name, later equal names replacing earlier |
| `JsonRuns.JsonVm.Build` | src/core/scripting/efuns.rs:1719-1748 | rebuilds a JSON value in place; null sets nothing |
| `CivilDate.YearOfEra` | src/core/logging/game_logger.rs:203-208 | no subtraction underflows, and the year computed for a day of the 400-year era is the one it lies in |
| `CivilDate.DateOfDay` | src/core/logging/game_logger.rs:199-213 | the result is a date of the Gregorian calendar from 1970 on, and counting days by the calendar's rules gives the input back |
| `CivilDate.DayOfDate` | src/core/logging/game_logger.rs:197-202 | every calendar date from 1970 on is the result for its own day number |
| `CivilDate.NextDayOfDay` | src/core/logging/game_logger.rs:208-212 | the next day number gives the calendar's next day |
| `CivilDate.EpochIsDayZero` | src/core/logging/game_logger.rs:201-212 | day 0 is 1970-01-01 |
| `CivilDate.UtcFieldsExact` | src/core/logging/game_logger.rs:177-188 | for every 64-bit second count nothing overflows, and date and time of day give the seconds back |
| `CivilDate.UtcTextExact` | src/core/logging/game_logger.rs:189-194 | the formatted text reads back at RFC 3339's positions exactly for times before the year 10000 |
| `LuaSyntaxTheorems.TokenizeIsLossless` | src/bin/tui/lua_syntax.rs:144-240 | for every line and start state the runs put together are the line, none is empty, no two neighbours have one kind |
| `LuaKinds.LineShowsItsPieces` | src/bin/tui/lua_syntax.rs:144-243 | a line is pieces one behind the other, said of its characters: comments, strings, long brackets, numbers, words and single characters, and each character has its piece's kind; a word is shown as value, reserved word, call or plain by its letters and what follows |
| `LuaKinds.PieceIsSettled` | src/bin/tui/lua_syntax.rs:164-237 | the characters from a place on settle where its piece ends and how it is shown |
| `LuaKinds.BracketOrNone` | src/bin/tui/lua_syntax.rs:98-119 | a long bracket is found exactly where a bracket, equals signs and the same bracket stand |
| `LuaSyntaxTheorems.ScannerAgreesWithTokenizer` | src/bin/tui/lua_syntax.rs:53-95 | the scanner's state after a line is the level of the bracket in which the tokenizer ran off it |
| `LuaSyntaxTheorems.LinesAgreeWithFile` | src/bin/tui/lua_syntax.rs:38-50 | scanning line by line gives what one scan of the whole text gives |
| `LuaStrings.AgreesWithLuaIff` | src/bin/tui/lua_syntax.rs:122-138 | at the start of every line the scanner has the state of Lua's own rule, by which a string may run on behind a backslash, exactly if no line as the scanner reads it leaves a string open |
| `LuaStrings.AcceptedAgreesIff` | src/bin/tui/lua_syntax.rs:122-138 | in a file that Lua accepts the scanner has Lua's state at every line exactly if no quoted string runs over a line end |
| `LuaStrings.ContinuedStringMisleads` | src/bin/tui/lua_syntax.rs:135-137 | a file that Lua accepts, after which the scanner is inside a long bracket |
| `LuaColours.LinesShowTheText` | src/bin/tui/lua_syntax.rs:144-243 | every line, tokenized from its scanner state, shows each character in the kind one reading of the whole text gives it, exactly but for later lines of a long string (shown as comment) and words called by a parenthesis on a later line (shown as plain) |
| `LuaColours.LongStringLooksLikeComment` | src/bin/tui/lua_syntax.rs:149-162 | a long string of two lines whose second is shown as comment |
| `LuaColours.CallLooksPlain` | src/bin/tui/lua_syntax.rs:241-244 | a call over two lines whose word is shown as plain |
| `LuaSyntaxRuns.FindBracket` | src/bin/tui/lua_syntax.rs:98-119 | finds a long bracket's level at a position |
| `LuaSyntaxRuns.SkipString` | src/bin/tui/lua_syntax.rs:122-138 | the position past a quoted string, escapes skipped, an open one ending with the line |
| `LuaSyntaxRuns.ScanLineBlocks` | src/bin/tui/lua_syntax.rs:53-94 | the state after a line is the scanner function's |
| `LuaSyntaxRuns.BlockState` | src/bin/tui/lua_syntax.rs:42-50 | each line's starting state is that of one scan over all text before it |
| `LuaSyntaxRuns.NextToken` | src/bin/tui/lua_syntax.rs:164-236 | one token outside brackets: where it ends and its kind |
| `LuaSyntaxRuns.PushRun` | src/bin/tui/lua_syntax.rs:249-258 | appends a run or merges it into the last one |
| `LuaSyntaxRuns.TokenizeLine` | src/bin/tui/lua_syntax.rs:144-239 | the loop's runs are the tokenizer function's, put together they are the line, and they are tidy |
| `DapDecoder.Decoder.Feed` | debug-client/bridge/dap.js:26-56 | all the messages a chunk completes, and the bytes and length left over, as the step function says |
| `DapTheorems.HeaderGivesLength` | debug-client/bridge/dap.js:59-62 | the header `encode` writes parses to the byte length it was written with |
| `DapHeaders.FirstLengthCounts` | debug-client/bridge/dap.js:37-43 | with any other headers before and after, the first `Content-Length` gives the length, or is refused if it is over the limit |
| `DapHeaders.WithoutLength` | debug-client/bridge/dap.js:39-42 | a header block without such a line has no length |
| `DapHeaders.NameCounts` | debug-client/bridge/dap.js:38-39 | the name counts in any case and with white space around it, and only that name |
| `DapHeaders.NumberIsRead` | debug-client/bridge/dap.js:41-41 | white space, a sign or none and decimal digits are read, whatever follows them |
| `DapHeaders.BadBodies` | debug-client/bridge/dap.js:42-52 | a length over the limit or a body that is no JSON ends the stream with that error; a body not yet whole is waited for |
| `DapTheorems.ChunksDoNotMatter` | debug-client/bridge/dap.js:30-34 | unless a negative length is met, every way of cutting a stream comes to the same rest or error, and hands on all its messages if it decodes, a front of them if it fails |
| `DapTheorems.MessagesSurviveChunking` | debug-client/bridge/dap.js:20-62 | any messages within the limit, encoded and cut anywhere, come back in order and leave the decoder empty |
| `DapTheorems.CutNeverMattersIff` | debug-client/bridge/dap.js:26-56 | for every stream: what is handed on and how it ends are the same for every cut if and only if no negative length is met and the stream decodes or fails before its first message, or else its first length is negative and every front of what follows fails for a body that is no JSON |
| `DapTheorems.FailureTakesItsFeed` | debug-client/bridge/dap.js:26-43 | a message followed by a blank line: cut between them the message is handed on before the error, in one piece only the error |
| `DapTheorems.NegativeLengthMatters` | debug-client/bridge/dap.js:40-49 | a header of length -1, any body that parses and one byte more: in one piece the body's message is handed on, cut behind the header the stream fails |
| `DapTheorems.LoneNegativeHeader` | debug-client/bridge/dap.js:40-46 | a stream that is only a header of length -1 fails alike however it is cut |
| `FileTree.BuildRows` | src/bin/tui/dap.rs:1204-1242 | once each and in preorder, exactly the files and directories whose ancestors are all open, with depth and marks |
| `FileTreeView.ShowsOnce` | src/bin/tui/dap.rs:1198-1203 | files and open directories settle the rows completely |
| `FileTreeView.ClosingHidesBelow` | src/bin/tui/dap.rs:1222-1231 | closing a directory hides exactly what is below it |
| `FileTreeView.TurningOverShows` | src/bin/tui/dap.rs:711-714 | opening a closed directory adds to the rows exactly what is below it, closing an open one takes exactly that away |
| `FileTreeView.TogglingTwiceRestores` | src/bin/tui/dap.rs:711-714 | turning a directory over twice restores the very rows |
| `FileTreeView.RevealedIsVisible` | src/bin/tui/dap.rs:697-703 | with everything above it open, a listed file is visible |
| `FileTreeView.DebugView.constructor` | src/bin/tui/dap.rs:302-311 | opens with the roots open and nothing else |
| `FileTreeView.DebugView.RebuildRows` | src/bin/tui/dap.rs:686-693 | the selection stays on its entry if that is still shown, else it is clamped |
| `FileTreeView.DebugView.Reveal` | src/bin/tui/dap.rs:696-708 | opens exactly the directories above the path; a listed file, or any path that is then visible, ends up selected; else the selection stays on its entry |
| `FileTreeView.DebugView.ToggleDir` | src/bin/tui/dap.rs:710-715 | the directory is open exactly if it was closed and all others are as they were; the rows gain or lose exactly what is below it; if it was selected it stays selected |
| `VarsList.AlwaysAForest` | src/bin/tui/dap.rs:467-493 | over any events the depth starts at 0 and rises by at most one, and only below an open node |
| `VarsList.CollapseUndoesInsert` | src/bin/tui/dap.rs:551-568 | collapsing undoes inserting below a closed node, whatever was inserted |
| `VarsList.UnknownReferenceChangesNothing` | src/bin/tui/dap.rs:552-557 | an answer to a reference the list does not hold is dropped, as is every answer after a resume |
| `VarsList.EventDoes` | src/bin/tui/dap.rs:454-568 | said of rows and positions: scopes give one closed header each, children go closed and one level deeper right behind the first node with their reference, closing drains what is deeper behind a node, a resume empties the list |
| `VarsList.ListIsAForest` | src/bin/tui/dap.rs:454-478 | the lists whose depth starts at 0 and rises by one only below an open node are exactly the preorders of forests with children only below open nodes, each of one forest only |
| `VarsList.EditIsOnTheTree` | src/bin/tui/dap.rs:558-568 | splicing and draining the list is giving one node of that forest new children, or taking all of them away |
| `VarsList.VarsPane.OnScopes` | src/bin/tui/dap.rs:450-485 | one closed header per scope, with its name and reference, replaces the list; an expensive one is marked |
| `VarsList.VarsPane.OnVariables` | src/bin/tui/dap.rs:486-494 | an answer the inspector waits for leaves the list alone; any other goes below its parent |
| `VarsList.VarsPane.FindNode` | src/bin/tui/dap.rs:555-557 | the first node with a reference, or the end |
| `VarsList.VarsPane.InsertRows` | src/bin/tui/dap.rs:551-567 | splices the rows in behind the first node with that reference |
| `VarsList.VarsPane.CollapseSelected` | src/bin/tui/dap.rs:882-891 | drains exactly the deeper nodes behind the selected one |
| `VarsList.VarsPane.SetRunning` | src/bin/tui/dap.rs:519-531 | nothing of the list and no pending inspection survives a resume |

## Left out

- Real processes, pipes, threads and memory orderings: pipes are queues, steps are sequentially consistent, and each lock region is one step; the clock is a number that never falls.
- The payload of a job in the protocol (function, arguments, tag, queueing and running times): it is carried by `Messages` and `Transport`, not by the state machine.
- A claim's counting and its sending are steps of their own, not tied to the thread that claimed: more interleavings than the program has.
- A child may die, and a started child may fail its handshake, at any time; a kill is modelled as marking the slot, with the child's end of stream coming whenever it comes.
- A job that itself raises an error containing the cancel marker text: in the protocol `Cancelled` ends a job only if its flag is set.
- ComputeTheorems.CancelHitsItsOwnJob: a cancel need not be effective, because a flag set before `run` resets it is lost; only that it never hits another job is claimed.
- The watchdog's kill may hit a worker that has moved on to another job, because its snapshot is used after the lock is released; nothing is claimed about which job a kill ends.
- `ComputeBridge::start`'s reading of the configuration, the snapshot for `server_info`, and the host thread as a method: its loop is the protocol's host steps.
- JobControl.FirstLinesAreKept: what a job logs after a call that panicked, should its code catch that.
- ComputeProgress.EveryJobCanBeReported: that a job can still be reported is proved, not that a fair scheduler will get there; pipes never fill, so a canceller's write under the lock on `live` always ends.
- WorkerHandle.Handle.Run: error texts are not modelled, so the outcome of a lost worker carries none.
- Building the Lua VM, the sandbox, `require`, the package path, the seeding of the random numbers and the running of Lua code.
- Text of error messages everywhere, and the rendering of the JSON path; that the path is restored is proved.
- Metatables: `t.get` and `t.set` of the JSON conversion are taken as raw access.
- LuaJIT's number conversion: an integral float and an integer are told apart by the VM that sends them.
- JSON text itself: parsing and writing are a pair of functions, inverse on what is written; whether a string is UTF-8 is decided as RFC 3629 says (`Utf8.TextExactly`).
- DapDecoder.Decoder.Feed: white space around a header name beyond ASCII is not trimmed, and a length of more than 308 digits is too long rather than unusable.
- CivilDate.UtcFieldsExact: reading the clock and writing log files.
- LuaStrings.AgreesWithLuaIff: Lua's rule is that of comments, long brackets and quoted strings; other lexical errors, such as an unknown escape, are not looked for. A line ends at a newline: a carriage return on its own, which Lua takes for one too, is not.
- LuaColours.LinesShowTheText: the reading of the whole text that lines are compared with ends quoted strings with their line, as the program does.
- LuaSyntaxRuns.TokenizeLine: the character classes above ASCII are parameters, and any choice will do.
- FileTree.BuildRows: paths are relative, of plain components, compared as byte strings; finding the files and opening them is left out.
- VarsList.VarsPane.OnScopes: the requests sent to the adapter are left out, as are the stack, the source pane, the inspector's rows and key handling other than collapse.
- The JavaScript ports of the tokenizer, the tree and the view, which are the same algorithms.
- Sessions, authentication, permissions, file and network efuns, rendering, telnet, TLS and the database.
