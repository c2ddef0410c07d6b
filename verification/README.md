# Verification of the scanner's hard core

A Dafny 4.11 model of the parts of this repository with the most logic, with proofs of what they
promise. `dafny verify dfyconfig.toml` checks it all.

- **Checksums** (`BitSerialCrc`, `CrcTables`, `FastCrc`). The driver SDK's CRC-16 and CRC-32 with their
  sliced loops, against a register that takes one bit at a time. The table literals are in the project
  and each is proved right.
- **Selectors** (`Dom`, `Sizzle`). jQuery's compiled matchers with one cache slot per node, against the
  meaning of a selector on a document.
- **Callback lists and Deferred** (`Callbacks`, `CallbackRuns`, `FiringRuns`, `Deferred`, `ProgressRuns`).
  Unknown callbacks may use the list again, so control is handed out at every call, and anything may happen
  before it comes back.
- **JSON values** (`JsonValue`, `JsonDocument`, `JsonEquality`). rapidjson's values with their flags, the
  events of `Accept` and the stack machine of the document, and `operator==`.
- **Memory pool** (`MemoryPool`, `PoolUse`). rapidjson's allocator on machine words that wrap.
- **Encodings and streams** (`Utf`, `ReadStreams`, `AutoUtf`). UTF-8 and UTF-16, buffered readers, and
  streams that find out their encoding.
- **Scanner** (`Livox`, `Scanner`, `ScannerRuns`, `SessionRuns`, `RequestRuns`, `ChunkRuns`, `ButtonRuns`).
  The watcher, the triggers and the LiDAR callbacks as one transition system; a class with the program's
  fields is proved to take its steps.
- **Camera and point files** (`Camera`, `SaveLaz`). The two threads around the pulse of every second, and
  the decimation of a point cloud.

Where the source changes state, a class with the source's fields has methods that are proved to compute a
function of the state, and the properties are proved about that function. What a function means is said
without it: selectors on the parents and siblings of a document, a recording by the packets that came in, a
list by the values fired, a request by what it leads to. `hide` statements only keep
definitions out of a proof that does not need them.

Where code and documentation disagree the model follows the code: a comment says that an object which
repeats a name never equals anything (3rd/Livox-SDK2/3rdparty/rapidjson/document.h:1104). It does, and equals
itself, exactly if its members of one name mean the same (`JsonEquality.RepeatedNames`).

Three more things one would expect hold only under a condition, which is given exactly: `==` is symmetric
(`JsonEquality.TurnedAround`), the pool keeps its blocks apart (`MemoryPool.MallocExact` and `ReallocExact`),
and frames carry tags of their own: no run without a certain race repeats one (`Camera.TagsRise`), and after
the race the next frame can (`Camera.TornTagsTwice`).

And one request can be lost: where the program starts scans by itself, a stop scan asked for while the idle
watcher sleeps is overwritten by a continuous one. `RequestRuns.PressBegins` says when.

What the model asks of the world: client pointers are set before the watcher starts; the clock does not run
backwards; the base allocator offers memory nobody has; `fread` and `istream::read` come up short only at
the end; the callers' addresses may have any alignment and words are loaded little-endian; characters of byte
streams are unsigned.

## Model

| member | source | states |
|---|---|---|
| BitSerialCrc.CrcConcat | 3rd/Livox-SDK2/3rdparty/FastCRC/FastCRCsw.cpp:61-85 | For either polynomial, running from the register left by `a` over `b` is running over `a` followed by `b` |
| BitSerialCrc.Shift8Linear | 3rd/Livox-SDK2/3rdparty/FastCRC/FastCRC_tables.hpp:40-237 | Eight clocks of the register are linear in the exclusive-or: what makes table lookups possible |
| BitSerialCrc.ByteStep | 3rd/Livox-SDK2/3rdparty/FastCRC/FastCRCsw.cpp:65-69 | A byte step splits into the lookup of the low byte and a shift of the rest |
| BitSerialCrc.Slice | 3rd/Livox-SDK2/3rdparty/FastCRC/FastCRCsw.cpp:48-52 | Four byte steps on a word are four independent lookups of its bytes, combined by exclusive-or |
| BitSerialCrc.FeedByte | 3rd/Livox-SDK2/3rdparty/FastCRC/FastCRCsw.cpp:65-69 | The eight bits of a byte, least significant first, are one exclusive-or and eight clocks |
| BitSerialCrc.CrcAppendByte | 3rd/Livox-SDK2/3rdparty/FastCRC/FastCRCsw.cpp:65-85 | Appending a byte to a message is one byte step on its register |
| BitSerialCrc.DifferenceSurvives | 3rd/Livox-SDK2/3rdparty/FastCRC/FastCRCsw.cpp:65-85 | Registers that differ stay different while equal bits are fed, and through as many different bits as there is room above the difference |
| BitSerialCrc.BurstDetected | 3rd/Livox-SDK2/3rdparty/FastCRC/FastCRCsw.cpp:61-152 | Two different messages of equal length that differ only within a window as wide as the register, at any bit position, leave different registers from any seed |
| BitSerialCrc.Crc16Burst | 3rd/Livox-SDK2/3rdparty/FastCRC/FastCRCsw.cpp:61-85 | In particular for CRC-16 and two neighbouring bytes |
| BitSerialCrc.Crc32Burst | 3rd/Livox-SDK2/3rdparty/FastCRC/FastCRCsw.cpp:119-152 | and for the CRC-32 register and four neighbouring bytes |
| CrcTables.Table16Meaning | 3rd/Livox-SDK2/3rdparty/FastCRC/FastCRC_tables.hpp:40-169 | Every literal of the four stacked sub-tables: entry `i` of sub-table `k` is the register after byte `i` and `k` zero bytes, polynomial 0x8408 |
| CrcTables.Table32Meaning | 3rd/Livox-SDK2/3rdparty/FastCRC/FastCRC_tables.hpp:172-237 | Every literal of the CRC-32 table is the register after its index, polynomial 0xEDB88320 |
| FastCrc.FeedWord | 3rd/Livox-SDK2/3rdparty/FastCRC/FastCRCsw.cpp:71-77 | Feeding four bytes one by one is one exclusive-or with the little-endian word and 32 clocks |
| FastCrc.ByteStep16Correct | 3rd/Livox-SDK2/3rdparty/FastCRC/FastCRCsw.cpp:65-83 | The CRC-16 byte step through the table is eight clocks on the exclusive-or with the byte, and stays within 16 bits |
| FastCrc.ByteStep32Correct | 3rd/Livox-SDK2/3rdparty/FastCRC/FastCRCsw.cpp:123-150 | The CRC-32 byte step likewise |
| FastCrc.CrcN4Correct | 3rd/Livox-SDK2/3rdparty/FastCRC/FastCRCsw.cpp:48-52 | The macro `crc_n4`, with its four lookups of a truncated register, is 32 clocks on the exclusive-or with the word |
| FastCrc.CrcSmN4DCorrect | 3rd/Livox-SDK2/3rdparty/FastCRC/FastCRCsw.cpp:101-105 | The macro `crcsm_n4d` is 32 clocks on the exclusive-or with the word |
| FastCrc.FastCRC16.Mcrf4xxCalc | 3rd/Livox-SDK2/3rdparty/FastCRC/FastCRCsw.cpp:61-85 | For every byte string, seed and alignment of its address, prologue, sixteen-byte blocks and tail compute the bit-serial reflected CRC of section C.2 of RFC 1662 |
| FastCrc.FastCRC32.Crc32Calc | 3rd/Livox-SDK2/3rdparty/FastCRC/FastCRCsw.cpp:119-152 | The same for CRC-32 with its inversions, section 8 of RFC 1952 |
| FastCrc.Crc32Continues | 3rd/Livox-SDK2/3rdparty/FastCRC/FastCRCsw.cpp:119-152 | Seeding CRC-32 with the CRC of `a` and running over `b` gives the CRC of `a` followed by `b` |
| FastCrc.Crc32DetectsBursts | 3rd/Livox-SDK2/3rdparty/FastCRC/FastCRCsw.cpp:119-152 | Messages that differ only inside four neighbouring bytes have different CRC-32 values |
| FastCrc.CheckValues | 3rd/Livox-SDK2/3rdparty/FastCRC/README.md:37-53 | Over the digits 1 to 9 the two reference checksums have the documented check values |
| Sizzle.PlainLoopAgrees | 3rd/jquery-3.3.1.js:2231-2239 | For the combinators of selectors, anchors to the context included and in every query, the searched-for answer of a compiled matcher is that of the plain loop: step, test, ask, go on |
| Sizzle.SkippingDiffers | 3rd/jquery-3.3.1.js:2249-2252 | A combinator with `next` is not the plain loop: on an element of that name whose parent alone would be accepted, the one fails and the other succeeds |
| Sizzle.NextApart | 3rd/jquery-3.3.1.js:2208-2214 | A combinator with `next` has cache slots of its own and looks at elements only |
| Sizzle.SoundFrame | 3rd/jquery-3.3.1.js:2244-2258 | Overwriting slots with cells of other combinators leaves everything this matcher may trust right |
| Sizzle.SoundAtStart | 3rd/jquery-3.3.1.js:2251-2252 | A query with a run number of its own trusts no slot left by earlier ones |
| Sizzle.Engine.Match | 3rd/jquery-3.3.1.js:2208-2284 | Running a compiled matcher on a node answers what the cache-free search answers, leaves every slot right, and never changes a cell of another combinator |
| Sizzle.Engine.MatchAll | 3rd/jquery-3.3.1.js:2272-2284 | The compound of matchers, asked last to first, accepts exactly when all accept |
| Sizzle.Engine.WalkFirst | 3rd/jquery-3.3.1.js:2216-2224 | The `first` branch asks only the nearest node of the direction |
| Sizzle.Engine.WalkPlain | 3rd/jquery-3.3.1.js:2231-2239 | The XML branch computes the search |
| Sizzle.Engine.WalkCached | 3rd/jquery-3.3.1.js:2240-2267 | The branch with one slot per node, whose cell all nodes of a walk share, computes the same search, nested combinators and overwritten slots included |
| Sizzle.Engine.Share | 3rd/jquery-3.3.1.js:2254-2263 | One assignment to the shared cell makes every slot that holds it right |
| Sizzle.SearchFinds | 3rd/jquery-3.3.1.js:2226-2269 | A walk succeeds exactly if some node related by the combinator is accepted by the inner matcher |
| Sizzle.CombinatorMeans | 3rd/jquery-3.3.1.js:1625-1630 | Direction and `first` of each of the four combinators find just the elements it stands for: a parent element is above with no element between, an adjacent one before with none between, an ancestor above, an earlier sibling before |
| Sizzle.LeadingMeans | 3rd/jquery-3.3.1.js:2412-2420 | In front of a selector they find the nodes a context may be at; above that is any node, so the document itself |
| Sizzle.WalkMeans | 3rd/jquery-3.3.1.js:2409-2465 | Wrapping a combinator around a matcher adds its token to the meaning |
| Sizzle.AnchorMeans | 3rd/jquery-3.3.1.js:2412-2431 | The context matcher means that the chain starts at a context node, or where the source lets it off |
| Sizzle.ElementMatcherMeans | 3rd/jquery-3.3.1.js:2272-2284 | `elementMatcher` keeps the meaning of a list of matchers |
| Sizzle.FilterMeans | 3rd/jquery-3.3.1.js:2437-2460 | A simple filter adds its token to the meaning |
| Sizzle.PicksSelects | 3rd/jquery-3.3.1.js:2409-2414 | Taking a leading combinator off a selector, and leaving all others between compounds, keeps its meaning |
| Sizzle.Engine.MatcherFromTokens | 3rd/jquery-3.3.1.js:2409-2465 | Compiled tokens accept exactly the nodes that the selector, read declaratively, selects; its combinators have names of their own |
| Sizzle.Engine.Compile | 3rd/jquery-3.3.1.js:2578-2606 | Each group of a selector is compiled to its own meaning, no two sharing a cache name |
| Sizzle.Engine.Query | 3rd/jquery-3.3.1.js:2470-2506 | A query returns, in order, exactly the candidates that some group of the selector picks, read on the parents and siblings of the document, whatever earlier queries left in the caches |
| Sizzle.SelectedInPlace | 3rd/jquery-3.3.1.js:2488-2506 | Of the candidates each stays, in its place among the others, exactly if some group picks it |
| Callbacks.CallbackList.Loop | 3rd/jquery-3.3.1.js:3263-3276 | The firing loop goes on to the next call, or to the next queued value, or ends, as the state function says |
| Callbacks.CallbackList.Close | 3rd/jquery-3.3.1.js:3278-3297 | The end of firing forgets, empties or disables the list |
| Callbacks.CallbackList.RunFire | 3rd/jquery-3.3.1.js:3255-3276 | Firing locks a once-list and starts with the first queued value |
| Callbacks.CallbackList.Return | 3rd/jquery-3.3.1.js:3267-3274 | A callback that returned `false` ends a stop-on-false round and forgets the value |
| Callbacks.CallbackList.AddAll | 3rd/jquery-3.3.1.js:3303-3331 | `add` appends all functions of nested arguments, and fires again with a remembered value |
| Callbacks.CallbackList.Push | 3rd/jquery-3.3.1.js:3312-3324 | The recursive inner `add` appends the flattened arguments in order, leaving out duplicates if the list is unique |
| Callbacks.CallbackList.FireAll | 3rd/jquery-3.3.1.js:3392-3402 | `fireWith` queues the value unless locked, and fires unless firing |
| Callbacks.CallbackList.DisableList | 3rd/jquery-3.3.1.js:3368-3372 | `disable` empties list, queue and memory and locks |
| Callbacks.CallbackList.LockList | 3rd/jquery-3.3.1.js:3380-3386 | `lock` disables the list only if nothing is remembered and nothing is firing |
| Callbacks.CallbackList.Remove | 3rd/jquery-3.3.1.js:3334-3347 | `remove` takes out every occurrence, and the running loop then neither skips nor repeats another callback |
| Callbacks.FlattenConcat | 3rd/jquery-3.3.1.js:3312-3324 | Arguments are opened up one by one, in order |
| Callbacks.UniqueAppend | 3rd/jquery-3.3.1.js:3314-3317 | A unique list takes a callback at its end exactly if it does not have it |
| Callbacks.UniqueContents | 3rd/jquery-3.3.1.js:3314-3317 | It keeps what it had, has all that was added, and each of that once |
| Callbacks.WithoutContents | 3rd/jquery-3.3.1.js:3334-3347 | Removing a callback leaves none of it and every other as often as before |
| CallbackRuns.FireWaiting | 3rd/jquery-3.3.1.js:3255-3297 | The first fire of a once-memory list calls the first of its callbacks, or ends if there are none |
| CallbackRuns.AddFired | 3rd/jquery-3.3.1.js:3303-3331 | Adding after the fire calls the new callbacks next, with the remembered value |
| CallbackRuns.FireFired | 3rd/jquery-3.3.1.js:3392-3402 | A second fire does nothing |
| CallbackRuns.ResumeFired | 3rd/jquery-3.3.1.js:3263-3297 | Returning from a callback calls the next one added, and ends when there is none |
| CallbackRuns.InvStep | 3rd/jquery-3.3.1.js:3255-3402 | Every `add`, `fire` and return, from outside or from inside a callback, keeps: the calls made are a prefix of the callbacks added |
| CallbackRuns.CalledExactlyOnce | 3rd/jquery-3.3.1.js:3225-3402 | Over every re-entrant run, each added callback is called once after the first fire, in order of adding, with the first value; nothing is called before, and all have been when none is running |
| FiringRuns.CallsInTurn | 3rd/jquery-3.3.1.js:3255-3402 | Over every re-entrant run of a list without `once` under `fire` and returns: each call is of the callback that is due, the next one with the same value, or the first with the next value fired after the last one or a `false` that stops the list; something runs exactly as long as a value has callbacks to go; at rest the list remembers the last value, or none if it was stopped or does not remember |
| FiringRuns.EveryValueToAll | 3rd/jquery-3.3.1.js:3255-3402 | So if `false` does not stop the list, call `k` of `n` callbacks is of callback `k % n` with the value fired as number `k / n`, and when nothing runs all of them have been made |
| FiringRuns.AddedToList | 3rd/jquery-3.3.1.js:3303-3331 | What is added to a list that remembers is called at once, from its first on; what is added while a callback runs stands behind the others |
| FiringRuns.AddedAfterwards | 3rd/jquery-3.3.1.js:3303-3331 | So after any such run the first callback added is called with the value remembered, or none is |
| FiringRuns.LockEndsRounds | 3rd/jquery-3.3.1.js:3380-3386 | Locking a list from inside a callback drops the values that wait and refuses all others; the callbacks left are each called once, in order, with the value under way |
| FiringRuns.LockDisables | 3rd/jquery-3.3.1.js:3380-3386 | Locking a list at rest that remembers nothing disables it, and one that remembers keeps its list |
| Deferred.InvStep | 3rd/jquery-3.3.1.js:3692-3744 | Every step of the six wired lists and the JavaScript stack keeps the Deferred open, settling or settled |
| Deferred.RunInv | 3rd/jquery-3.3.1.js:3692-3744 | so over every run of user code, inside callbacks or outside |
| Deferred.SettlesOnce | 3rd/jquery-3.3.1.js:3705-3726 | Over every run the state is set at most once, to what the first `resolve` or `reject` asked for, and user code that runs after that call finds it set |
| Deferred.OneSideOnly | 3rd/jquery-3.3.1.js:3698-3731 | Only one side is ever called, its callbacks once each, in order, with the first value; when nothing runs, all have been |
| Deferred.NotifyEnds | 3rd/jquery-3.3.1.js:3716-3720 | Once settled, `notify` called by user code changes nothing and calls nobody |
| ProgressRuns.FitRun | 3rd/jquery-3.3.1.js:3692-3744 | As long as nothing is settled, the two progress lists hold all that was attached, unlocked, and have exactly one callback on the stack if they are firing |
| ProgressRuns.NotifyCallsAll | 3rd/jquery-3.3.1.js:3723-3744 | `notify` on a pending deferred at rest calls every progress callback and every handler attached, once, in order, with its value, and leaves it pending |
| JsonValue.IntIsInt64 | 3rd/Livox-SDK2/3rdparty/rapidjson/document.h:858-885 | The `int` and `int64_t` constructors give the same number the same flags and payload |
| JsonValue.UintIsUint64 | 3rd/Livox-SDK2/3rdparty/rapidjson/document.h:865-899 | So do the `unsigned` and `uint64_t` constructors |
| JsonValue.Int64IsUint64 | 3rd/Livox-SDK2/3rdparty/rapidjson/document.h:873-899 | and the two 64-bit ones, exactly for numbers both can hold |
| JsonValue.BuiltIsShaped | 3rd/Livox-SDK2/3rdparty/rapidjson/document.h:770-935 | Values of the typed constructors meet what the library asserts when it walks them |
| JsonValue.OthersKind | 3rd/Livox-SDK2/3rdparty/rapidjson/document.h:1219-1231 | Nulls, booleans, objects and arrays answer yes to their own question and no to all others |
| JsonValue.StringKind | 3rd/Livox-SDK2/3rdparty/rapidjson/document.h:1219-1231 | So do strings, which also tell copies from constants and keep up to 21 characters inside |
| JsonValue.Int64Kinds | 3rd/Livox-SDK2/3rdparty/rapidjson/document.h:1219-1231 | A signed number is one of `int`, `unsigned`, `int64_t`, `uint64_t` exactly if that holds it |
| JsonValue.Uint64Kinds | 3rd/Livox-SDK2/3rdparty/rapidjson/document.h:1219-1231 | So is an unsigned one |
| JsonValue.DoubleKinds | 3rd/Livox-SDK2/3rdparty/rapidjson/document.h:1219-1231 | A double is a double and nothing else |
| JsonDocument.NumberRoundTrip | 3rd/Livox-SDK2/3rdparty/rapidjson/document.h:2318-2330 | A number survives the event chosen for it and the constructor that event runs, exactly if a number constructor made it |
| JsonDocument.StringRoundTrip | 3rd/Livox-SDK2/3rdparty/rapidjson/document.h:2520-2542 | A string survives exactly if a string constructor made it, short, copied or constant |
| JsonDocument.EventsLeaveValue | 3rd/Livox-SDK2/3rdparty/rapidjson/document.h:2286-2331 | Compiler correctness: from any stack the events of a value pass every assertion of the stack and leave that stack with exactly one value, the copy, on top |
| JsonDocument.MembersLeaveMembers | 3rd/Livox-SDK2/3rdparty/rapidjson/document.h:2297-2305 | The events of the members lay them on the stack in pairs |
| JsonDocument.ObjectClosed | 3rd/Livox-SDK2/3rdparty/rapidjson/document.h:2982-2988 | Closing an object pops exactly its members into the object that was opened |
| JsonDocument.ArrayClosed | 3rd/Livox-SDK2/3rdparty/rapidjson/document.h:2995-3000 | Closing an array likewise |
| JsonDocument.PairedLaid | 3rd/Livox-SDK2/3rdparty/rapidjson/document.h:2983-2986 | Reading the popped stretch as members undoes laying members down |
| JsonDocument.RoundTrip | 3rd/Livox-SDK2/3rdparty/rapidjson/document.h:2286-2331 | The copy equals the value, spare capacity aside, if and only if the typed constructors built the value |
| JsonDocument.RebuiltIsBuilt | 3rd/Livox-SDK2/3rdparty/rapidjson/document.h:2926-3000 | Whatever is copied, the copy is one the typed constructors build |
| JsonDocument.CopyOfCopy | 3rd/Livox-SDK2/3rdparty/rapidjson/document.h:2716-2725 | A copy of a copy is the copy |
| JsonDocument.AnyNumberBecomesDouble | 3rd/Livox-SDK2/3rdparty/rapidjson/document.h:770-779 | The constructor from a bare number type does not survive: it becomes the double zero |
| JsonDocument.Accept | 3rd/Livox-SDK2/3rdparty/rapidjson/document.h:2286-2331 | `Accept` into a document sends exactly the events of the value and leaves the old stack and its copy |
| JsonDocument.Document.EndObject | 3rd/Livox-SDK2/3rdparty/rapidjson/document.h:2982-2988 | The handler is the stack machine's step, its assertions being the precondition |
| JsonDocument.Document.EndArray | 3rd/Livox-SDK2/3rdparty/rapidjson/document.h:2995-3000 | The same for arrays |
| JsonDocument.Document.Populate | 3rd/Livox-SDK2/3rdparty/rapidjson/document.h:2716-2725 | Populating a document from a value built by constructors makes the document equal to it and leaves the stack empty |
| JsonEquality.FindMember | 3rd/Livox-SDK2/3rdparty/rapidjson/document.h:1519-1527 | The scan returns the first member of that name, or the end |
| JsonEquality.Equals | 3rd/Livox-SDK2/3rdparty/rapidjson/document.h:1110-1147 | The recursive comparison with its early exits computes the relation `Equal` |
| JsonEquality.NumbersCompared | 3rd/Livox-SDK2/3rdparty/rapidjson/document.h:1136-1142 | Integers compare equal exactly if they agree modulo 2^64, so rightly exactly if their signs agree too |
| JsonEquality.DoublesDecide | 3rd/Livox-SDK2/3rdparty/rapidjson/document.h:1136-1140 | With a double on either side numbers are compared as doubles |
| JsonEquality.IndexMeans | 3rd/Livox-SDK2/3rdparty/rapidjson/document.h:1115-1125 | With distinct names the unordered map of an object has one entry for every member |
| JsonEquality.Pigeonhole | 3rd/Livox-SDK2/3rdparty/rapidjson/document.h:1115-1125 | If distinct names all occur among equally many, those are distinct and nothing else occurs |
| JsonEquality.MatchedIndexes | 3rd/Livox-SDK2/3rdparty/rapidjson/document.h:1115-1125 | Objects agree as maps exactly if they have the same size and each member of one is found in the other with its value |
| JsonEquality.EqualIsSameMeaning | 3rd/Livox-SDK2/3rdparty/rapidjson/document.h:1110-1147 | If the left tree repeats no name: `==` holds exactly if the right one repeats none and both mean the same JSON value with unordered members, integers read exactly within `int64_t` or modulo 2^64 |
| JsonEquality.EqualIsEquivalence | 3rd/Livox-SDK2/3rdparty/rapidjson/document.h:1110-1147 | On such trees `==` is reflexive, symmetric and transitive |
| JsonEquality.ReorderedEqual | 3rd/Livox-SDK2/3rdparty/rapidjson/document.h:1115-1125 | Objects with the same members in another order are equal |
| JsonEquality.MinusOneEqualsHuge | 3rd/Livox-SDK2/3rdparty/rapidjson/document.h:1136-1142 | -1 equals 2^64 - 1 |
| JsonEquality.RepeatedNames | 3rd/Livox-SDK2/3rdparty/rapidjson/document.h:1102-1125 | Against the comment on the operator: an object that may repeat names, its values being trees that do not, equals itself, and equals any tree at all, exactly if its members of one name mean the same |
| JsonEquality.TurnedAround | 3rd/Livox-SDK2/3rdparty/rapidjson/document.h:1110-1147 | With repeated names an equality can be turned around exactly if every name on the right occurs on the left and members of one name on the right mean the same |
| JsonEquality.RepeatedNameAtWork | 3rd/Livox-SDK2/3rdparty/rapidjson/document.h:1102-1125 | An object with a repeated name that equals itself, and equals another from one side only |
| Livox.LivoxClient.StartLog | code/LivoxClient.cpp:149-155 | Both buffers become fresh and empty |
| Livox.LivoxClient.StopLog | code/LivoxClient.cpp:157-163 | Both buffers become null |
| Livox.LivoxClient.RetrieveData | code/LivoxClient.cpp:165-174 | The old buffers, null or not, come out and fresh ones go in |
| Livox.LivoxClient.PointCloudCallback | code/LivoxClient.cpp:243-300 | A packet of high-resolution points appends its points with a time stamp, in order, if there is a buffer; any other packet changes nothing |
| Livox.LivoxClient.ImuDataCallback | code/LivoxClient.cpp:320-359 | An IMU packet appends its sample if it has a time stamp and there is a buffer |
| Livox.PointsRecorded | code/LivoxClient.cpp:260-289 | A high-resolution packet whose points all have time stamps is appended as it is |
| Livox.UnstampedLeftOut | code/LivoxClient.cpp:279-289 | A point without one is left out, wherever it stands |
| Livox.SampleRecorded | code/LivoxClient.cpp:334-357 | A sample is appended exactly if it has a time stamp and there is a buffer |
| Livox.NothingRecorded | code/LivoxClient.cpp:260-300 | Packets of any other kind change nothing |
| Scanner.Controller.RequestStart | code/main.cpp:93-101 | `StartScan` moves on from rest only, and says so |
| Scanner.Controller.RequestStop | code/main.cpp:102-110 | `StopScan` stops scanning only, and says so |
| Scanner.Controller.PressStopScan | code/main.cpp:114-122 | `TriggerStopScan` likewise |
| Scanner.Controller.PressScan | code/main.cpp:130-176 | The scanning button in all its states, with its two clock readings |
| Scanner.Controller.WatchStep | code/main.cpp:335-707 | Each step of the watcher's loop is the transition of the model |
| Scanner.Controller.DispatchStep | code/main.cpp:347-707 | The look at the state at the top of the loop |
| ScannerRuns.TriggerMoves | code/main.cpp:93-176 | The only moves triggers can make between states |
| ScannerRuns.InvStep | code/main.cpp:93-707 | Every step of triggers, clock, LiDAR callbacks and watcher keeps phases, ledger, chunk numbers and stages |
| ScannerRuns.InvRun | code/main.cpp:93-707 | so does every interleaving of them |
| ScannerRuns.Ledger | code/main.cpp:458-616 | Batches, buffers and what is lost balance against a ledger of every session; sessions share out the chunks in order |
| SessionRuns.Conservation | code/main.cpp:458-616 | In every interleaving there is one session for every `stopLog`, in order. Once saved, its files hold, in order, exactly the stamped points of high-resolution packets, and the stamped samples, that came between its `startLog` and its last retrieval; what came between that and `stopLog` is lost. A session under way misses nothing |
| SessionRuns.ToldRun | code/main.cpp:458-616 | At any time the buffers hold what such packets brought since the buffers were last emptied |
| SessionRuns.PacketAdded | code/LivoxClient.cpp:260-357 | A callback adds to its buffer what its packet brings, and nothing to the other |
| ScannerRuns.NothingFiltered | code/main.cpp:242-248 | The IMU file's filter on time stamps never leaves a recorded sample out |
| ScannerRuns.BuffersOnlyWhileRecording | code/LivoxClient.cpp:149-174 | Buffers exist exactly in the recording and saving phases; `startLog` never replaces one and `retrieveData` never hands out null |
| ScannerRuns.NeverStopped | code/main.cpp:311-324 | STOPPED is never entered, and no save finds its directory missing |
| ScannerRuns.ChunksNumbered | code/main.cpp:514-529 | The k-th save has chunk number k - 1 across both directories |
| ScannerRuns.ErrorsAbsorb | code/main.cpp:349-385 | Nothing leaves the two error states |
| ScannerRuns.ThreePresses | code/main.cpp:130-176 | Without the one-click macro the button stops a recording exactly with the third of three presses since scanning was left, consecutive ones less than 2000 ms apart |
| ScannerRuns.ReturnsToScanning | code/main.cpp:534-572 | Otherwise, once a stage has run out, the watcher is back at SCANNING within seven of its steps, whatever else happens, the recording never interrupted |
| RequestRuns.StopEnds | code/main.cpp:102-107 | From every reached world in SCANNING, a stop request, or the button where one click stops, ends the session within eight steps of the watcher, whatever else happens: one finished session more, all its batches saved, the last as a continuous scan, and the scanner at rest |
| RequestRuns.EndsSaved | code/main.cpp:577-616 | So does any session that is to stop, of either kind |
| RequestRuns.RequestRecords | code/main.cpp:93-101 | At rest, a start request or the button leads within five steps of the watcher to a live recording of a continuous scan, unless the LiDAR has failed when the idle watcher looks; then to the error |
| RequestRuns.PressBegins | code/main.cpp:114-122 | At rest, a request for a stop scan leads within four steps to one that waits five seconds and then records for thirty; or to the error; or, where the program starts by itself and the watcher has slept over the request, to a continuous scan |
| RequestRuns.StillWaits | code/main.cpp:642-670 | Before its deadlines a stop scan neither begins to record nor ends, whatever happens |
| RequestRuns.StillRecords | code/main.cpp:642-662 | After the first one it records within three steps of the watcher |
| RequestRuns.StillEnds | code/main.cpp:663-707 | After the second one it ends within five, and is saved as a stop scan |
| ChunkRuns.ChunksFarApart | code/main.cpp:497-497 | A chunk is taken only more than ten seconds after the buffers were last emptied |
| ChunkRuns.ChunkTaken | code/main.cpp:497-530 | While nothing stops scanning, ten seconds after the last chunk the next one is taken within three steps of the watcher |
| ChunkRuns.SavedByKind | code/main.cpp:505-616 | Until the scanner is at rest again, all that is saved since a recording was live goes into the directory of its kind |
| ChunkRuns.CountedRun | code/main.cpp:505-616 | The two chunk counters count the saves into the two directories |
| ChunkRuns.NothingWithoutDirectory | code/main.cpp:505-530 | Were a directory missing, nothing would be saved and the program would fail |
| ButtonRuns.PressesStop | code/main.cpp:139-170 | From every reached world in SCANNING three presses stop the recording, with anything but presses between them, if each comes within two seconds |
| ButtonRuns.LatePress | code/main.cpp:139-170 | With time alone between them they stop it only then |
| ButtonRuns.StageLasts | code/main.cpp:534-572 | Up to its deadline a stage of stopping is left by a press only |
| ButtonRuns.StartUp | code/main.cpp:311-424 | After four steps of the watcher the program waits for requests, or has failed for want of a directory; a sensor not synchronized in time is noted as an error exactly if it is to be waited for |
| MemoryPool.AlignExact | 3rd/Livox-SDK2/3rdparty/rapidjson/rapidjson.h:291-294 | Alignment rounds up exactly unless its addition wraps, and then gives 0 |
| MemoryPool.RoomExact | 3rd/Livox-SDK2/3rdparty/rapidjson/allocators.h:212-212 | The test for room is right exactly if its sum does not wrap |
| MemoryPool.HugeRequestPasses | 3rd/Livox-SDK2/3rdparty/rapidjson/allocators.h:208-220 | A request just short of the address space, which is not one of those, is granted from a chunk of 64 KiB and leaves the pool ill-formed |
| MemoryPool.BufferExact | 3rd/Livox-SDK2/3rdparty/rapidjson/allocators.h:153-168 | The room of the caller's buffer lies in the buffer exactly if the header size is aligned |
| MemoryPool.AddChunkKeeps | 3rd/Livox-SDK2/3rdparty/rapidjson/allocators.h:268-281 | A new chunk keeps the pool well-formed and has room for the request |
| MemoryPool.CutKeeps | 3rd/Livox-SDK2/3rdparty/rapidjson/allocators.h:216-219 | Cutting a block gives one inside its chunk and apart from all others |
| MemoryPool.MallocKeeps | 3rd/Livox-SDK2/3rdparty/rapidjson/allocators.h:208-220 | If no sum wraps on the way it takes, `Malloc` keeps the pool well-formed and gives a new block of at least the size asked for, or changes nothing; it fails only without room and without memory |
| MemoryPool.MallocExact | 3rd/Livox-SDK2/3rdparty/rapidjson/allocators.h:208-220 | `Malloc` leaves a well-formed pool and a block as large as was asked for if and only if no sum wraps on the way it takes: alignment and the chunk's room, or else, with memory at hand, alignment and the new chunk's size |
| MemoryPool.LastIsLast | 3rd/Livox-SDK2/3rdparty/rapidjson/allocators.h:236-239 | The test for the last block passes only for the block that ends the newest chunk's used part, with its full size |
| MemoryPool.GrowLastKeeps | 3rd/Livox-SDK2/3rdparty/rapidjson/allocators.h:240-244 | Growing that block in place overlaps nothing |
| MemoryPool.ReallocKeeps | 3rd/Livox-SDK2/3rdparty/rapidjson/allocators.h:223-253 | If no sum wraps on the way it takes, `Realloc` keeps every block, and answers with the old one, grown or large enough, or with a new one |
| MemoryPool.ReallocExact | 3rd/Livox-SDK2/3rdparty/rapidjson/allocators.h:223-253 | With a truthful old size, `Realloc` leaves a well-formed pool and a block as large as was asked for if and only if no sum wraps on the way it takes |
| MemoryPool.ReallocKeepsBytes | 3rd/Livox-SDK2/3rdparty/rapidjson/allocators.h:223-253 | In every case the first bytes of the block, as many as the caller had asked for, are the old ones, and every other block keeps its own |
| MemoryPool.ClearKeeps | 3rd/Livox-SDK2/3rdparty/rapidjson/allocators.h:178-186 | `Clear` leaves a well-formed pool with at most the caller's buffer |
| MemoryPool.SizeWithinCapacity | 3rd/Livox-SDK2/3rdparty/rapidjson/allocators.h:191-205 | `Size` never exceeds `Capacity` |
| MemoryPool.RunKeeps | 3rd/Livox-SDK2/3rdparty/rapidjson/allocators.h:133-281 | Over any sequence of legal requests and writes, all blocks since the last clearing lie in chunks, none overlap, and every byte written to a block is found in it, also after the block has moved |
| MemoryPool.EveryRun | 3rd/Livox-SDK2/3rdparty/rapidjson/allocators.h:133-281 | So for every pool from its construction on, empty or over a buffer of the caller; and what is in use never exceeds what there is |
| PoolUse.MallocGets | 3rd/Livox-SDK2/3rdparty/rapidjson/allocators.h:208-220 | A block lies next in the newest chunk if that has the bytes left; else, with memory at hand, at the start of a new chunk whose room is the larger of the chunk size and the block |
| PoolUse.ReallocGets | 3rd/Livox-SDK2/3rdparty/rapidjson/allocators.h:223-253 | A block stays if it is large enough, grows in place if it is the newest and the bytes are left behind it, and else becomes a new one; nothing comes of asking for no bytes |
| PoolUse.MallocCounts | 3rd/Livox-SDK2/3rdparty/rapidjson/allocators.h:191-220 | `Capacity` grows with a new chunk by the larger of the chunk size and the block, and never else; `Size` grows by the block |
| PoolUse.OneChunkServes | 3rd/Livox-SDK2/3rdparty/rapidjson/allocators.h:208-220 | From an empty pool, requests that fit into one chunk together are all served from one, side by side, in order |
| PoolUse.ClearRestores | 3rd/Livox-SDK2/3rdparty/rapidjson/allocators.h:178-186 | After any run, `Clear` brings back the pool as it was constructed |
| PoolUse.BufferServes | 3rd/Livox-SDK2/3rdparty/rapidjson/allocators.h:153-168 | A pool over a buffer serves from behind the header of the buffer first |
| MemoryPool.MemoryPoolAllocator.Malloc | 3rd/Livox-SDK2/3rdparty/rapidjson/allocators.h:208-220 | The code computes the model's allocation |
| MemoryPool.MemoryPoolAllocator.Realloc | 3rd/Livox-SDK2/3rdparty/rapidjson/allocators.h:223-253 | The code computes the model's reallocation and its memory; in all its cases the block keeps its first bytes and every other block its own |
| MemoryPool.MemoryPoolAllocator.Clear | 3rd/Livox-SDK2/3rdparty/rapidjson/allocators.h:178-186 | The loop ends, frees every chunk but the caller's buffer, each once, and empties that |
| MemoryPool.MemoryPoolAllocator.Size | 3rd/Livox-SDK2/3rdparty/rapidjson/allocators.h:201-205 | The sum over the chunks |
| MemoryPool.MemoryPoolAllocator.Capacity | 3rd/Livox-SDK2/3rdparty/rapidjson/allocators.h:191-196 | The sum over the chunks |
| Utf.GetRangeMeaning | 3rd/Livox-SDK2/3rdparty/rapidjson/encodings.h:269-297 | All 256 entries of the class table, as ranges of bytes |
| Utf.MaskMeaning | 3rd/Livox-SDK2/3rdparty/rapidjson/encodings.h:148-211 | The masks of the decoder let through exactly the ranges of section 4 of RFC 3629 |
| Utf.OnlyLength | 3rd/Livox-SDK2/3rdparty/rapidjson/encodings.h:159-206 | No other number of bytes could be a character at a place |
| Utf.EncodedIsUtf8 | 3rd/Livox-SDK2/3rdparty/rapidjson/encodings.h:108-126 | What is encoded follows the syntax exactly for scalar values, and encodes its number |
| Utf.ScalarReencoded | 3rd/Livox-SDK2/3rdparty/rapidjson/encodings.h:108-126 | A character of the syntax has a scalar value, and encoding that gives the character back |
| Utf.Decode | 3rd/Livox-SDK2/3rdparty/rapidjson/encodings.h:148-211 | Decoding succeeds exactly on the characters of section 4 of RFC 3629, gives their number, and takes just those bytes; past the end there are NULs |
| Utf.Validate | 3rd/Livox-SDK2/3rdparty/rapidjson/encodings.h:214-267 | Validation gives the verdict of decoding and copies the bytes that decoding takes |
| Utf.Encode | 3rd/Livox-SDK2/3rdparty/rapidjson/encodings.h:108-126 | The encoder writes the encoding |
| Utf.EncodeDecode | 3rd/Livox-SDK2/3rdparty/rapidjson/encodings.h:108-211 | Anywhere in a stream, encoding then decoding is the identity on scalar values, and fails on surrogates |
| Utf.DecodeEncode | 3rd/Livox-SDK2/3rdparty/rapidjson/encodings.h:108-211 | What was decoded encodes to the bytes taken |
| Utf.Decode16 | 3rd/Livox-SDK2/3rdparty/rapidjson/encodings.h:388-402 | UTF-16 decoding succeeds exactly on single units that are no surrogates and on pairs, and gives their number |
| Utf.EncodeDecode16 | 3rd/Livox-SDK2/3rdparty/rapidjson/encodings.h:355-402 | UTF-16 encoding then decoding is the identity on scalar values |
| Utf.DecodeEncode16 | 3rd/Livox-SDK2/3rdparty/rapidjson/encodings.h:355-402 | What UTF-16 decoding accepts encodes to the units taken |
| Utf.MemoryStream.Take | 3rd/Livox-SDK2/3rdparty/rapidjson/memorystream.h:55-55 | The bytes in order, then NUL for ever |
| ReadStreams.FileReadStream.Read | 3rd/Livox-SDK2/3rdparty/rapidjson/filereadstream.h:90-105 | The cursor moves by one byte, over the edge of the buffer too, and stops at the end of the file |
| ReadStreams.FileReadStream.Take | 3rd/Livox-SDK2/3rdparty/rapidjson/filereadstream.h:63-67 | The characters are the bytes of the file in order and then NUL for ever; `Tell` counts the bytes and never passes the length |
| ReadStreams.FileReadStream.Peek4 | 3rd/Livox-SDK2/3rdparty/rapidjson/filereadstream.h:85-87 | If it answers, it points at the next four real bytes |
| ReadStreams.BasicIStreamWrapper.Read | 3rd/Livox-SDK2/3rdparty/rapidjson/istreamwrapper.h:125-140 | The same over a C++ stream that reports short reads |
| ReadStreams.BasicIStreamWrapper.Take | 3rd/Livox-SDK2/3rdparty/rapidjson/istreamwrapper.h:94-98 | The same characters |
| ReadStreams.BasicIStreamWrapper.Peek4 | 3rd/Livox-SDK2/3rdparty/rapidjson/istreamwrapper.h:116-118 | The same four bytes |
| AutoUtf.PutTake | 3rd/Livox-SDK2/3rdparty/rapidjson/encodings.h:422-616 | In each of five encodings a unit is read back from the bytes it was written as, wherever they lie |
| AutoUtf.AutoUTFOutputStream.constructor | 3rd/Livox-SDK2/3rdparty/rapidjson/encodedstream.h:334-351 | The mark is written if asked for |
| AutoUtf.AutoUTFOutputStream.PutUnit | 3rd/Livox-SDK2/3rdparty/rapidjson/encodedstream.h:353-353 | A unit is written in the stream's encoding |
| AutoUtf.FindMark | 3rd/Livox-SDK2/3rdparty/rapidjson/encodedstream.h:232-262 | The tests of the first word find the mark that its bytes begin with |
| AutoUtf.AutoUTFInputStream.DetectType | 3rd/Livox-SDK2/3rdparty/rapidjson/encodedstream.h:217-305 | The encoding is found by the mark, else by the pattern of NULs, else it is the one given; the mark is skipped |
| AutoUtf.AutoUTFInputStream.TakeNext | 3rd/Livox-SDK2/3rdparty/rapidjson/encodedstream.h:193-197 | The k-th call answers the k-th unit after the mark |
| AutoUtf.DetectedByMark | 3rd/Livox-SDK2/3rdparty/rapidjson/encodedstream.h:217-305 | A text with its mark is detected exactly if it has four bytes and is not UTF-16LE with a NUL unit first |
| AutoUtf.ReadBack | 3rd/Livox-SDK2/3rdparty/rapidjson/encodedstream.h:180-197 | What was written after the mark is read back unit for unit, and then NUL for ever |
| AutoUtf.WriteAndRead | 3rd/Livox-SDK2/3rdparty/rapidjson/encodedstream.h:180-393 | What the output stream writes with a mark, the input stream detects and reads back unit for unit, and then NUL for ever, through a buffer of any size |
| AutoUtf.DetectedWithoutMark | 3rd/Livox-SDK2/3rdparty/rapidjson/encodedstream.h:264-297 | Without a mark a JSON text is detected as section 3 of RFC 4627 says |
| AutoUtf.NulsDecide | 3rd/Livox-SDK2/3rdparty/rapidjson/encodedstream.h:264-305 | Without a mark the set of NULs among the first four bytes decides, and any other pattern, or a shorter text, leaves the encoding given |
| Camera.InvStep | extras/libcamera/LibCameraWrapper.cpp:199-515 | Every load and store of the two threads keeps the count of frames within the edges, the tags, and the requests |
| Camera.EveryRun | extras/libcamera/LibCameraWrapper.cpp:199-515 | Under every interleaving no more frames are kept than there were edges, each is tagged with a recorded edge within the age, and in streaming mode every completed request goes back, in order |
| Camera.TagsRise | extras/libcamera/LibCameraWrapper.cpp:199-457 | Over every run with rising edges in which no flag is cleared in a torn world (the next edge is stored, its flag is not yet up, and the frame in hand already carries it), the tags of the kept frames rise strictly |
| Camera.TornTagsTwice | extras/libcamera/LibCameraWrapper.cpp:199-457 | Clearing the flag in any torn world lets two frames carry one tag: that frame, and any next one near enough to the edge |
| Camera.TornReached | extras/libcamera/LibCameraWrapper.cpp:199-457 | Torn worlds are reached, with any two rising edges and any frame near enough to the second |
| Camera.FrameDecided | extras/libcamera/LibCameraWrapper.cpp:411-515 | A completed request keeps its frame, under the last edge, exactly if it was not cancelled, an edge is due and the two are less than the age apart; it then uses up the edge, and is queued again unless capturing is for one frame |
| Camera.WithoutEdge | extras/libcamera/LibCameraWrapper.cpp:443-460 | Over every run without another edge nothing more is kept |
| Camera.CaptureForgetsEdge | extras/libcamera/LibCameraWrapper.cpp:520-524 | An edge that was due before a capture does not count for it |
| Camera.CaptureRequeues | extras/libcamera/LibCameraWrapper.cpp:520-529 | Until the next one, a capture of one frame queues nothing again and any other every request, in order |
| Camera.LibCameraWrapper.RequestCompare | extras/libcamera/LibCameraWrapper.cpp:450-454 | The comparison of a frame with the last edge is the model's step |
| Camera.LibCameraWrapper.Capture | extras/libcamera/LibCameraWrapper.cpp:520-529 | Starting a capture clears the flag |
| SaveLaz.Save | code/save_laz.cpp:15-153 | The header counts exactly the points written, which are those at the chosen indices, and its box holds all points of the buffer and touches them on every side |
| SaveLaz.MetresMeaning | code/save_laz.cpp:32-34 | A thousand millimetres are a metre |
| SaveLaz.Box | code/save_laz.cpp:21-43 | The box holds every point of the buffer and each of its sides touches one |
| SaveLaz.CountLoop | code/save_laz.cpp:75-78 | The count loop counts the chosen indices, a wrapping index included |
| SaveLaz.WriteLoop | code/save_laz.cpp:125-153 | The write loop writes the points at the chosen indices, in order |
| SaveLaz.Count | code/save_laz.cpp:75-78 | There is one index for every multiple of the step below the size |
| SaveLaz.AllWritten | code/save_laz.cpp:66-72 | Up to 4,000,000 points, all are written |
| SaveLaz.SomeWritten | code/save_laz.cpp:66-72 | Of more, between 1,333,334 and 2,000,000 are, at indices 0, step, 2 step and so on |
| SaveLaz.EndsReached | code/save_laz.cpp:66-72 | Both bounds are reached |

## Left out

- FastCrc: the variants behind `CRC_BIGTABLES`, and the streaming `_upd` wrappers, which store the result as the next seed.
- Sizzle: every query takes a run number of its own; the source also restores the number when queries nest. Positional filters, `:has` and `:not`, seeds, and the tokenizer. Simple filters are sets of nodes, and of the `next` combinators only their one use, for disabled ancestors, is in the model.
- Sizzle.Engine.Query: a query that runs inside another one, from a filter, is not modelled; the source restores the outer run number when it ends.
- Callbacks: `has`, `empty` and the option string; contexts and arguments of a call are one value.
- Deferred: modelled on values, on the functions that the class of callback lists is proved to compute; six objects calling each other through closures are not. `then` and its nested depths, `when`, and exceptions are not part of this model.
- JsonValue: pointers and the bytes of the unions, so also moves, `Swap` and the destructors; a value owns its elements. Inline strings hold 21 characters, as on a 64-bit machine without packed pointers. Sizes are unbounded where the source has 32 bits.
- JsonDocument: handlers other than the document, so the early exits of `Accept` are never taken; parsing; `RawNumber`.
- JsonEquality.Equals: comparing doubles is a parameter, since rounding is not modelled; the theorems about meaning are for trees without doubles.
- MemoryPool.SizeWithinCapacity: sums are unbounded; chunks that lie apart in one address space cannot add up to more than it.
- MemoryPool: the headers of chunks are kept apart from the memory, so no write can spoil them; and a size passed to `Realloc` that is larger than the block is not considered.
- Utf: UTF-32 and ASCII, `EncodeUnsafe`, the transcoders, and UTF-16 validation. UTF-16 is modelled on sequences of units.
- AutoUtf: the statically bound wrappers. On a machine where `char` is signed, UTF-8 units above 127 come back sign-extended.
- ReadStreams: read errors, which end the stream like the end of the file.
- Livox: message counters, serial numbers and status.
- Livox.LivoxClient.PointCloudCallback: the time stamps interpolated for the points of a packet are inputs; whether one is zero is all that matters here.
- Scanner: LEDs, beeps, status and web pages, the publisher, the benchmark, GNSS buffers, and the end of the program. A save is an entry in a log. The look at `app_state` at the top of the loop is one step, as is each trigger call.
- SessionRuns.Conservation: raw GNSS lines are not conserved by the source when a scan stops, and are not part of this model.
- ScannerRuns.ErrorsAbsorb: triggers are atomic; a trigger that is interrupted between its test and its assignment could leave an error state.
- Camera: the modes INTERNAL and XVS_HARD, decoding and the callback, and the adjustment of the clock offset. Times are below 2^63 nanoseconds, so the signed difference does not overflow. `capture` is one step.
- Camera.TagsRise: a run which clears the flag in a torn world, but keeps no frame within the age before the next edge, may have distinct tags too; it is not covered.
- SaveLaz.Save: buffers longer than the largest `int`, for which the source's index overflows; errors of the library, which is taken to store what it is given. The index is taken to wrap near that bound, where C++ leaves it undefined. Coordinates are real numbers, and the step's quotient, which a `double` holds closely enough, is exact.
