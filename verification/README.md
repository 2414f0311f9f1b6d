# Verified models of the course solutions

The repository holds solutions to the exercises of a Go course. This project models the finished ones that carry a hard
property, and proves the properties. `dafny verify dfyconfig.toml` checks all of it.

| file | models |
|---|---|
| IpTables, IpGrammar, IpAutomaton, IpLex, IpParser, IpRange | the table-driven parser of address lists (`iprange`), from text to ranges |
| IpNet, IpExpand | address arithmetic, CIDR blocks (section 3.1 of RFC 4632), expansion of ranges to sorted addresses |
| IpAddresses | from text to addresses: parsing, then expanding |
| RateLimit | the managing goroutine of the sliding-window rate limiter |
| WaitGroup, RWMutex | a wait group and a reader-writer lock made of channels |
| Rsem | a semaphore made of Redis keys with a time to live |
| Ledger | accounts in a table with row locks |
| ArtifactCache | reader and writer locks that guard directories |
| Hogwarts | ordering of courses by depth-first search |
| Duration | parsing of durations in wrapping 64-bit arithmetic |
| Lru | a cache made of a map and a doubly linked list |
| Hotel | a sweep over arrivals and departures |
| Sorting | what the library sort guarantees |

Code that changes things step by step is a method, or a class whose methods change its fields, and is proved against
functions over values. Concurrent code is also a step machine: a state, a set of events, and runs as sequences of
states, in which any number of goroutines, transactions or clients take their steps in any order. The theorems about
such code hold in every state of every run.

## How the main results fit together

**iprange.** `TablesEncodeAction` and `TablesEncodeGoto` show that the packed tables encode a 22-state automaton. `Run`
says what that automaton does with a stack and the tokens still to come, and the driver's methods are proved to follow
it. `ListRun` ties `Run` to a reader that goes from left to right, and `ReadingIsDerivation` ties the reader to the
derivations of the eleven productions. `ParseMeetsGrammar` puts them together: the driver answers 0 exactly on derivable
token sequences, for lists of any length. `ParsesIff` and `CrashesIff` carry this down to the characters: exactly the
spellings of lists parse. `PrintParses` is the round trip from lists to text and back, `CidrBlock` gives
the meaning of `base/n`, and `ExpandedBlock` and `ExpandList` carry it through to the addresses. `ExpandText` joins both
halves: a text that parses expands to exactly the addresses that its targets name.

**Protocols.** Each has an invariant that every step keeps, a safety theorem over all runs, and where it applies a
theorem that somebody can always go on together with a measure that falls with every step.

**Algorithms.** Each method equals, or is bounded on both sides by, a definition that does not look like the code:
cycles as paths, occupancy as a count of guests, the cache as a store with access times, durations as sums over a
grammar.

## Where the code differs from its documentation

* `iprange/y.go:492`: a prefix length above 32 (after reduction modulo 256) makes the parser panic. `CrashIsOverflow`
  says exactly when.
* `iprange/lex.go:57-61`: a number above 2^32-1 reads as the end of the input, so it and everything behind it are
  ignored: `1.2.3.*99999999999garbage` is accepted. `OversizedNumberAcceptedIff` says exactly when such a text is.
* `ratelimit/ratelimit.go:26-27` promises a limit for any interval. Grants carry the clock reading from before the
  blocking select, so over real time the limit holds for windows that are shorter by the delay (`GrantsAreLimited`), and
  for no longer ones, whatever the limit (`LimitHoldsIff`).
* `rwmutex/rwmutex.go:12-13` says that a blocked `Lock` excludes new readers. It does not: new readers can get in before
  it exactly while no writer is inside (`ReaderGetsInIff`), and `BlockedWriterIsOvertaken` is a run.
* `rsem/rsem.go:26` promises that no more than `limit` processes hold the semaphore. The script does not count a key in
  its last half second, so an attempt can break the limit exactly when the limit is reached but fewer keys are counted
  (`BreaksIffOverbooked`); `UnrefreshedHolderBreaksLimit` is a run. Nothing else breaks it (`WithinUnlessOverbooked`),
  so it holds while every holder refreshes its key within half a time to live (`LimitWhileRefreshing`).
* `distbuild/pkg/artifact/cache.go:152-153`: a new artifact starts with what the last commit or abort of its name left,
  exactly if that failed, and empty otherwise (`StartsWith`, `LeftoverIff`); `FailedCommitLeavesData` is a run.
* `hotelbusiness/README.md:34` asks for the days of change only. A guest who leaves on the day of arrival can make a
  load that is no change (`DayGuestIsNoChange`). There are none if and only if somebody stays the night of the first
  date and somebody the night before the last (`LoadsAreChangesIff`), in particular when every guest stays a night
  (`LoadsAreChanges`).

## Model

| member | source | states |
|---|---|---|
| `IpTables.TablesEncodeAction` | iprange/y.go:344-394 | for each of the 22 states and every token, the driver's lookup in the packed action, check, default and exception tables gives the decoded action |
| `IpTables.TablesEncodeGoto` | iprange/y.go:461-473 | the packed goto lookup gives the decoded goto of every state and production that can meet |
| `IpTables.TablesEncodeLength` | iprange/y.go:108-112 | the length table gives the lengths of the eleven right-hand sides |
| `IpTables.SimpleStateIgnoresToken` | iprange/y.go:345-348 | in a state without table entries the move does not depend on the token, so it need not be read |
| `IpNet.MaskedWord` | iprange/y.go:492-493 | masking an address with n ones rounds its 32-bit value down to a multiple of 2^(32-n) |
| `IpNet.MaskWord` | iprange/y.go:492-496 | the mask's 32-bit value is 2^32 - 2^(32-n) |
| `IpNet.WrapAround` | iprange/y.go:494-496 | the sum that wraps around a 32-bit word ends at the block's last address |
| `IpNet.CidrBlock` | iprange/y.go:489-505 | `base/n` is the aligned block of 2^(32-n) addresses, and exactly the addresses that share the n leading bits of base |
| `IpGrammar.ReadingIsDerivation` | iprange/y.go:103-112 | reading from left to right yields a list exactly when the tokens derive it from the productions; derivations are unique; a first oversized prefix is met exactly when a beginning of the tokens derives such a list |
| `IpAutomaton.StackDepth` | iprange/y.go:335-342 | in every stack of the automaton each state lies between fixed depths, never deeper than index 11 |
| `IpAutomaton.HandleIsPoppable` | iprange/y.go:447-459 | a reduction finds its whole right-hand side on the stack, above a state in which the production may begin |
| `IpAutomaton.ListRun` | iprange/y.go:302-542 | the automaton ends on every token sequence the way the left-to-right reading ends |
| `IpAutomaton.ParseMeetsGrammar` | iprange/y.go:302-542 | the driver succeeds exactly on derivable token sequences with prefix lengths up to 32, for lists of any length; it yields one range for each target; it panics exactly when a beginning of the tokens derives a list whose last target is the first oversized one |
| `IpLex.TokenNumbers` | iprange/y.go:263-291 | the translation of character codes, including the private codes and unknown characters |
| `IpLex.Lexer.constructor` | iprange/y.go:55 | a new lexer has the whole line before it, nothing pushed back, no error and no output |
| `IpLex.Lexer.Next` | iprange/lex.go:66-82 | the next rune, or the one pushed back; invalid bytes are skipped |
| `IpLex.Lexer.ReadByte` | iprange/lex.go:36-64 | a maximal run of digits as a value modulo 256, or the end of input if it does not fit 32 bits |
| `IpLex.Lexer.Lex` | iprange/lex.go:22-34 | one token code and value, and what is left to lex |
| `IpLex.ParseUint` | iprange/lex.go:57 | the decimal value of a digit string |
| `IpParser.Parser.Lex1` | iprange/y.go:349-351 | reading ahead does not change the tokens still to come |
| `IpParser.Parser.Act` | iprange/y.go:475-540 | the switch over production numbers computes the semantic value, or panics |
| `IpParser.Parser.NextMove` | iprange/y.go:344-394 | the move found through the tables is the automaton's, and a token is read only where it is needed |
| `IpParser.Parser.Recover` | iprange/y.go:410-427 | the search down the stack visits every state and finds none whose table entries shift the error token |
| `IpParser.Parser.ReduceBy` | iprange/y.go:442-541 | a reduction by the tables is the automaton's reduction, or its panic |
| `IpParser.Parser.Push` | iprange/y.go:329-342 | the new state and value go on the stack in place; the stack of 16 never has to grow |
| `IpParser.Parser.ShiftTo` | iprange/y.go:357-366 | a shift consumes one token and leaves the outcome of the parse as it was |
| `IpParser.Parser.Follow` | iprange/y.go:357-366 | a shift or reduction keeps the outcome of the parse and makes progress in a well-founded order |
| `IpParser.Parser.Finish` | iprange/y.go:390-427 | the accepting entry and the first syntax error end the parse as the automaton does |
| `IpParser.Parser.Pass` | iprange/y.go:329-541 | each pass from one push to the next keeps the outcome and makes progress, or ends with that outcome |
| `IpParser.Parser.Parse` | iprange/y.go:302-542 | the goto-style driver terminates on every input with every index in range, and ends as the automaton does |
| `IpRange.ParseList` | iprange/y.go:54-61 | a text parses to the ranges of the one list that its tokens derive, is rejected, or crashes |
| `IpRange.Parse` | iprange/y.go:65-71 | the first range; a list that was parsed is not empty |
| `IpRange.RangesInOrder` | iprange/y.go:477-488 | one range for each target, in the order of the targets |
| `IpRange.LexSpelling` | iprange/lex.go:22-82 | lexing any spelling of tokens, with any numerals that fit 32 bits, gives the tokens back |
| `IpRange.SpellingParses` | iprange/y.go:52-61 | every spelling of a list parses to the list's ranges |
| `IpRange.PrintParses` | iprange/y.go:52-61 | printing any list and parsing the text gives the list's ranges |
| `IpRange.MeaningIsDerivation` | iprange/y.go:54-61 | a text parses to given ranges exactly when its tokens derive a list with these ranges |
| `IpRange.CrashIsOverflow` | iprange/y.go:489-498 | parsing crashes exactly when a beginning of the tokens derives a list whose last prefix length is above 32 and the others are not |
| `IpRange.SeenTokens` | iprange/lex.go:66-82 | invalid bytes make no difference to the tokens of a text |
| `IpRange.Unlex` | iprange/lex.go:22-82 | the converse of lexing a spelling: every text is a spelling of the tokens read off it, as long as they occur in lists |
| `IpRange.ParsesIff` | iprange/y.go:54-61 | a text parses to given ranges if and only if it spells a list with these ranges, perhaps followed by a number above 2^32-1 and anything; so an unknown character in front of that is rejected, and every other text is rejected or crashes |
| `IpRange.CrashesIff` | iprange/y.go:489-498 | a text crashes the parser if and only if it begins with a spelling of a list whose last prefix length is the first above 32 |
| `IpRange.OversizedNumberIsIgnored` | iprange/lex.go:57-61 | behind tokens that do not end in a number, a number above 2^32-1 and whatever text follows it are ignored: the text means what it means without them |
| `IpRange.OversizedNumberAcceptedIff` | iprange/lex.go:57-61 | such a text parses to given ranges if and only if the tokens in front of the number derive a list with these ranges, whatever follows |
| `IpExpand.Advance` | iprange/funcs.go:47-59 | one turn of the odometer, in place: the mixed-radix value grows by one and the digits stay within the widths |
| `IpExpand.StreamRange` | iprange/funcs.go:11-65 | all addresses of a range, as many as the product of the widths plus one, the k-th at the k-th offset, for any number of digits |
| `IpExpand.EachOffsetOnce` | iprange/funcs.go:35-60 | every offset vector within the widths is used, at exactly one place |
| `IpExpand.OffsetsInOrder` | iprange/funcs.go:47-59 | offsets come in lexicographic order |
| `IpExpand.ExpandRange` | iprange/funcs.go:67-74 | exactly the addresses of the range, each once |
| `IpExpand.Normalize` | iprange/funcs.go:85-95 | strictly ascending, with exactly the addresses given, for any outcome of the sort |
| `IpExpand.ExpandList` | iprange/funcs.go:76-83 | strictly ascending, and exactly the union of the ranges; the empty list crashes |
| `IpExpand.ExpandedBlock` | iprange/funcs.go:67-74 | expanding `base/n` gives exactly the addresses that share the n leading bits of base |
| `IpExpand.RangeIsSteps` | iprange/funcs.go:11-65 | an address belongs to a range exactly when each of its bytes is no further up from the lower end than the upper end is, in bytes that wrap around |
| `IpAddresses.TargetMembers` | iprange/y.go:489-540 | the range of a target holds exactly the addresses that it names: the octets of each term, or the shared leading bits; a span that counts down wraps around |
| `IpAddresses.RangesAreIPv4` | iprange/funcs.go:76-83 | what parsing yields is not empty and holds IPv4 addresses only, as the expansion expects |
| `IpAddresses.ListMembers` | iprange/funcs.go:76-83 | the ranges of a list hold exactly the addresses that its targets name |
| `IpAddresses.ExpandText` | iprange/funcs.go:76-83 | parsing a text and expanding the result never crashes in the expansion, and yields in strictly ascending order exactly the addresses that the targets of the derived list name |
| `Sorting.Sort` | iprange/funcs.go:86 | the same elements, ordered by key |
| `RateLimit.Limiter.CleanupOldTimestamps` | ratelimit/ratelimit.go:96-103 | drops the leading stamps that are older than the interval, and no others |
| `RateLimit.Limiter.ProcessWaitingRequests` | ratelimit/ratelimit.go:105-120 | answers the head of the queue while there is room, each request at its own time; cancelled requests take no room |
| `RateLimit.Limiter.HandleNewRequest` | ratelimit/ratelimit.go:139-156 | refuses, grants or queues a request |
| `RateLimit.Limiter.HandleStop` | ratelimit/ratelimit.go:158-176 | answers all that wait and all that still arrive |
| `RateLimit.Limiter.ProcessEvents` | ratelimit/ratelimit.go:122-137 | a request, a tick or a stop, as the step function handles it; only a stop ends the loop |
| `RateLimit.Limiter.RunLoop` | ratelimit/ratelimit.go:57-72 | the loop follows the step function round by round and ends with a stop |
| `RateLimit.RunEnds` | ratelimit/ratelimit.go:133-135 | nothing happens after a stop |
| `RateLimit.ReceiveKeeps` | ratelimit/ratelimit.go:139-156 | a direct grant keeps the window and queue invariants, since nobody waits while there is room |
| `RateLimit.StepKeeps` | ratelimit/ratelimit.go:57-72 | every round keeps the window and queue invariants; after a stop nobody waits |
| `RateLimit.StampsAreLimited` | ratelimit/ratelimit.go:26-27 | over every run with clock readings that do not fall, no closed window as long as the interval holds more than maxCount grant stamps |
| `RateLimit.GrantsAreLimited` | ratelimit/ratelimit.go:26-27 | if every round sends what it may grant at most a delay after its clock reading, real windows shorter than the interval by that delay hold at most maxCount grants |
| `RateLimit.DelayIsVisible` | ratelimit/ratelimit.go:58-68 | for every limit and every delay up to the interval, a run in which a window one tick longer than that holds maxCount + 1 grants |
| `RateLimit.LimitHoldsIff` | ratelimit/ratelimit.go:26-27 | over all runs with a given bound on the delay, windows of a given real length hold at most maxCount grants if and only if length and delay together do not exceed the interval (or the limit is 0 or less, when nothing is granted) |
| `RateLimit.NoOvertaking` | ratelimit/ratelimit.go:105-156 | requests are granted in the order of arrival, none before one that still waits |
| `RateLimit.AnsweredOnce` | ratelimit/ratelimit.go:105-176 | a request has at most one answer, so its channel of capacity one has room; it has one exactly when it was received and does not wait; after a stop every received request has one |
| `RateLimit.VerdictsFit` | ratelimit/ratelimit.go:105-187 | over every run, each answer is given in a round, to a request that waited or arrived in it: a grant only to one whose context the round does not find done, a cancellation only to one whose context it does, and ErrStopped only in a stop round to one whose context is not done; stamps and times are those of the round |
| `RateLimit.WaitsOnlyWhenFull` | ratelimit/ratelimit.go:105-156 | if somebody waits after a round, the window that ends at its clock reading holds exactly maxCount grant stamps: nobody waits without need |
| `WaitGroup.StepKeepsMutex` | waitgroup/waitgroup.go:42-88 | the token of mu is in its channel or with exactly one goroutine |
| `WaitGroup.StepKeepsCounter` | waitgroup/waitgroup.go:46-65 | without a panic the counter is not negative, and the holder of mu knows its sign |
| `WaitGroup.StepKeepsToken` | waitgroup/waitgroup.go:53-64 | at counter 0 the wake-up token is in ch, on its way there, or with a waiter past its receive; at a positive counter it is not in ch, unless it is just being taken away |
| `WaitGroup.CounterIsSum` | waitgroup/waitgroup.go:46-48 | over every run without a panic, the counter is the sum of the deltas of the calls of Add that have counted theirs |
| `WaitGroup.EachWakeUpTakesToken` | waitgroup/waitgroup.go:53-86 | over every run, blocked waits go on no more often than a token was put into ch |
| `WaitGroup.RunKeepsInv` | waitgroup/waitgroup.go:42-88 | all of this in every state of every interleaving without a panic |
| `WaitGroup.WaitReturnsAfterZero` | waitgroup/waitgroup.go:72-88 | a Wait that returns had a counter of 0 at some moment after it began |
| `WaitGroup.NobodyIsStuck` | waitgroup/waitgroup.go:42-88 | at counter 0, if a goroutine is inside a call then some goroutine can go on |
| `WaitGroup.StepsRunOut` | waitgroup/waitgroup.go:42-88 | every step inside a call lowers a bounded measure |
| `WaitGroup.AllWaitsReturn` | waitgroup/waitgroup.go:72-88 | while the counter stays 0, also with the last Done still on its way out of Add, the steps that are left are bounded, and when none is possible every goroutine has left its call, whatever the schedule |
| `WaitGroup.UnlockNeverBlocks` | waitgroup/waitgroup.go:65-87 | sending the token back to mu never blocks |
| `WaitGroup.WaitGroup.Add` | waitgroup/waitgroup.go:42-66 | adds delta to the counter and ends where its steps end when not interrupted; it panics exactly when the counter becomes negative |
| `WaitGroup.WaitGroup.Done` | waitgroup/waitgroup.go:68-70 | takes 1 from the counter; it panics exactly at counter 0 |
| `WaitGroup.WaitGroup.Wait` | waitgroup/waitgroup.go:72-77 | at counter 0 it returns at once and changes nothing |
| `WaitGroup.WaitGroup.constructor` | waitgroup/waitgroup.go:19-27 | both tokens are in their channels |
| `RWMutex.RunKeepsInv` | rwmutex/rwmutex.go:37-74 | in every interleaving the r token is in its channel or with one call, the counter is the number of readers, and the w token is in its channel, with one writer, or with the group of readers |
| `RWMutex.WriterIsAlone` | rwmutex/rwmutex.go:5-7 | never two writers, never a writer together with a reader |
| `RWMutex.CounterIsGuarded` | rwmutex/rwmutex.go:37-57 | two calls never access the counter at the same time |
| `RWMutex.SendsNeverBlock` | rwmutex/rwmutex.go:43-73 | every send finds room in its channel |
| `RWMutex.SomebodyMoves` | rwmutex/rwmutex.go:37-64 | when nobody is inside, some pending call can go on |
| `RWMutex.StepsRunOut` | rwmutex/rwmutex.go:37-74 | every step lowers a bounded measure |
| `RWMutex.ReaderGetsInIff` | rwmutex/rwmutex.go:12-13 | from any reachable state in which a Lock is blocked, a new RLock can get in before it, by steps of pending calls alone (no new call, no Unlock), if and only if no writer is inside |
| `RWMutex.ReaderNeedsNobodyIff` | rwmutex/rwmutex.go:37-44 | it gets in by its own four steps without waiting exactly when the r token is free and a reader is inside or the w token is free |
| `RWMutex.BlockedWriterIsOvertaken` | rwmutex/rwmutex.go:9-14 | a run in which a reader gets in past a blocked writer, against the documentation |
| `RWMutex.Lock.constructor` | rwmutex/rwmutex.go:22-30 | both tokens are in their channels and nobody reads |
| `RWMutex.Lock.RLock` | rwmutex/rwmutex.go:37-44 | an uninterrupted RLock ends where its four steps end |
| `RWMutex.Lock.RUnlock` | rwmutex/rwmutex.go:50-57 | an uninterrupted RUnlock ends where its four steps end |
| `RWMutex.Lock.WLock` | rwmutex/rwmutex.go:62-64 | an uninterrupted Lock ends where its step ends |
| `RWMutex.Lock.WUnlock` | rwmutex/rwmutex.go:72-74 | an uninterrupted Unlock ends where its step ends |
| `Rsem.Server.CountKeys` | rsem/rsem.go:51-66 | counts the scanned keys that exist and whose rounded time to live is positive |
| `Rsem.CountedIff` | rsem/rsem.go:57-64 | a key counts exactly until the last half second of its time to live |
| `Rsem.Server.Acquire` | rsem/rsem.go:40-113 | the script, in its order of commands, answers and leaves the keys as the specification function says |
| `Rsem.AttemptOutcome` | rsem/rsem.go:40-113 | for a call that is retrying, the branches "already held", "retry after NX" and "NX failed" cannot be reached, and a refused attempt leaves the keys as they were |
| `Rsem.AttemptAnswered` | rsem/rsem.go:119-148 | in every run, an answered attempt lets the call in with a key for a whole time to live, or changes nothing at all |
| `Rsem.AttemptLost` | rsem/rsem.go:125-132 | an attempt whose answer is lost does to the keys what it would have done, and ends its own call only |
| `Rsem.RunKeepsInv` | rsem/rsem.go:119-145 | a call that is retrying has no key, and no key outlives its last refresh by more than the time to live |
| `Rsem.CountCovers` | rsem/rsem.go:51-66 | the count is no smaller than any set of processes with counted keys, even if SCAN repeats keys |
| `Rsem.OnlyOverbookingBreaks` | rsem/rsem.go:26 | the only step that takes the semaphore over its limit is an answered attempt in a state in which fewer than limit keys are counted while at least limit processes hold it |
| `Rsem.BreaksIffOverbooked` | rsem/rsem.go:26 | in every run that is within the limit so far, a retrying call has an attempt that breaks the limit if and only if fewer than limit keys are counted while at least limit processes hold the semaphore |
| `Rsem.WithinUnlessOverbooked` | rsem/rsem.go:26 | every run that never passes through such a state keeps the limit |
| `Rsem.HoldersWithinLimit` | rsem/rsem.go:26 | while holders keep their keys counted, at most limit processes hold the semaphore, in every interleaving of attempts, refreshes, releases, crashes and lost answers |
| `Rsem.KeyOfHolder` | rsem/rsem.go:148-193 | over every run, from when a call got in: whatever others do, its key stays and never expires earlier, one that has expired is not renewed, and when the call is over its key is gone |
| `Rsem.ReleaseFreesPlace` | rsem/rsem.go:152-159 | when a call that had got in is over, its key neither exists nor counts |
| `Rsem.RenewedKeyCounts` | rsem/rsem.go:166-180 | getting in, or refreshing a key that has not expired, keeps it counted for the next half of its time to live |
| `Rsem.LimitWhileRefreshing` | rsem/rsem.go:26 | the limit holds over every run in which each holder got in or refreshed a living key no longer than half a time to live ago |
| `Rsem.UnrefreshedHolderBreaksLimit` | rsem/rsem.go:57-64 | a run in which a holder that is late with its refresh shares a semaphore of limit one |
| `Rsem.CountIsExact` | rsem/rsem.go:51-66 | without repetitions the loop counts the counted keys exactly |
| `Rsem.AttemptSucceedsIff` | rsem/rsem.go:68-112 | without repetitions an attempt succeeds exactly when fewer than limit keys are counted, and the recount never fails |
| `Rsem.CrashedSlotFrees` | rsem/rsem.go:31-32 | the key of a call that crashed, or ended without an answer, stops counting after half a time to live and is gone after a whole one |
| `Ledger.ApplyTotal` | ledger/ledger.go:58-189 | a committed operation changes the total by its amount, a transfer (also to the same account) not at all, and a failed one not at all |
| `Ledger.ApplyResult` | ledger/ledger.go:58-189 | which operations commit, and the error of each other one, from amounts, missing rows, missing money and balances that do not fit |
| `Ledger.ApplyBalance` | ledger/ledger.go:58-189 | a committed operation changes each account by what it gives to it less what it takes from it; any other changes none |
| `Ledger.StepIsAtomic` | ledger/ledger.go:80-189 | in every interleaving with row locks, each step of a transaction leaves the rows alone or commits exactly what the operation does when alone on the rows of that moment; an error that is returned is the operation's own error on these rows |
| `Ledger.RunKeepsInv` | ledger/ledger.go:58-189 | locks are held exclusively, what a transaction has read of its locked rows stays true, and no balance leaves the column's range |
| `Ledger.Serializable` | ledger/ledger.go:80-189 | every interleaving leaves the rows that its committed operations leave when run alone in the order of their commits, and callers are told of exactly these |
| `Ledger.MoneyIsConserved` | ledger/ledger.go:115-189 | over every run the total is the sum of committed deposits less committed withdrawals, and no balance is negative |
| `Ledger.BalanceIsFlow` | ledger/ledger.go:58-189 | over every run, each account holds what committed operations gave to it less what they took from it |
| `Ledger.NoDeadlockCycle` | ledger/ledger.go:126-147 | no chain of transactions that wait for each other's rows closes |
| `Ledger.NobodyIsStuck` | ledger/ledger.go:126-147 | as long as a transaction is open, some transaction can go on |
| `Ledger.StepsRunOut` | ledger/ledger.go:58-189 | every step lowers a bounded measure, so all transactions end |
| `Ledger.Database.Deposit` | ledger/ledger.go:58-78 | the deposit, with its errors, for a negative amount, a missing row and a balance that does not fit |
| `Ledger.Database.Withdraw` | ledger/ledger.go:80-113 | the withdrawal, with its errors |
| `Ledger.Database.Transfer` | ledger/ledger.go:115-189 | the transfer, statement by statement, does what the operation means, with its errors; a failed one changes nothing |
| `ArtifactCache.RunKeepsInv` | distbuild/pkg/artifact/cache.go:60-190 | in every interleaving the lock maps count the calls between lock and unlock, no artifact is locked both ways, and what each call relies on about its directories is true |
| `ArtifactCache.WritersExcludeAll` | distbuild/pkg/artifact/cache.go:82-102 | a call that creates or removes an artifact is alone with it |
| `ArtifactCache.ArtifactStays` | distbuild/pkg/artifact/cache.go:171-190 | an artifact that Get returned is there and unchanged until its unlock |
| `ArtifactCache.CommitIsClean` | distbuild/pkg/artifact/cache.go:163-166 | a commit never renames onto an artifact, although stat and rename are not under one lock, and publishes exactly what its own caller was given and wrote |
| `ArtifactCache.NothingLeaks` | distbuild/pkg/artifact/cache.go:138-190 | when all calls have returned, no lock is left |
| `ArtifactCache.ArtifactOrigin` | distbuild/pkg/artifact/cache.go:138-166 | over every run, what the cache holds under a name is what it held at first, or what the last successful commit or removal of that name left: the content of that commit's own handle, nothing after a removal, anything after a removal that failed; aborts, failed commits and readers change nothing |
| `ArtifactCache.OriginInRun` | distbuild/pkg/artifact/cache.go:138-166 | every run goes by some events, so each artifact in it has such an origin |
| `ArtifactCache.HandleHolds` | distbuild/pkg/artifact/cache.go:147-166 | over every run, the content of an open handle is what its caller was given followed by what it wrote, in order |
| `ArtifactCache.LeftoverIff` | distbuild/pkg/artifact/cache.go:152-166 | in every run, while nobody writes an artifact its temporary directory exists if and only if the last commit or abort of that artifact failed, and it holds what that left |
| `ArtifactCache.StartsWith` | distbuild/pkg/artifact/cache.go:152-156 | a new artifact starts with what the last failed commit or abort of its name left, and empty if the last one did not fail or there was none |
| `ArtifactCache.FailedCommitLeaves` | distbuild/pkg/artifact/cache.go:163-166 | every failed commit leaves exactly what its caller had written |
| `ArtifactCache.FailedCommitLeavesData` | distbuild/pkg/artifact/cache.go:163-166 | a run in which an artifact starts with what a failed commit left |
| `ArtifactCache.Cache.ReadLock` | distbuild/pkg/artifact/cache.go:60-70 | refuses under a write lock, else counts one more reader |
| `ArtifactCache.Cache.ReadUnlock` | distbuild/pkg/artifact/cache.go:72-80 | counts one reader less; the last one leaves no entry |
| `ArtifactCache.Cache.WriteLock` | distbuild/pkg/artifact/cache.go:82-102 | the errors in their order, else the lock |
| `ArtifactCache.Cache.WriteUnlock` | distbuild/pkg/artifact/cache.go:104-109 | gives the write lock back |
| `ArtifactCache.Cache.Remove` | distbuild/pkg/artifact/cache.go:138-145 | locks as before; the artifact is gone, or the error of the lock or the removal; an uninterrupted call ends where its steps end |
| `ArtifactCache.Cache.Create` | distbuild/pkg/artifact/cache.go:147-169 | a locked, absent artifact with a temporary directory, or an error and no lock; an uninterrupted call ends where its steps end |
| `ArtifactCache.Cache.Commit` | distbuild/pkg/artifact/cache.go:163-166 | moves the temporary directory into place, and unlocks in any case, as its steps do |
| `ArtifactCache.Cache.Abort` | distbuild/pkg/artifact/cache.go:158-161 | removes the temporary directory and nothing else, and unlocks in any case, as its steps do |
| `ArtifactCache.Cache.Get` | distbuild/pkg/artifact/cache.go:171-190 | "not found" exactly for an absent artifact that is not locked for writing; every error leaves the readers as before; an uninterrupted call ends where its steps end |
| `Hogwarts.BackEdgeIsCycle` | hogwarts/courselist.go:33-35 | meeting a course that is in progress closes a cycle |
| `Hogwarts.FallingNumbersMeanAcyclic` | hogwarts/courselist.go:39-41 | numbers that fall along every requirement rule out cycles |
| `Hogwarts.Search.Visit` | hogwarts/courselist.go:17-42 | the courses in progress form a path; a visit finishes its course and forgets nothing, or there is a cycle |
| `Hogwarts.Search.Require` | hogwarts/courselist.go:28-37 | one requirement is skipped, visited, or found to be on the path |
| `Hogwarts.Collect` | hogwarts/courselist.go:54-58 | the marks in an arbitrary order, each once |
| `Hogwarts.RequiredFirst` | hogwarts/courselist.go:59-66 | by finishing time, every course stands behind what it requires |
| `Hogwarts.SortedMarksAreCourseList` | hogwarts/courselist.go:54-68 | any sorting of the marks lists every course once, behind what it requires |
| `Hogwarts.GetCourseList` | hogwarts/courselist.go:44-69 | panics exactly on cyclic requirements; otherwise lists every mentioned course once with all requirements before it, for every order of map iteration |
| `Duration.AppendDigit` | tabletest/parse_duration.go:20-28 | after the test against max/10, the wrapped sum is negative exactly when the true value does not fit |
| `Duration.LeadingInt` | tabletest/parse_duration.go:12-31 | the value of the longest prefix of digits; an error exactly when it does not fit |
| `Duration.LeadingFraction` | tabletest/parse_duration.go:33-62 | consumes all digits and keeps the longest beginning whose value fits, with its power of ten |
| `Duration.Divide` | tabletest/parse_duration.go:151-154 | the test against max/unit fires exactly when the product does not fit |
| `Duration.InUnits` | tabletest/parse_duration.go:151-164 | number and fraction in nanoseconds, an error exactly when they do not fit |
| `Duration.Turn` | tabletest/parse_duration.go:101-164 | one item of the text, with its errors in their order |
| `Duration.ParseItems` | tabletest/parse_duration.go:101-170 | the loop; the test d < 0 fires exactly when the sum does not fit |
| `Duration.ParseDuration` | tabletest/parse_duration.go:80-176 | the method with its wrapping arithmetic computes the meaning over unbounded integers |
| `Duration.LoopOfText` | tabletest/parse_duration.go:101-170 | on a text of the grammar the loop succeeds exactly when the sum is at most 2^63-1 |
| `Duration.TextOfLoop` | tabletest/parse_duration.go:101-170 | what the loop accepts is a text of the grammar, and its result is the sum |
| `Duration.PrintedParses` | tabletest/parse_duration.go:75-80 | every signed duration of the grammar parses to its signed sum if that fits, and is rejected otherwise |
| `Duration.BareZero` | tabletest/parse_duration.go:94-97 | a bare zero with any sign is zero |
| `Duration.UnitErrors` | tabletest/parse_duration.go:134-150 | behind items whose sum fits, a number at the end of the text is an error for its missing unit, and one with an unknown unit an error that names it |
| `Duration.ParsedIsPrinted` | tabletest/parse_duration.go:75-80 | whatever parses is a signed text of the grammar with this sum, or a bare signed zero |
| `Duration.ZeroFractions` | tabletest/parse_duration.go:156-164 | when fractions are absent or zero, the sum is exactly that of number times unit, whatever floats do |
| `Duration.KnownUnits` | tabletest/parse_duration.go:64-73 | the eight names of units, and no others |
| `Duration.UnitsAgree` | tabletest/parse_duration.go:64-73 | texts that stand for the same time mean the same: n hours are 60 n minutes, and so on down to nanoseconds, for all numbers |
| `Duration.Nanoseconds` | tabletest/parse_duration.go:64-73 | n nanoseconds mean n |
| `Duration.FloorIsExact` | tabletest/parse_duration.go:156-164 | there is a scaling that cuts off fractions of a nanosecond and loses nothing else |
| `Duration.ExactRounds` | tabletest/parse_duration.go:156-164 | such a scaling keeps to the bounds that are assumed of scaling |
| `Duration.ExactValue` | tabletest/parse_duration.go:156-164 | with such scaling an item is worth its decimal number of units, cut off to nanoseconds, so that 1.5h is 90 minutes |
| `Lru.List.PushBack` | lrucache/lru.go:59 | appends a node to the linked list |
| `Lru.List.Remove` | lrucache/lru.go:53 | takes a node out of the linked list |
| `Lru.List.MoveToBack` | lrucache/lru.go:28 | moves a node to the end of the linked list |
| `Lru.LRUCache.constructor` | lrucache/lru.go:79-86 | an empty cache |
| `Lru.LRUCache.Get` | lrucache/lru.go:20-31 | the value of the key, whose entry becomes the newest; map and list keep holding the same entries |
| `Lru.LRUCache.Set` | lrucache/lru.go:33-61 | the entry becomes the newest; a new key on a full cache drops exactly the head; a capacity of 0 or less stores nothing |
| `Lru.LRUCache.Range` | lrucache/lru.go:63-71 | visits the entries from oldest to newest, up to the first refusal |
| `Lru.Visits` | lrucache/lru.go:64-71 | how many entries are visited: all before the last visited one were accepted, and it was refused unless all were visited |
| `Lru.LRUCache.Clear` | lrucache/lru.go:73-77 | an empty cache again |
| `Lru.HeadIsOldest` | lrucache/lru.go:47-55 | the head of the list is the one least recently accessed entry |
| `Lru.LeastRecentlyUsed` | lrucache/lru.go:20-77 | over every history of operations the list holds what a store of that capacity holds that drops its least recently accessed key, in the order of access times |
| `Lru.StoreExists` | lrucache/lru.go:20-77 | there is such a store for every history |
| `Lru.WithinCapacity` | lrucache/lru.go:48-55 | the size never exceeds the capacity |
| `Hotel.Events` | hotelbusiness/hotels.go:25-29 | an arrival and a departure for each guest |
| `Hotel.NetOfPermutation` | hotelbusiness/hotels.go:30-32 | the order of events does not matter for the count on a day |
| `Hotel.NetIsOccupancy` | hotelbusiness/hotels.go:49-53 | arrivals less departures up to a day are the guests of that day |
| `Hotel.SweepDays` | hotelbusiness/hotels.go:38-54 | the sweep over any ordering of same-day events counts the guests of each day passed |
| `Hotel.ComputeLoad` | hotelbusiness/hotels.go:24-58 | dates strictly increase, the loads give the occupancy of every day, neighbours differ except perhaps at the end, and the last count is 0 |
| `Hotel.LoadsAreChangesIff` | hotelbusiness/hotels.go:41-55 | the loads start exactly on the days on which the occupancy changes if and only if some guest stays the night of the first of all dates and some guest stays the night before the last of them |
| `Hotel.LoadsAreChanges` | hotelbusiness/hotels.go:24-58 | so it is when every guest stays a night |
| `Hotel.DayGuestIsNoChange` | hotelbusiness/hotels.go:55 | for a single guest who leaves on the day of arrival, the load on that day is no change |

## Left out

- UTF-8 decoding: the lexer's input is the sequence that utf8.DecodeRune yields, runes and invalid bytes.
- IpRange.ParsesIff: texts with the rune 0, which reads as the end or, behind a number, as nothing, and with the private rune 57346, which reads as the number before it again; `MeaningIsDerivation` covers these by their tokens.
- The message of syntax errors (`iprange/y.go:186-261`), debug output and logging.
- Error recovery behind the search of `IpParser.Parser.Recover` (`iprange/y.go:415-417` and `iprange/y.go:429-438`), since the search is proved to find nothing.
- The labels of the goto-style driver are methods; growing the stack is not modelled, since it is proved not to happen.
- The first exception-table search loop (`iprange/y.go:377-383`) is a function.
- The goroutine and channel of streamRange are the sequence of what is sent; its dead panic (`iprange/funcs.go:29-31`) is left out.
- Sorting.Sort: a stand-in for the library's sort; the callers' properties are proved for every outcome of sorting.
- RateLimit: the loop for interval 0 (`ratelimit/ratelimit.go:75-94`), tickers, and the caller's side in Acquire and Stop.
- RateLimit.StampsAreLimited: clock readings must not fall, and the interval must be positive.
- WaitGroup.WaitGroup.Wait: a call that blocks is covered by the step machine only.
- RWMutex: clients unlock only what they hold; the source calls anything else a run-time error but does not detect it.
- Rsem: the Redis server, its replication and the pattern language of SCAN; scripts run at one instant, TTL rounds to the nearest second, and all calls use the same limit.
- Rsem.LimitWhileRefreshing: that holders refresh in time is assumed, since it depends on scheduling; the source refreshes every 300 of 1000 milliseconds.
- Ledger: the SQL driver and the connection; a failed commit is taken to have changed nothing. GetBalance reads a row and is left out.
- ArtifactCache: Range, the layout of directories, and damage from outside; each handle is used once. A Remove that fails may leave any content.
- Duration.ParseDuration: the product of floats is an arbitrary function whose value lies between 0 and the unit; the rounding of floats, which may miss the value that ExactValue gives, and error texts are left out.
- Lru: hash maps are maps, and the ring of container/list is a list with two ends; the function given to Range is the sequence of its answers.
- Hotel.ComputeLoad: nothing is claimed when some guest leaves before arriving.
- Other packages of the repository: unfinished exercises, input and output, and code whose properties are easier than these.
