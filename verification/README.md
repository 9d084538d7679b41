# File transfer daemon: verified model

A Dafny model of the state-heavy parts of the file transfer daemon and of the libraries it
carries, with proofs. `dafny verify dfyconfig.toml` checks all of it.

| file | models |
|---|---|
| CallbackTable.dfy, Completion.dfy, CallOrder.dfy, WaitForCompletion.dfy, Reaping.dfy, CompletionObject.dfy | the completion protocol of one download: callbacks, the two mutexes, the broadcast |
| Transfers.dfy, Starting.dfy, Rules.dfy, RuleRuns.dfy, Registry.dfy | the registry of downloads and the life of a curl download in it, up to its deletion; the rules its callers have to keep, and what happens when they do not |
| Outcomes.dfy, Cancelling.dfy, Policy.dfy, Orders.dfy | what a run, a cancellation and a removal policy come to, and the orders the lists and the queue keep |
| Multipart.dfy, DispositionForms.dfy, EcgiReader.dfy, BrokenPosts.dfy | the streaming multipart/form-data parser of the CGI library |
| JsonValue.dfy, JsonOrder.dfy, JsonNumber.dfy, CText.dfy | JSON values, their order, and the decimal texts of integers |
| JsonText.dfy, JsonWriter.dfy, JsonStyledWriter.dfy, JsonLayout.dfy | the two JSON writers |
| JsonReading.dfy, JsonReader.dfy, JsonSpelling.dfy, JsonNumeral.dfy, JsonGrammar.dfy, JsonErrors.dfy, JsonRoundTrip.dfy | the JSON reader, the grammar it takes, and the round trips |
| Signal.dfy, SlotLives.dfy, Trackable.dfy | re-entrant signal emission, and the destroy callbacks of trackable objects |
| SimpleCfg.dfy, BatchAllocator.dfy | the configuration file with its index, and the page allocator |
| DownloadStatus.dfy, Basics.dfy | the status values of a download, and what all modules share |

The two protocols are machines: one function per step of a thread, any number of threads,
and lemmas about every state that some interleaving reaches. An access to a deleted download
is a state of its own, `Crashed` or `CrashedInStore`, and is proved unreachable for callers that
keep three rules. The objects of the source are
classes with its fields; their methods are proved against functions, and the lemmas are about
those functions. JSON text is related to trees by `Renders`: white space between the tokens of
the tree is free. The reader is proved for every rendering, each writer is proved to produce
one, and so both round trips and the agreement of the writers follow from the same three facts.
Besides, what the reader takes is given by a grammar of its own, and what the writers print by lines
and by tokens.
Fields marked as history in the machines never influence any other field.

What the proofs say about the code beyond its documentation:

- A thread in `WaitForCompletion` that has read "not reapable" and not yet gone to sleep when
  `Complete` broadcasts waits for ever; the exact condition is proved.
- `max_read` goes below zero exactly when a refill in the middle of a part leaves fewer than 128
  bytes in the window and no whole delimiter, or when the delimiter starts less than two bytes
  into what is unread. With reads that deliver in full, a file part whose closing delimiter is
  missing ends in the exception when fewer than 128 bytes of it are there, and otherwise makes the
  part loop write nothing for ever. With short reads a well-formed upload can end in the exception.
- A field whose delimiter is not in the window at its header is left only behind the header of the
  next part, and its value is then stored under the name read there; under its own only if the
  closing delimiter follows, or the names are equal. When it happens is part of the contract of `OnePart`: the delimiter
  comes, no refill fails or comes too soon, and the next header is whole in the window. The value of
  the next part then lacks its first two bytes. `BrokenPosts.LongFieldRun` is such a post of two fields.
- Integers read back exactly up to 18446744073709551609 and down to -9223372036854775799; the
  largest ones the writers can print beyond these become doubles.
- The reader's own error for a wrong digit in a number never arises: a token of the scanner that is no
  integer goes to the double parser.
- With a key set twice, `SimpleCfg` shows the first value and edits the last line. An update is
  then lost, and a removed key is back, as soon as the file is read again, which `Remove` does.
- The reader of JSON objects takes a comment behind a member, and then does not look at the token
  behind the comment unless it is a closing brace: any token does for a comma. Behind an element of
  an array and in front of a colon a comment is an error. An object may end behind a comma if the
  name before it is empty. Of two members of one name the last counts.
- A slot that is empty when it is connected is not removed by itself, since sweeping is only
  requested by a disconnect. No other empty slot is left when the outermost emission has ended.
- With equal data in two destroy callbacks a removal during the pass can miss its target; with
  distinct data it never does.
- `StartDownload` stores into `m_Thread` after the run thread has started. If that thread, or anyone
  else, has the download removed in between, the store can hit a deleted object: with a policy that
  asks for removal this takes no caller that does anything wrong (`RuleRuns.EarlyCancelRun`).
  From every reachable state with such a store to come and a removal registered, some continuation
  in which nobody adds or cancels anything follows a pointer to a deleted download.
- A download must not be cancelled a second time, nor before its `StartDownload` has returned: after
  every step of a run that does so there is such a continuation, too. The removal that a policy asks
  for is a cancellation, so that a user who cancels such a download makes the second.
- A removal policy looks its download up by UUID. With two downloads of one user and one UUID the
  end of the second has the first cancelled and removed (`Policy.FirstOfTwo`).
- With two downloads of one user and one URL the removal of the second erases the entry of the first;
  the list then leads to a deleted download, and the first is in no list (`RuleRuns.SameUrlRun`).

Assumptions:

- `Long` and `ULong` of the JSON library have 64 bits, `Int` and `UInt` 32. Doubles are a
  parameter of the reader: any function from text to a value or a failure.
- Reads and writes of the status fields and of the cancel flag are atomic. Waiting on a
  condition has no spurious wake-ups. A `pthread` mutex is a holder field.
- `slot_base::disconnect` marks the slot empty and then calls the parent's notify.
- In the machine of the registry, a registration takes the callback mutex and tests the status in
  one step and pushes in another, so the status can change between the two. The deferred work
  queue hands each queued removal to a worker once, in order.
- Three rules of the callers: no two downloads of a user have the same URL at the same time, no
  download is cancelled twice (`Transfers.Allowed`), and none is cancelled before its `StartDownload`
  has returned (`Starting.Returned`). What is proved in `Transfers` needs the first two; that nothing
  crashes needs the third as well. That the second and the third are needed is proved for every step
  they forbid, for the first there is a run.
- `Policy.PolicyDeletes` needs, besides the first two rules, that no two downloads of a user have one UUID
  at the same time; no UUID is taken as different from every other (`Policy.AllNew`).
- A delimiter counts only when all of it is in the valid window, and the header block behind a
  delimiter is in the window too; otherwise the run stops with `Unbuffered`.
- What a read of the form answers depends on how many bytes were read before: a function that is
  arbitrary, except that no read delivers more than was asked for. An answer of zero is a failure.
- Every negative `max_read` leads to an exception; the one case in which it does not is under
  "Left out".
- A part is the name and the value as they stand in the stream: before `ToUpper` is applied to the
  name and `UrlDecode` to the value of a field (ECGI.cpp:222-243).
- Negating the least `Int` or `Long` wraps to itself, as on the machines the program is built for; the
  language leaves it undefined.

## Model

| member | source | states |
|---|---|---|
| `CallbackTable.PushBackCounts` | bubba-ftd/src/Downloader.cpp:174-176 | A registration adds exactly its own call to the callback table and changes the number of no other call |
| `CallbackTable.PushBackKeepsOrder` | bubba-ftd/src/Downloader.cpp:174-196 | A registration puts its call at one place of the calling order and leaves all others in order: behind calls of the same and of lower callbacks only and, in the ascending order of the map, behind all of these and in front of every call of a higher one |
| `Completion.InvokedExactlyOnce` | bubba-ftd/src/Downloader.cpp:166-219 | Under every interleaving, once the status is CALLDONE each registration that returned true has been invoked exactly once, each that returned false never, and nothing else was invoked, although the check and the closing write use different mutexes |
| `Completion.CallsFollowTable` | bubba-ftd/src/Downloader.cpp:185-196 | The calls made are at every moment a prefix of the table, callback by callback in registration order, and all of it at CALLDONE |
| `CallOrder.RegisteredFirstCalledFirst` | bubba-ftd/src/Downloader.cpp:174-196 | Of two registrations with one callback, in any run: the one that has returned before the other is made is invoked first, if both are |
| `CallOrder.CallsAscend` | bubba-ftd/src/Downloader.cpp:185-196 | The callbacks are invoked in ascending order, as the map holds them, whatever the order of registration |
| `Completion.OneCompleter` | bubba-ftd/src/Downloader.cpp:198-211 | At most one caller of Complete gets past the guard |
| `Completion.NoDeadlock` | bubba-ftd/src/Downloader.cpp:166-229 | While a thread is inside a call and does not wait for the broadcast, some thread can move: cbmutex and reapmutex cannot deadlock |
| `Reaping.ReapableMeansCalled` | bubba-ftd/src/Downloader.cpp:221-229 | When ReapOK says yes of a download that has run, every callback of the table has been invoked and the invoking thread is past its closing write; once some Complete has returned, ReapOK says yes |
| `Reaping.ReapableIsFinal` | bubba-ftd/src/Downloader.cpp:166-229 | After such an answer no sequence of further calls registers a callback, invokes one or changes the reap status |
| `Reaping.DoneStays` | bubba-ftd/src/Downloader.cpp:166-219 | At CALLDONE the table of callbacks, the calls made and the status stay as they are, whatever is called |
| `Reaping.ReapableIff` | bubba-ftd/src/Downloader.cpp:221-229 | ReapOK says yes exactly when some thread has set the final status, or the download was cancelled before it was started |
| `WaitForCompletion.MissedForever` | bubba-ftd/src/Downloader.cpp:156-164 | A thread that has decided to wait but is not asleep when the broadcast happens is never woken, whatever follows |
| `WaitForCompletion.WaitReturnsIffBeforeBroadcast` | bubba-ftd/src/Downloader.cpp:156-164 | WaitForCompletion, once it has decided to wait, can still return if and only if the broadcast has not happened yet |
| `WaitForCompletion.LostWakeup` | bubba-ftd/src/Downloader.cpp:156-164 | A run with two threads in which the broadcast falls between the test and the wait is reachable |
| `CompletionObject.Downloader.RegisterCompletionCallback` | bubba-ftd/src/Downloader.cpp:166-183 | The return value tells whether the call was put into the table: refused for a null callback and once the status is not OK |
| `CompletionObject.Downloader.InvokeCallbacks` | bubba-ftd/src/Downloader.cpp:185-196 | The nested iterators call every datum of every callback once, in table order |
| `CompletionObject.Downloader.Complete` | bubba-ftd/src/Downloader.cpp:198-219 | The first call closes, invokes the whole table and marks CALLDONE; any other call changes nothing |
| `CompletionObject.RegisterAlone` | bubba-ftd/src/Downloader.cpp:166-183 | The machine, with one thread moving, does to the fields what RegisterCompletionCallback does |
| `CompletionObject.InvokeAlone` | bubba-ftd/src/Downloader.cpp:185-196 | The machine, with one thread moving, makes the calls InvokeCallbacks makes |
| `CompletionObject.CompleteAlone` | bubba-ftd/src/Downloader.cpp:198-219 | The machine, with one thread moving, does to the fields what Complete does |
| `Starting.NeverCrashes` | bubba-ftd/src/FtdApp.cpp:220-502 | In every run that keeps the three rules no thread follows a pointer to a deleted download, be it through the registry, the run, the queue or the store into m_Thread, and every download a thread adds, stores into, runs, removes or has found is live |
| `Transfers.OnlyStoresCrash` | bubba-ftd/src/FtdApp.cpp:386-502 | In every run that keeps the first two rules no thread follows a pointer to a deleted download, except that a StartDownload may still store into one |
| `Rules.StoreDooms` | bubba-ftd/src/CurlDownloader.cpp:205-207 | From every reachable state in which a StartDownload has its store into m_Thread to do and a removal of that download is registered, what has been called already can crash: some continuation in which nobody adds or cancels a download follows a pointer to a deleted one |
| `Rules.EarlyCancelDooms` | bubba-ftd/src/FtdApp.cpp:220-230 | The third rule is needed wherever it forbids a step: after every step of a run by the rules that begins to register a removal of a download whose StartDownload has not returned, there is such a continuation |
| `Rules.SecondCancelDooms` | bubba-ftd/src/FtdApp.cpp:455-499 | The second rule is needed wherever it forbids a step: after every step that begins to register a removal of a download that has been cancelled, there is such a continuation |
| `Rules.StartIsSafe` | bubba-ftd/src/FtdApp.cpp:386-502 | There is none from the start: it takes calls |
| `RuleRuns.EarlyCancelRun` | bubba-ftd/src/CurlDownloader.cpp:205-207 | A run of one download whose policy asks for removal, which breaks only the third rule, ends with the starting thread storing into the deleted download |
| `RuleRuns.SecondCancelRun` | bubba-ftd/src/FtdApp.cpp:455-499 | A run in which two threads cancel the only download keeps all three rules until the second is about to register its removal |
| `RuleRuns.SameUrlRun` | bubba-ftd/src/FtdApp.cpp:386-411 | With two downloads of one URL, a run in which only the second Add breaks a rule: the removal of the second leaves the first, live, in no list, and a later search follows the pointer to the deleted second |
| `Transfers.DeletedOnce` | bubba-ftd/src/FtdApp.cpp:400-405 | No download is deleted twice; a deleted one is in no list and not in the work queue |
| `Starting.DeletedLast` | bubba-ftd/src/FtdApp.cpp:401-405 | When a download is about to be deleted its run thread has released reapmutex for the last time and is gone, and no other thread, the one that started it included, no list and no queued removal leads to it |
| `Transfers.DeletedAfterRun` | bubba-ftd/src/FtdApp.cpp:401-405 | The same in every run that keeps the first two rules, but for the store into m_Thread |
| `Transfers.ErasesItself` | bubba-ftd/src/FtdApp.cpp:396-404 | A removal takes exactly its own entry out of its own list and leaves all other lists alone |
| `Transfers.FindsItself` | bubba-ftd/src/FtdApp.cpp:393-398 | With distinct URLs the search of RemoveDownload ends at the download itself, so the not-found branch is never taken |
| `Transfers.FindInList` | bubba-ftd/src/FtdApp.cpp:457-477 | The search meets no deleted entry, and what it finds is live and in the list |
| `Transfers.FindAnswers` | bubba-ftd/src/FtdApp.cpp:457-477 | For live lists, the search answers the first entry with the UUID of the request, if it has one and some entry has it; else the first entry with the URL; and a miss exactly when there is neither |
| `Transfers.OneSignal` | bubba-ftd/src/CurlDownloader.cpp:280-338 | Before the reap status leaves OK, the run has settled on DOWNLOADED, CANCELDONE or FAILED and emitted exactly one signal, the one that outcome asks for |
| `Outcomes.OutcomeIs` | bubba-ftd/src/CurlDownloader.cpp:258-312 | In every reachable state, a download that has ended is DOWNLOADED exactly if its transfer answered 0 and the cancel flag was down when the run settled, CANCELDONE exactly if the flag was up then or the transfer answered CURLE_OBSOLETE, FAILED exactly after another error with the flag down; a transfer that was never performed had been cancelled |
| `Outcomes.UndisturbedOutcome` | bubba-ftd/src/CurlDownloader.cpp:258-312 | A download that nobody has cancelled ended as its transfer went |
| `Outcomes.ReachableFates` | bubba-ftd/src/CurlDownloader.cpp:258-312 | The invariant behind it: what the run thread knows at each of its steps, kept by every step of every thread |
| `Transfers.WaitsForLeaver` | bubba-ftd/src/FtdApp.cpp:401-403 | A removal that waits while it holds transfermutex waits only for a run that is past its signals and whose thread can move whoever holds that mutex; the not-started case of ReapOK never lets it pass |
| `Transfers.QuietMeansDeleted` | bubba-ftd/src/FtdApp.cpp:413-427 | When all threads are done and the work queue is empty, every cancelled download has been deleted |
| `Cancelling.CancelFinds` | bubba-ftd/src/FtdApp.cpp:455-497 | In every reachable state, CancelDownload goes on with the first entry that has the UUID, or else the URL, or gives up when there is none |
| `Cancelling.CancelMarks` | bubba-ftd/src/FtdApp.cpp:479-494 | Whatever the other threads do, the download that a cancellation has found ends up with its cancel flag raised, unless it has completed or been deleted, and with a removal registered or taken on |
| `Cancelling.CancelDeletes` | bubba-ftd/src/FtdApp.cpp:413-494 | That download is deleted when all threads are done and the queue is empty |
| `Cancelling.WaitsUntilReapable` | bubba-ftd/src/FtdApp.cpp:401-403 | A removal goes on exactly when reapmutex is free and the download is CALLDONE, or was cancelled before it was started |
| `Cancelling.FlaggedEndsCancelled` | bubba-ftd/src/CurlDownloader.cpp:281-312 | A download whose flag is up before its run has settled ends CANCELDONE and in no other way |
| `Cancelling.CancelledBeforeRun` | bubba-ftd/src/CurlDownloader.cpp:256-278 | A download whose flag is up before its transfer begins is never transferred |
| `Policy.PolicyDeletes` | bubba-ftd/src/FtdApp.cpp:220-223 | If no two downloads of a user have one UUID, then in every run by the first two rules each download whose policy asks for removal has been deleted when all is quiet |
| `Policy.FindsOwn` | bubba-ftd/src/FtdApp.cpp:370-384 | Its search, with its own UUID and URL, then ends at the download itself |
| `Policy.FirstOfTwo` | bubba-ftd/src/FtdApp.cpp:370-384 | That condition is needed: with two downloads of one UUID the policy of the second finds the first |
| `Orders.QueuedFirstTakenFirst` | static-libs/libeutils-0.7.39/libeutils/AsyncWorker.cpp:59-155 | In every run the removals are taken in the order in which they were queued, a download once for each callback registered, and those not yet taken are in the queue |
| `Orders.WorkerStays` | static-libs/libeutils-0.7.39/libeutils/AsyncWorker.cpp:136-155 | The thread that works off the queue goes on to do so after every removal, in every run |
| `Orders.ListsKeepOrder` | bubba-ftd/src/FtdApp.cpp:237-241 | In every run the list of a user holds downloads in the order in which they were registered |
| `Transfers.NoDeadlock` | bubba-ftd/src/FtdApp.cpp:386-502 | While any thread is busy some thread can move: transfermutex, cbmutex and reapmutex cannot deadlock |
| `Transfers.HolderMoves` | bubba-ftd/src/FtdApp.cpp:393-409 | Whoever holds transfermutex can move, or the run it waits for can |
| `Transfers.ByUuidInList` | bubba-ftd/src/FtdApp.cpp:462-465 | The loop by UUID stops at the first entry with that UUID, misses exactly when no entry has it, and meets only live entries when the list has only live entries |
| `Transfers.ByUrlInList` | bubba-ftd/src/FtdApp.cpp:394-398 | The loop by URL stops at the first entry with that URL; when it finds none, no entry has it |
| `Transfers.RemovedAt` | bubba-ftd/src/FtdApp.cpp:404-404 | Erasing an entry of a list without repetitions removes that entry and no other |
| `Transfers.StepKeepsOwn` | bubba-ftd/src/CurlDownloader.cpp:258-337 | Each step of a run, of Complete, of a cancellation or of a waiting removal keeps what ties its thread to the download |
| `Transfers.StepKeepsOther` | bubba-ftd/src/CurlDownloader.cpp:258-337 | The same step keeps what ties every other thread to the download |
| `Transfers.LastPointer` | bubba-ftd/src/FtdApp.cpp:405-405 | At the moment of deletion no other thread names the download, a store into m_Thread apart |
| `Transfers.ReachableInv` | bubba-ftd/src/FtdApp.cpp:237-502 | Every state reached by allowed actions satisfies the invariant on pointers, lists, queue, mutexes and owners |
| `Registry.FtdApp.RegisterDownload` | bubba-ftd/src/FtdApp.cpp:237-241 | The download is appended to its user's list; other users' lists stay |
| `Registry.FtdApp.FindByUrl` | bubba-ftd/src/FtdApp.cpp:394-398 | The loop computes the first entry with the URL |
| `Registry.FtdApp.FindByUuid` | bubba-ftd/src/FtdApp.cpp:462-465 | The loop computes the first entry with the UUID |
| `Registry.FtdApp.FindToCancel` | bubba-ftd/src/FtdApp.cpp:457-477 | The loops and the flag between them find the first entry with the UUID, else the first with the URL, else none, and as the machine does |
| `Registry.FtdApp.RemoveDownload` | bubba-ftd/src/FtdApp.cpp:386-411 | A reapable download found by its URL is erased from its list and deleted; when it is not found nothing changes |
| `Registry.CurlDownloader.UpdateProgress` | bubba-ftd/src/Downloader.cpp:61-75 | A cancelled transfer is told to stop and marked CANCELINPROGRESS, any other goes on unmarked, and as the step of the machine has it |
| `Registry.CurlDownloader.Run` | bubba-ftd/src/CurlDownloader.cpp:256-335 | An undisturbed run ends with one signal more, DOWNLOADED exactly if it could start and the transfer went well, FAILED exactly if it could start and the transfer failed, else CANCELDONE, and as the steps of the machine do one after the other |
| `Multipart.FirstSound` | static-libs/libeutils-0.7.39/libeutils/ECGI.cpp:167-186 | The first occurrence of the delimiter is an occurrence, and there is none before it, or none at all |
| `Multipart.DispositionIs` | static-libs/libeutils-0.7.39/libeutils/ECGI.cpp:357-397 | The disposition line a client writes for a field or a file is read back as that field or file |
| `DispositionForms.FieldForms` | static-libs/libeutils-0.7.39/libeutils/ECGI.cpp:357-393 | Any line with the three keywords in any case and anything but letters between them, with the name with or without quotes, is read as the field of that name, unless a file name follows |
| `DispositionForms.FileForms` | static-libs/libeutils-0.7.39/libeutils/ECGI.cpp:384-395 | With a file name behind it such a line is read as the file, of whose path the last component is kept |
| `DispositionForms.WrongLines` | static-libs/libeutils-0.7.39/libeutils/ECGI.cpp:357-358 | A line is out of sync exactly if it does not begin with the first keyword and go on |
| `DispositionForms.NotFormData` | static-libs/libeutils-0.7.39/libeutils/ECGI.cpp:361-364 | Behind that keyword, the second one is missed exactly if it does not come next and go on |
| `DispositionForms.NoName` | static-libs/libeutils-0.7.39/libeutils/ECGI.cpp:368-370 | Behind the second, the name is missed exactly if its keyword does not come next |
| `DispositionForms.BaseNameIs` | static-libs/libeutils-0.7.39/libeutils/ECGI.cpp:595-603 | Of a path what follows the last backslash is kept |
| `DispositionForms.JunkIsDropped` | static-libs/libeutils-0.7.39/libeutils/ECGI.cpp:567-577 | Control characters in front of a line are dropped, unless they are the line break of an empty one; of the line what stands in front of its first NUL is returned |
| `Multipart.ReadLineIs` | static-libs/libeutils-0.7.39/libeutils/ECGI.cpp:559-593 | A line that starts with a printable character is read whole and what follows it is left |
| `Multipart.NextPartIs` | static-libs/libeutils-0.7.39/libeutils/ECGI.cpp:327-454 | At the front of an encoded body the chunk found is the first part, with its exact content, and the encoding of the others is left |
| `Multipart.EndsIff` | static-libs/libeutils-0.7.39/libeutils/ECGI.cpp:327-351 | The split ends in order exactly behind a delimiter with the closing mark, and finds no part exactly when the delimiter occurs nowhere |
| `Multipart.AllPartsOfEncoding` | static-libs/libeutils-0.7.39/libeutils/ECGI.cpp:214-303 | For every list of parts, the loop over their encoding finds exactly these parts, in order, no byte lost or added, and then the closing delimiter |
| `Multipart.NextPartExtend` | static-libs/libeutils-0.7.39/libeutils/ECGI.cpp:317-493 | What is found in a window is found in every stream that continues the window; a part that is cut off gets the end the stream gives it |
| `Multipart.NextPartSkips` | static-libs/libeutils-0.7.39/libeutils/ECGI.cpp:327-341 | Bytes in front of the next delimiter do not matter to the part behind it |
| `Multipart.MarginSuffices` | static-libs/libeutils-0.7.39/libeutils/ECGI.cpp:405-408 | A delimiter of at most 127 bytes that the window does not show starts at least two bytes behind what may be given out |
| `Multipart.MarginIsSharp` | static-libs/libeutils-0.7.39/libeutils/ECGI.cpp:405-408 | The 128-byte margin keeps the line break back exactly for delimiters of at most 127 bytes |
| `EcgiReader.Ecgi.constructor` | static-libs/libeutils-0.7.39/libeutils/ECGI.cpp:96-102 | The buffer has the size of the content or 131072 bytes, whichever is less, and everything is unread |
| `EcgiReader.Ecgi.AdvancePointer` | static-libs/libeutils-0.7.39/libeutils/ECGI.cpp:162-165 | Consuming bytes drops them from the front of the window and of the unread stream |
| `EcgiReader.Ecgi.ReadPostPart` | static-libs/libeutils-0.7.39/libeutils/ECGI.cpp:508-557 | A refill keeps the unread stream, leaves the window equal to the last bytes read, never reads past content_length, moves the window to the front, and none of the four resets is reached |
| `EcgiReader.Ecgi.FindBoundary` | static-libs/libeutils-0.7.39/libeutils/ECGI.cpp:167-186 | The search with the two-dash shortcut finds the first delimiter of the window |
| `EcgiReader.Ecgi.ReadString` | static-libs/libeutils-0.7.39/libeutils/ECGI.cpp:559-593 | The next line is returned and the window starts behind it, although its end is overwritten in place |
| `EcgiReader.Ecgi.SkipHeaderBlock` | static-libs/libeutils-0.7.39/libeutils/ECGI.cpp:396-399 | Header lines are read up to and including the empty one |
| `EcgiReader.Ecgi.MeasureBody` | static-libs/libeutils-0.7.39/libeutils/ECGI.cpp:401-408 | With a delimiter in the window the content ends two bytes before it and is closed in place; without one all but the margin may be written |
| `EcgiReader.Ecgi.CutContent` | static-libs/libeutils-0.7.39/libeutils/ECGI.cpp:401-404 | The content ends two bytes before the delimiter and is closed in place; closer than two bytes is an error |
| `EcgiReader.Ecgi.AfterBoundary` | static-libs/libeutils-0.7.39/libeutils/ECGI.cpp:343-446 | After a delimiter: the closing mark, a part, or the failure of the first check that fails |
| `EcgiReader.Ecgi.StartOfField` | static-libs/libeutils-0.7.39/libeutils/ECGI.cpp:327-456 | At the start of a part the fields hold what the split of the window says, and the part counter grows exactly when a delimiter is found |
| `EcgiReader.Ecgi.InField` | static-libs/libeutils-0.7.39/libeutils/ECGI.cpp:458-480 | In the middle of a part: refill, then max_read ends two bytes before the delimiter or leaves the margin |
| `EcgiReader.Ecgi.TakePieces` | static-libs/libeutils-0.7.39/libeutils/ECGI.cpp:281-287 | However reads split the stream, what is written is the stream from the body start on, up to two bytes before the first delimiter when one is left. max_read goes below zero exactly if the next refill leaves fewer than 128 bytes and no whole delimiter, or the delimiter is closer than its line break. If no read fails, the loop never ends exactly if no delimiter is left and that does not happen; with reads that deliver in full, exactly if no delimiter is left and at least 128 bytes are |
| `EcgiReader.Ecgi.StalledTurn` | static-libs/libeutils-0.7.39/libeutils/ECGI.cpp:281-286 | From the stalled state a turn of the loop writes nothing, reads nothing, finds no delimiter and leaves the window as it is |
| `EcgiReader.Ecgi.StallsForEver` | static-libs/libeutils-0.7.39/libeutils/ECGI.cpp:281-286 | Any number of turns does the same |
| `EcgiReader.Ecgi.OnePart` | static-libs/libeutils-0.7.39/libeutils/ECGI.cpp:220-300 | One turn of the loop moves one part from the unread stream to the parts collected, or stops; when everything is in the window, the window decides how. A field whose delimiter is not in the window at its header always stops it, and how is decided: by a failing read, by a refill that comes too soon, by a missing delimiter, or else by the chunk behind it, with the exact value kept under its own name if that is the closing mark, lost if it is malformed, and under the name of the next part otherwise |
| `EcgiReader.Ecgi.TakeLongField` | static-libs/libeutils-0.7.39/libeutils/ECGI.cpp:231-245 | The pieces of a long field add up to its exact value; the name it is stored under is the one read last |
| `EcgiReader.Ecgi.ProcessMultiPart` | static-libs/libeutils-0.7.39/libeutils/ECGI.cpp:214-303 | The parts are a prefix of the split of the whole stream, all of it when the loop ends normally, unless it stops behind a long field: then the last of them has the value of that field under the name of the part behind it. It turns for ever only if the split ends in a part without delimiter and at least 128 bytes; a post that the first read delivers whole is taken apart, or stops, exactly as its bytes say |
| `EcgiReader.ReadForm` | static-libs/libeutils-0.7.39/libeutils/ECGI.cpp:214-303 | The parts read from a form that a client encoded are a prefix of the parts sent, all of them when the loop ends normally, which it does when the first read delivers the form whole; behind a long field that is not the last part the prefix ends with its value under the name of the next part; the loop never turns for ever |
| `EcgiReader.Ecgi.TakeLate` | static-libs/libeutils-0.7.39/libeutils/ECGI.cpp:225-243 | After a long field the source skips two bytes behind the next header block, so that the value taken lacks its first two bytes and has the closing NUL and one more byte at its end, and goes on two bytes into the next delimiter |
| `BrokenPosts.ShortOpenFile` | static-libs/libeutils-0.7.39/libeutils/ECGI.cpp:405-480 | A file of three bytes without its delimiter makes max_read negative |
| `BrokenPosts.LongOpenFile` | static-libs/libeutils-0.7.39/libeutils/ECGI.cpp:278-287 | A file of 128 bytes without its delimiter makes the loop turn for ever |
| `BrokenPosts.DelimiterAtOnce` | static-libs/libeutils-0.7.39/libeutils/ECGI.cpp:401-404 | A delimiter right behind a header block makes max_read negative |
| `BrokenPosts.ReadBroken` | static-libs/libeutils-0.7.39/libeutils/ECGI.cpp:214-303 | The reader, given these posts whole, ends so |
| `BrokenPosts.SlowReads` | static-libs/libeutils-0.7.39/libeutils/ECGI.cpp:458-480 | A well-formed upload makes max_read negative when the reads are short |
| `BrokenPosts.LongFieldRun` | static-libs/libeutils-0.7.39/libeutils/ECGI.cpp:225-243 | A well-formed post of a field of 200 bytes and a field "hello", whose first read ends inside the first: the 200 bytes are stored under the name of the second, and the next value is "hello" without its first two bytes |
| `JsonNumber.UlongToString` | static-libs/libeutils-0.7.39/libeutils/json/json_writer.cpp:14-24 | The digits are written backwards into the 32-byte buffer without leaving it, and are the decimal digits of the value |
| `JsonNumber.SignedToString` | static-libs/libeutils-0.7.39/libeutils/json/json_writer.cpp:26-63 | The decimal text of a signed integer, sign included, the least value of its type too, whose negation wraps |
| `JsonNumber.UnsignedToString` | static-libs/libeutils-0.7.39/libeutils/json/json_writer.cpp:41-72 | The decimal text of an unsigned integer |
| `JsonNumber.DecodeNumber` | static-libs/libeutils-0.7.39/libeutils/json/json_reader.cpp:476-518 | The digit loop computes its specification and no intermediate value leaves 64 bits |
| `JsonNumber.AccumulateInverts` | static-libs/libeutils-0.7.39/libeutils/json/json_reader.cpp:500-508 | The digit loop turns the digits of a value back into the value up to the cut-off, and gives up above it |
| `JsonNumber.DecodeInverts` | static-libs/libeutils-0.7.39/libeutils/json/json_reader.cpp:476-518 | Decoding the decimal text of an integer yields that integer exactly up to 18446744073709551609, or 9223372036854775799 when negative; every larger magnitude goes to the double parser |
| `JsonNumber.Thresholds` | static-libs/libeutils-0.7.39/libeutils/json/json_reader.cpp:497-508 | The two limits are the largest values the cut-off lets through |
| `JsonNumber.TypeRead` | static-libs/libeutils-0.7.39/libeutils/json/json_reader.cpp:500-517 | A written integer in that range is read back as the first of Int, UInt, Long and ULong that holds it, the least Int as a Long |
| `JsonValue.Trichotomy` | static-libs/libeutils-0.7.39/libeutils/json/json_value.cpp:582-693 | Of a < b, a == b and b < a exactly one holds |
| `JsonValue.Transitive` | static-libs/libeutils-0.7.39/libeutils/json/json_value.cpp:582-627 | operator< is transitive, through the size-then-lexicographic comparison of nested maps |
| `JsonValue.StrictTotalOrder` | static-libs/libeutils-0.7.39/libeutils/json/json_value.cpp:582-693 | operator< is a strict total order whose equivalence is operator== |
| `JsonValue.EqualIsStructural` | static-libs/libeutils-0.7.39/libeutils/json/json_value.cpp:648-693 | operator== is equality of the trees |
| `JsonValue.KeyTrichotomy` | static-libs/libeutils-0.7.39/libeutils/json/json_value.cpp:222-235 | The key comparison is a strict total order on the keys of one map |
| `JsonValue.StrTransitive` | static-libs/libeutils-0.7.39/libeutils/json/json_value.cpp:605-607 | The C string comparison is transitive |
| `JsonValue.DeltaIsDifference` | static-libs/libeutils-0.7.39/libeutils/json/json_value.cpp:612-615 | The 32-bit size difference has the sign of the difference for maps of less than 2^31 entries |
| `JsonOrder.LessIff` | static-libs/libeutils-0.7.39/libeutils/json/json_value.cpp:582-627 | operator< spelled out: numbers by size, strings by dictionary order with the null string first, containers by size and then by the first difference |
| `JsonOrder.KindsAscend` | static-libs/libeutils-0.7.39/libeutils/json/json_value.cpp:584-586 | Values of different kinds compare as null, the four integer types, double, string, boolean, array, object |
| `JsonOrder.MapLessIff` | static-libs/libeutils-0.7.39/libeutils/json/json_value.cpp:609-616 | Of two containers the one with fewer members is less; with equally many, the one whose member is less where they first differ |
| `JsonOrder.StrLessIff` | static-libs/libeutils-0.7.39/libeutils/json/json_value.cpp:605-607 | A C string is less exactly if it ends, or has the lower character, at the first place where the two differ |
| `JsonOrder.KeyLessIff` | static-libs/libeutils-0.7.39/libeutils/json/json_value.cpp:222-227 | Names are in dictionary order and indexes in order of size |
| `JsonText.CompactLayout` | static-libs/libeutils-0.7.39/libeutils/json/json_writer.cpp:121-175 | White space outside string literals removed, a layout of tokens is the tokens run together |
| `JsonText.RenderingsAgree` | static-libs/libeutils-0.7.39/libeutils/json/json_writer.cpp:192-438 | Any two renderings of a tree are the same text up to white space outside string literals |
| `JsonText.QuoteAtomic` | static-libs/libeutils-0.7.39/libeutils/json/json_writer.cpp:121-163 | A quoted string is one token: it closes where it ends and holds no removable white space |
| `JsonWriter.ValueToQuotedString` | static-libs/libeutils-0.7.39/libeutils/json/json_writer.cpp:121-166 | The loop and its shortcut both produce the escaped literal |
| `JsonWriter.FastRenders` | static-libs/libeutils-0.7.39/libeutils/json/json_writer.cpp:202-263 | What FastWriter prints is a rendering of the tree |
| `JsonWriter.FastWriter.Write` | static-libs/libeutils-0.7.39/libeutils/json/json_writer.cpp:192-198 | The document is the text of the tree and a line break |
| `JsonWriter.FastWriter.WriteValue` | static-libs/libeutils-0.7.39/libeutils/json/json_writer.cpp:202-263 | The recursive printer appends the text of the tree |
| `JsonStyledWriter.StyledRenders` | static-libs/libeutils-0.7.39/libeutils/json/json_writer.cpp:291-438 | What StyledWriter prints is a rendering of the tree |
| `JsonStyledWriter.FastIsTokens` | static-libs/libeutils-0.7.39/libeutils/json/json_writer.cpp:185-263 | FastWriter's text is the tokens of the tree run together, with a blank behind each colon when the YAML spacing is on |
| `JsonStyledWriter.StyledAgreesWithFast` | static-libs/libeutils-0.7.39/libeutils/json/json_writer.cpp:291-438 | Without white space outside string literals, both writers' texts are FastWriter's |
| `JsonStyledWriter.StyledRoundTrip` | static-libs/libeutils-0.7.39/libeutils/json/json_writer.cpp:277-438 | StyledWriter's text is FastWriter's up to white space and reads back as the same tree |
| `JsonStyledWriter.FastRoundTrip` | static-libs/libeutils-0.7.39/libeutils/json/json_writer.cpp:192-263 | FastWriter's output, with or without YAML spacing, reads back as the same tree with canonical integer types |
| `JsonStyledWriter.StyledWriter.Write` | static-libs/libeutils-0.7.39/libeutils/json/json_writer.cpp:277-287 | The document is the styled text of the tree and a line break |
| `JsonLayout.DocumentIsLines` | static-libs/libeutils-0.7.39/libeutils/json/json_writer.cpp:277-438 | The styled document, line by line: brackets on lines of their own with the items between them, indented by three blanks, a comma behind all but the last, and arrays that fit on one line |
| `JsonLayout.OneLineIff` | static-libs/libeutils-0.7.39/libeutils/json/json_writer.cpp:411-438 | An array takes one line exactly if it holds no filled container, three times its size is below 74, and that line is shorter than 74 characters |
| `JsonStyledWriter.StyledWriter.WriteValue` | static-libs/libeutils-0.7.39/libeutils/json/json_writer.cpp:291-354 | The recursive printer appends the styled text, or pushes one child text when collecting, and indentation is balanced on return |
| `JsonStyledWriter.StyledWriter.WriteArrayValue` | static-libs/libeutils-0.7.39/libeutils/json/json_writer.cpp:358-407 | Arrays are printed on one line or indented, and the buffer of child texts has one text per element when it is used, despite its recursive reuse |
| `JsonStyledWriter.StyledWriter.IsMultilineArray` | static-libs/libeutils-0.7.39/libeutils/json/json_writer.cpp:411-438 | The decision, and the child texts left in the buffer when the array is tried on one line |
| `JsonStyledWriter.StyledWriter.WriteIndent` | static-libs/libeutils-0.7.39/libeutils/json/json_writer.cpp:452-463 | A new indented line, unless the document already ends with a blank |
| `JsonStyledWriter.StyledWriter.Unindent` | static-libs/libeutils-0.7.39/libeutils/json/json_writer.cpp:482-486 | The indentation is cut by what Indent added |
| `JsonReading.ReadToken` | static-libs/libeutils-0.7.39/libeutils/json/json_reader.cpp:174-246 | A token that is not the end of the stream consumes at least one character |
| `JsonReading.Recover` | static-libs/libeutils-0.7.39/libeutils/json/json_reader.cpp:647-661 | Error recovery ends and never moves back |
| `JsonReading.ReadValue` | static-libs/libeutils-0.7.39/libeutils/json/json_reader.cpp:102-150 | Reading a value never moves back, and a value that is read consumes at least one character |
| `JsonReading.StringEnd` | static-libs/libeutils-0.7.39/libeutils/json/json_reader.cpp:364-376 | The end of a string literal: behind the first unescaped quote |
| `JsonReader.Reader.NextToken` | static-libs/libeutils-0.7.39/libeutils/json/json_reader.cpp:174-246 | The cursor advances as the token specification says and stays inside the document |
| `JsonReader.Reader.SkipCommentTokens` | static-libs/libeutils-0.7.39/libeutils/json/json_reader.cpp:153-161 | Comments are read past |
| `JsonReader.Reader.ReadString` | static-libs/libeutils-0.7.39/libeutils/json/json_reader.cpp:364-376 | The escape-aware scan stops at the end of the literal |
| `JsonReader.Reader.ReadNumber` | static-libs/libeutils-0.7.39/libeutils/json/json_reader.cpp:352-361 | The scan stops at the first character that no number holds |
| `JsonReader.Reader.ReadCStyleComment` | static-libs/libeutils-0.7.39/libeutils/json/json_reader.cpp:326-336 | The scan stops behind the closing mark, or at the end of the document |
| `JsonReader.Reader.RecoverFromError` | static-libs/libeutils-0.7.39/libeutils/json/json_reader.cpp:647-661 | Skips to the token and drops the errors recorded on the way |
| `JsonReader.Reader.AddErrorAndRecover` | static-libs/libeutils-0.7.39/libeutils/json/json_reader.cpp:664-671 | Records the error, then recovers |
| `JsonReader.Reader.DecodeNumberToken` | static-libs/libeutils-0.7.39/libeutils/json/json_reader.cpp:476-518 | The token becomes the integer or goes to the double parser |
| `JsonNumeral.DecodeIs` | static-libs/libeutils-0.7.39/libeutils/json/json_reader.cpp:476-518 | Every number token is an integer exactly if it is digits behind an optional sign and its digits but the last are below the cut-off; then it is their value in the type for its size, else it goes to the double parser; the error for a wrong digit never arises here |
| `JsonNumeral.NumberIsRead` | static-libs/libeutils-0.7.39/libeutils/json/json_reader.cpp:521-544 | The value of such a token, or the error on numbers, which only the double parser raises |
| `JsonReader.Reader.DecodeStringToken` | static-libs/libeutils-0.7.39/libeutils/json/json_reader.cpp:547-603 | The token becomes the text its escapes stand for, or the error of the first that is none: as Unescape, whose meaning the rows of JsonSpelling give |
| `JsonSpelling.DecodesIffSpelled` | static-libs/libeutils-0.7.39/libeutils/json/json_reader.cpp:559-604 | Decoding yields a text exactly on its legal spellings, in a table of its own: each character as itself or as any short escape, a slash with or without its backslash, and Unicode escapes anywhere, which add nothing |
| `JsonSpelling.Stops` | static-libs/libeutils-0.7.39/libeutils/json/json_reader.cpp:567-595 | What stops the decoder otherwise, and with which error |
| `JsonSpelling.StringIsRead` | static-libs/libeutils-0.7.39/libeutils/json/json_reader.cpp:126-128 | A string in a document, in any of its spellings, is read as its text, cut at a NUL |
| `JsonSpelling.NameIsRead` | static-libs/libeutils-0.7.39/libeutils/json/json_reader.cpp:394-398 | And so is the name of a member |
| `JsonSpelling.SpellingEnds` | static-libs/libeutils-0.7.39/libeutils/json/json_reader.cpp:364-376 | The scan of a literal stops at its closing quote in every spelling |
| `JsonSpelling.EscapeSpells` | static-libs/libeutils-0.7.39/libeutils/json/json_writer.cpp:121-163 | The writers spell a text character by character, with a short escape exactly for the seven characters that need one |
| `JsonSpelling.CommentIsSkipped` | static-libs/libeutils-0.7.39/libeutils/json/json_reader.cpp:326-336 | In front of a value or a name a comment is skipped up to its first closing mark |
| `JsonSpelling.LineIsSkipped` | static-libs/libeutils-0.7.39/libeutils/json/json_reader.cpp:338-348 | And one to the end of its line |
| `JsonReader.DecodeHexDigits` | static-libs/libeutils-0.7.39/libeutils/json/json_reader.cpp:607-630 | Four hexadecimal digits, or failure |
| `JsonReader.Reader.ReadValue` | static-libs/libeutils-0.7.39/libeutils/json/json_reader.cpp:102-150 | The cursor parser with its node stack does what the recursive specification says, and restores the depth of the stack on success and on failure |
| `JsonReader.Reader.ReadArray` | static-libs/libeutils-0.7.39/libeutils/json/json_reader.cpp:439-473 | The element loop reads the elements the specification reads |
| `JsonReader.Reader.ReadObject` | static-libs/libeutils-0.7.39/libeutils/json/json_reader.cpp:380-436 | The member loop reads the members the specification reads |
| `JsonReader.Reader.Parse` | static-libs/libeutils-0.7.39/libeutils/json/json_reader.cpp:76-99 | Value, success, errors and position are those of the specification, for every document |
| `JsonGrammar.ReadsIff` | static-libs/libeutils-0.7.39/libeutils/json/json_reader.cpp:102-150 | The reader succeeds exactly on the texts of a grammar given apart from it, blanks and comments included, each for its value and its end, and then records no error |
| `JsonGrammar.DocAccepted` | static-libs/libeutils-0.7.39/libeutils/json/json_reader.cpp:102-150 | In particular every document of the grammar is read, whatever follows it and whatever the root was |
| `JsonGrammar.MemsLookup` | static-libs/libeutils-0.7.39/libeutils/json/json_reader.cpp:380-435 | Of the members of an object with one name the last one counts |
| `JsonErrors.NoValue` | static-libs/libeutils-0.7.39/libeutils/json/json_reader.cpp:138-139 | Where a value is wanted, any token that begins none is the error on values |
| `JsonErrors.NoName` | static-libs/libeutils-0.7.39/libeutils/json/json_reader.cpp:392-395 | Where a name is wanted, any other token is the error on names, a closing brace only behind a name that is not empty; reading goes on behind the object |
| `JsonErrors.NoColon` | static-libs/libeutils-0.7.39/libeutils/json/json_reader.cpp:401-407 | Behind a name, anything but a colon is the error on colons, a comment too |
| `JsonErrors.NoBrace` | static-libs/libeutils-0.7.39/libeutils/json/json_reader.cpp:415-424 | Behind a member, any token but a comma, a closing brace and a comment is the error on commas in objects; the member is kept |
| `JsonErrors.NoBracket` | static-libs/libeutils-0.7.39/libeutils/json/json_reader.cpp:459-467 | Behind an element, any token but a comma and a closing bracket is the error on commas in arrays, a comment too; the element is kept |
| `JsonErrors.RecoverSkips` | static-libs/libeutils-0.7.39/libeutils/json/json_reader.cpp:647-661 | Recovery goes behind the first token of the wanted type, or behind the last token of all |
| `JsonErrors.WrongWord` | static-libs/libeutils-0.7.39/libeutils/json/json_reader.cpp:216-227 | The first letter of true, false or null without the rest is an error token of its own |
| `JsonErrors.WrongSlash` | static-libs/libeutils-0.7.39/libeutils/json/json_reader.cpp:278-302 | A slash that begins no comment takes the next character with it |
| `JsonErrors.OpenComment` | static-libs/libeutils-0.7.39/libeutils/json/json_reader.cpp:326-336 | A comment that is not closed is an error token up to the end of the document |
| `JsonErrors.OpenString` | static-libs/libeutils-0.7.39/libeutils/json/json_reader.cpp:364-376 | So is a string that is not closed |
| `JsonErrors.WrongChar` | static-libs/libeutils-0.7.39/libeutils/json/json_reader.cpp:234-242 | Any other character is an error token alone, a NUL the end of the stream |
| `JsonRoundTrip.RoundTrip` | static-libs/libeutils-0.7.39/libeutils/json/json_reader.cpp:102-150 | Every rendering of a tree reads back as the tree with integers in the reader types, whatever the root was, exactly when its integers are in range |
| `JsonRoundTrip.ReadRendered` | static-libs/libeutils-0.7.39/libeutils/json/json_reader.cpp:102-150 | The same for a value in the middle of a text |
| `JsonRoundTrip.UnescapeEscape` | static-libs/libeutils-0.7.39/libeutils/json/json_reader.cpp:559-604 | Undoing the escapes of an escaped string gives the string back |
| `JsonRoundTrip.StringEndEscape` | static-libs/libeutils-0.7.39/libeutils/json/json_reader.cpp:364-376 | The scan of a literal ends where the writer closed it |
| `JsonRoundTrip.BuiltIsCanonical` | static-libs/libeutils-0.7.39/libeutils/json/json_reader.cpp:102-150 | Any tree the reader builds without doubles is printable, in range and unchanged by re-reading |
| `JsonRoundTrip.ValueBuilt` | static-libs/libeutils-0.7.39/libeutils/json/json_reader.cpp:102-150 | Whatever the document, the tree left by the reader is well formed: names ascend, arrays are dense, integers are in the reader types |
| `JsonRoundTrip.ReadWriteRead` | static-libs/libeutils-0.7.39/libeutils/json/json_reader.cpp:102-150 | What was read from any document, if it holds no doubles, reads back unchanged from any rendering |
| `JsonRoundTrip.ParseErrors` | static-libs/libeutils-0.7.39/libeutils/json/json_reader.cpp:76-99 | Parsing fails exactly when an error is recorded, and then one is recorded |
| `Signal.EmissionCallsItsSlots` | static-libs/libsigc++-2.4.1/sigc++/signal.h:762-774 | An emission reaches the nodes present when it began in order, each once, all of them when no handler throws, and calls exactly those that are not empty and not blocked when reached |
| `Signal.LaterSlotsAreNotReached` | static-libs/libsigc++-2.4.1/sigc++/signal_base.h:192-216 | A slot connected during an emission stands behind its placeholder |
| `Signal.NothingUnlinkedWhileEmitting` | static-libs/libsigc++-2.4.1/sigc++/signal_base.cc:138-155 | While an emission is open the only node unlinked is the placeholder of the innermost emission, when that one ends |
| `Signal.QuietMeansSwept` | static-libs/libsigc++-2.4.1/sigc++/signal_base.cc:122-136 | With nothing open no disconnected slot and no placeholder is left, no sweep is due, the only empty slots are those connected empty, and the survivors are in connection order |
| `Signal.NoneLeft` | static-libs/libsigc++-2.4.1/sigc++/signal_base.cc:122-155 | In every run that connects no empty slot, no empty slot is left when the outermost guard has closed |
| `Signal.EmptyLeftIff` | static-libs/libsigc++-2.4.1/sigc++/signal_base.cc:122-155 | In every run, an empty slot is left when the outermost guard has closed exactly if it was connected empty, no sweep was due or under way at that moment, and no callable slot has been disconnected since while a guard was open |
| `Signal.HollowLeftIff` | static-libs/libsigc++-2.4.1/sigc++/signal_base.cc:122-136 | From any state of a run on, a slot connected empty is left exactly as long as no sweep passes it |
| `Signal.HollowStays` | static-libs/libsigc++-2.4.1/sigc++/signal_base.cc:138-155 | A slot that was empty when it was connected is not swept by itself: it can stay with nothing open |
| `Signal.CallableStays` | static-libs/libsigc++-2.4.1/sigc++/signal_base.cc:114-155 | A slot stays in the list and callable until it is disconnected or the signal is deleted |
| `Signal.CountersAndDeletion` | static-libs/libsigc++-2.4.1/sigc++/signal_base.h:60-82 | ref_count_ is handles plus open guards, exec_count_ is open guards, and the signal is deleted once, exactly when the last of both is gone |
| `Signal.SweepEnds` | static-libs/libsigc++-2.4.1/sigc++/signal_base.cc:122-136 | A sweep ends; it removes every empty slot from its position on and keeps the others in order |
| `Signal.AdvancesToNext` | static-libs/libsigc++-2.4.1/sigc++/signal.h:768-773 | The machine skips as the loop does, to the next node to call |
| `Signal.DisconnectInv` | static-libs/libsigc++-2.4.1/sigc++/signal_base.cc:138-155 | Disconnecting keeps the invariant on list, guards and counters |
| `SlotLives.Disconnected` | static-libs/libsigc++-2.4.1/sigc++/signal_base.cc:138-155 | In every reachable state, a callable slot that user code disconnects is out of the list at once when nothing is open; otherwise it is marked, and sweeping is due |
| `SlotLives.DisconnectNotifies` | static-libs/libsigc++-2.4.1/sigc++/signal_base.cc:138-155 | What the machine makes of the fields by then, and by the end of the guard of an erasure, is what the method Notify leaves |
| `SlotLives.SlotLife` | static-libs/libsigc++-2.4.1/sigc++/signal_base.cc:93-155 | In every run: from its connection on a slot is in the list and callable exactly as long as user code has not disconnected it, its flag is the one set last, and a disconnected one is gone when nothing is open |
| `SlotLives.NeverCalledAgain` | static-libs/libsigc++-2.4.1/sigc++/signal.h:768-773 | No later step of any run calls a slot that has been disconnected |
| `SlotLives.CalledIsCallable` | static-libs/libsigc++-2.4.1/sigc++/signal.h:768-773 | Every step that calls a slot finds it in the list, callable and not blocked |
| `SlotLives.EmitBegins` | static-libs/libsigc++-2.4.1/sigc++/signal.h:764-766 | An emission begins over exactly the nodes in the list, unless there are none |
| `SlotLives.EmissionsGoOn` | static-libs/libsigc++-2.4.1/sigc++/signal.h:768-773 | An open emission is left alone by every step but those that take it one node further, calling the node exactly when it is neither empty nor blocked |
| `SlotLives.RecordsGrow` | static-libs/libsigc++-2.4.1/sigc++/signal.h:762-774 | An emission ends at its placeholder, or with an exception of the handler it has called, and then only |
| `SlotLives.HandlesAre` | static-libs/libsigc++-2.4.1/sigc++/signal_base.h:60-82 | In every run the handles are the first one, and the copies made less those destroyed |
| `Signal.BeginInv` | static-libs/libsigc++-2.4.1/sigc++/signal.h:764-766 | Beginning an emission, guard and placeholder, keeps the invariant |
| `Signal.ReachableInv` | static-libs/libsigc++-2.4.1/sigc++/signal_base.cc:114-155 | Every state reached by any nesting of handlers and library steps satisfies the invariant on list, guards and counters |
| `Signal.SignalImpl.ReferenceExec` | static-libs/libsigc++-2.4.1/sigc++/signal_base.h:65-66 | Both counters grow by one |
| `Signal.SignalImpl.UnreferenceExec` | static-libs/libsigc++-2.4.1/sigc++/signal_base.h:78-82 | The last reference deletes; the last execution sweeps when that was deferred; else only the counters change |
| `Signal.SignalImpl.Sweep` | static-libs/libsigc++-2.4.1/sigc++/signal_base.cc:122-136 | The loop leaves exactly the slots that are not empty, in order |
| `Signal.SignalImpl.Notify` | static-libs/libsigc++-2.4.1/sigc++/signal_base.cc:138-155 | With no execution open the slot is erased, counters and flag stay; else sweeping is due and nothing else changes; the signal is not deleted |
| `Signal.SignalImpl.NextToCall` | static-libs/libsigc++-2.4.1/sigc++/signal.h:768-773 | The loop of emit stops at the first node that is neither empty nor blocked |
| `Trackable.PassIsDue` | static-libs/libsigc++-2.4.1/sigc++/trackable.cc:84-91 | With distinct data the pass makes exactly the calls due: in registration order, each callback that no earlier call of the pass removed; additions are ignored |
| `Trackable.DueIffDistinct` | static-libs/libsigc++-2.4.1/sigc++/trackable.cc:84-128 | The pass makes the calls due whatever the callbacks do to the list, exactly when no data is registered twice |
| `Trackable.CalledUnlessRemoved` | static-libs/libsigc++-2.4.1/sigc++/trackable.cc:84-128 | Each callback is called once, right after those due before it, unless one of these removed it; then never |
| `Trackable.SameDataTwice` | static-libs/libsigc++-2.4.1/sigc++/trackable.cc:114-128 | With equal data the removal hits the entry that has already run, and the second one runs all the same |
| `Trackable.DisarmAt` | static-libs/libsigc++-2.4.1/sigc++/trackable.cc:114-128 | Removal disarms, or erases, the first armed entry with the data |
| `Trackable.CallbackList.AddCallback` | static-libs/libsigc++-2.4.1/sigc++/trackable.cc:93-99 | Appended, or ignored while clearing |
| `Trackable.CallbackList.RemoveCallback` | static-libs/libsigc++-2.4.1/sigc++/trackable.cc:114-128 | The loop erases the first armed entry with the data, or disarms it while clearing |
| `Trackable.CallbackList.Destroy` | static-libs/libsigc++-2.4.1/sigc++/trackable.cc:84-91 | The loop over a list that its callbacks change makes the calls of the pass |
| `Trackable.CallbackList.Clear` | static-libs/libsigc++-2.4.1/sigc++/trackable.cc:101-112 | The same calls; afterwards the list is empty and takes callbacks again |
| `SimpleCfg.ReadBackIffCanonical` | static-libs/libeutils-0.7.39/libeutils/SimpleCfg.cpp:55-69 | A written line is parsed as the pair that was written exactly for canonical pairs |
| `SimpleCfg.ReadIffAssigns` | static-libs/libeutils-0.7.39/libeutils/SimpleCfg.cpp:53-69 | A line is read as a pair exactly if it is that key and that value, free of delimiters and of blanks at their ends, with one delimiter between them and blanks anywhere around, and no comment |
| `SimpleCfg.TrimmedEnds` | static-libs/libeutils-0.7.39/libeutils/StringTools.cpp:35-38 | A text is trimmed exactly when neither end is a blank |
| `SimpleCfg.PiecesOfLine` | static-libs/libeutils-0.7.39/libeutils/StringTools.cpp:57-69 | Splitting a written line at the delimiter gives the key and the pieces of the value |
| `SimpleCfg.IndexIsLast` | static-libs/libeutils-0.7.39/libeutils/SimpleCfg.cpp:53-70 | The index holds exactly the keys of the text, each with the last line that sets it |
| `SimpleCfg.ValueIsFirst` | static-libs/libeutils-0.7.39/libeutils/SimpleCfg.cpp:53-70 | The map holds the value of the first line that sets a key |
| `SimpleCfg.UpdateAgrees` | static-libs/libeutils-0.7.39/libeutils/SimpleCfg.cpp:101-112 | Without duplicate keys, reading the updated text afresh gives the updated map, and no duplicate arises |
| `SimpleCfg.RemoveAgrees` | static-libs/libeutils-0.7.39/libeutils/SimpleCfg.cpp:114-122 | Without duplicate keys, reading the text after a removal afresh gives the map without the key, and no duplicate arises |
| `SimpleCfg.RemoveTakesOwnLine` | static-libs/libeutils-0.7.39/libeutils/SimpleCfg.cpp:120-120 | The line taken out is the one that sets the key; all other lines keep text and order |
| `SimpleCfg.TextIsMap` | static-libs/libeutils-0.7.39/libeutils/SimpleCfg.cpp:101-122 | After any sequence of updates and removals, reading the text afresh gives what a plain map would hold |
| `SimpleCfg.UpdateAgreesIff` | static-libs/libeutils-0.7.39/libeutils/SimpleCfg.cpp:101-112 | For every file, key and value: reading the updated text afresh gives the updated map exactly when the pair is canonical and no line but the indexed one sets the key, or the map has the value already |
| `SimpleCfg.UpdateParse` | static-libs/libeutils-0.7.39/libeutils/SimpleCfg.cpp:49-112 | For every file: when another line sets the key, an update is not there after reading the file again, and nothing else has changed; else exactly it has |
| `SimpleCfg.RemoveParse` | static-libs/libeutils-0.7.39/libeutils/SimpleCfg.cpp:114-122 | For every file: when another line sets the key, it is back with its value after the removal; else exactly it is gone |
| `SimpleCfg.RemoveAgreesIff` | static-libs/libeutils-0.7.39/libeutils/SimpleCfg.cpp:114-122 | Reading the text after a removal afresh gives the map without the key exactly when no second line sets the key |
| `SimpleCfg.TwoLines` | static-libs/libeutils-0.7.39/libeutils/SimpleCfg.cpp:101-122 | The file a=1, a=2: neither the update nor the removal of a is seen afterwards |
| `SimpleCfg.Cfg.CreateIndex` | static-libs/libeutils-0.7.39/libeutils/SimpleCfg.cpp:49-71 | The loop builds the map, the index and the line count of the text |
| `SimpleCfg.Cfg.Update` | static-libs/libeutils-0.7.39/libeutils/SimpleCfg.cpp:101-112 | For any key and value the index leads into the text before and after; the map gets the value, and the indexed line or a new one the pair; after a parse and with a canonical pair the index stays that of the text, and without duplicates so does the map |
| `SimpleCfg.Cfg.Remove` | static-libs/libeutils-0.7.39/libeutils/SimpleCfg.cpp:114-122 | The indexed line goes, the others stay in order, and map, index and count are those of the text; without duplicates the map has lost exactly the key |
| `SimpleCfg.Cfg.ValueOrDefault` | static-libs/libeutils-0.7.39/libeutils/SimpleCfg.cpp:130-135 | After a parse the value is that of the first line that sets the key, and the default exactly when no line does |
| `BatchAllocator.FitsIffDivides` | static-libs/libeutils-0.7.39/libeutils/json/json_batchallocator.h:61-76 | All blocks of a page lie inside the page exactly when the block size divides the page size |
| `BatchAllocator.Allocator.Allocate` | static-libs/libeutils-0.7.39/libeutils/json/json_batchallocator.h:53-77 | A block no client has; the head of the free list when there is one; nothing else changes hands, and memory is asked for exactly when no block is free and all pages are cut up |
| `BatchAllocator.Allocator.FindRoom` | static-libs/libeutils-0.7.39/libeutils/json/json_batchallocator.h:61-73 | The walk behind the current page finds no room, so exactly one page is added, at the head |
| `BatchAllocator.Allocator.Carve` | static-libs/libeutils-0.7.39/libeutils/json/json_batchallocator.h:74-76 | The next block of the page was neither live nor released before |
| `BatchAllocator.Allocator.Release` | static-libs/libeutils-0.7.39/libeutils/json/json_batchallocator.h:81-86 | The block becomes the head of the free list |
| `BatchAllocator.Allocator.LiveBlocksApart` | static-libs/libeutils-0.7.39/libeutils/json/json_batchallocator.h:53-110 | Live blocks lie inside the memory allocated for their page, none in the empty first one, and are pairwise disjoint |
| `BatchAllocator.Allocator.PageEnds` | static-libs/libeutils-0.7.39/libeutils/json/json_batchallocator.h:101-110 | A page ends where the objects allocated for it do, the first, empty one at its start |
| `BatchAllocator.Allocator.ReleasedBlocksApart` | static-libs/libeutils-0.7.39/libeutils/json/json_batchallocator.h:81-86 | No released block, which the allocator writes links into, overlaps a live one |
| `BatchAllocator.PopFree` | static-libs/libeutils-0.7.39/libeutils/json/json_batchallocator.h:55-60 | Taking the head of the free list leaves a free list without a cycle |
| `BatchAllocator.PushFree` | static-libs/libeutils-0.7.39/libeutils/json/json_batchallocator.h:81-86 | Putting a block in front of the free list leaves a free list without a cycle |
| `BatchAllocator.GrowBlocks` | static-libs/libeutils-0.7.39/libeutils/json/json_batchallocator.h:74-76 | Cutting a block from a page adds that block and no other to the blocks cut |

## Left out

- Registry.CurlDownloader.Run: the undisturbed run only; interleavings are in the machine of Transfers. The change of owner of the file, the removal of its leftovers and the setup of libcurl are calls into code that is not part of this model.
- Registry.FtdApp.RemoveDownload: the loop that sleeps until the download may be reaped is a step of the machine that may be repeated; the method starts when it may.
- Starting.NeverCrashes: stated for runs that keep the three rules. That the rule on URLs is needed is shown by a run, not for every Add that breaks it.
- FtdApp::ShutDown (bubba-ftd/src/FtdApp.cpp:643-671) is not modelled. It holds transfermutex while it waits for ReapOK of each download, and a run whose policy asks for removal takes that mutex before it completes, so that the two can wait for each other for ever; Transfers.NoDeadlock is about the threads of the machine only.
- EcgiReader.Ecgi.ProcessMultiPart: stops where a field that was read in pieces has been stored under the name of the part behind it (`LongField`); the source goes on with that part two bytes too late, and of this only the value of a part that is wholly in the window is modelled (`TakeLate`). A header block that straddles a refill stops it, too. The cancel flag of the parser is not modelled.
- EcgiReader.Ecgi.CutContent: a max_read of exactly -1 counts as the exception, like every negative one. For a file the source compares what write answers for -1 bytes with max_read, and on Linux both are -1, so that it goes on: at a header block with the next part, in mid-part (EcgiReader.Ecgi.TakePieces) with cur_read moved in front of the buffer.
- Multipart.DispositionIs: the header line is parsed as a value; the NULs that the source writes into it, and lines that hold NULs, are not shown.
- EcgiReader.Ecgi.FindBoundary: stale bytes behind the window never complete a match here. A form without a boundary parameter, whose delimiter would be empty, is not modelled.
- JsonReader.Reader.DecodeStringToken: Unicode escapes are checked and dropped, as in the source.
- JsonReader.Reader.ReadValue: the node stack holds copies that are written back, where the source holds pointers into the tree.
- JsonRoundTrip.RoundTrip: trees without doubles, null C strings and gaps in arrays, and names without NUL.
- JsonWriter.FastWriter.Write, JsonWriter.FastWriter.WriteValue: trees without doubles, null C strings and gaps in arrays.
- JsonStyledWriter.StyledWriter.Write, JsonStyledWriter.StyledWriter.WriteValue: the same.
- JSON doubles, infinities and NaN: printing and parsing use sprintf and sscanf, which are not part of this model.
- JSON comments are read past and not attached to values; the writers print trees without comments.
- StyledStreamWriter, Path, swap, resize and the other accessors of Value: near copies or easy members.
- Value operator<= is written so that it equals operator>=; the order is about operator< and operator==.
- Signal: explicit erase and clear during an emission are documented as unsupported. The counters are unbounded, where the source has 16 bits. Only the emission without arguments is modelled.
- Signal.CountersAndDeletion: what the destructors of slots do when the last handle clears the list is not modelled.
- Trackable.CallbackList.Destroy: callbacks act on the list by adding and removing; destroying or clearing the list from within is not modelled.
- SimpleCfg: reading and writing the file, and line breaks inside keys or values.
- Completion: the torrent and socket downloaders, whose states are driven by unseen libraries.
- Transfers: StartDownload is taken to succeed (it throws for an empty URL). Listing downloads, throttling and the socket commands are not modelled.
- The worker behind the deferred work queue is taken as it is meant: its own liveness is not modelled.
- URL, string, user, session and service helpers, and the PHP clients: easy or foreign code.
