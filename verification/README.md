# A verified model of the server core

The repository is a fiber-based HTTP server: an incremental HTTP/1.x parser with a URL parser, the request object that
the parser's callbacks fill in and that can be printed again, and an N:M scheduler with an epoll event table, hooked
I/O and a timer wheel. This project models that core in Dafny and proves what it guarantees.

## How it is built

| files | what they model |
|---|---|
| `Bytes`, `ParserTypes`, `ParserStep` | the character classes, `struct http_parser`, and one pass of the `http_parser_execute` loop over one byte; a `goto reexecute` is a call of the function of the state it jumps to, so the (acyclic) call graph is the proof that the jumps end |
| `ParserInvariant`, `ParserMarks`, `Assertions` | what holds between any two bytes: the record invariant, the one open run of callback bytes, the source's own assertions |
| `ParserRun`, `ParserSegments`, `Delivery` | runs over buffers, merging of callbacks, splitting and joining of input |
| `ParserBatches`, `ParserProgress`, `ParserReports`, `HttpParser` | the class with the loops as they are written (reading ahead, marks, counters checked after a batch), proved to report exactly what the byte-at-a-time run and the batch it fails in determine |
| `MethodMatcher`, `Lengths`, `HeaderNames`, `HeaderLines`, `HeaderTokens`, `HeaderElements`, `Framing`, `BodyFraming`, `Chunked` | results about requests, headers and bodies |
| `HttpRequest`, `RequestParser`, `RoundTrip`, `WireTrip` | the request object, its header map, its printer, the callbacks, and the round trip |
| `Deviations` | requests on which the code does something else than its comments say |
| `Url`, `UrlRoundTrip` | `http_parser_parse_url` |
| `EventTable`, `Scheduling`, `WakeTokens`, `Pinning`, `IoManager` | event table, fibers, scheduler, hooked I/O as a step system, and the same operations as object methods |
| `Timer`, `TimerRuns` | the timer wheel and its runs |

Conventions. A byte is a `char`; no result needs it to be below 256. The build is the strict one, with
`lenient_http_headers` and `allow_chunked_length` off. A handler is an append to `log` and returns 0. `max` is
`max_header_size`, fixed when a parser is made. The 32-bit byte counter cannot wrap because a call requires
`|data| + max < 2^32`; every other width that matters is explicit (the 5-bit `index`, 64-bit lengths, 16-bit URL
fields, the cast of a clock difference to `int`).

What the code does where its documentation or the reader might expect otherwise:

- A value that nothing is looked for in is read in stretches of `max` bytes, and the byte after a full stretch is
  skipped unread. The header limit is checked only when the value ends, so a call that passes it may report something
  else: with a limit of 20 the text `GET / HTTP/1.1\r\nA:`, 22 letters and a control character is reported as an
  invalid header token at byte 40 (`Deviations.LimitIsHidden`). Exactly when: the overflow is reported unless the value
  runs into a bad byte at an index that the loop inspects, before any line end at such an index
  (`ParserReports.OverflowExactly`).
- `transfer-encoding` as a mere prefix of a field name sets `uses_transfer_encoding`, documented as "header is present"
  (`HeaderNames.NameExactly`): a request with `Transfer-Encoding-X: a` is refused with an invalid transfer encoding
  (`Deviations.PrefixIsRefused`).
- Not every last element `chunked` sets its flag (`HeaderElements.ChunkedExactly`). The matcher takes a comma for a byte
  of the word it is matching, so `c,chunked` and `chunked,chunked` set no flag (`Deviations.AfterComma`); and it gives
  up when anything but spaces and a token character follows the comma that ends an element, so `gzip,,chunked` and
  `gzip,<tab>chunked` set none either (`Deviations.AfterTwoCommas`, `Deviations.AfterTab`). `Connection` values are read by the same rules
  (`HeaderElements.ConnectionExactly`).
- `toString` writes query and fragment after the space that ends the path, so such a request cannot be parsed back
  (`RoundTrip.QueryIsRejected`); it prints `MSEARCH`, which is not the method's name on the wire
  (`RoundTrip.NameIsRejected`).
- A timer whose interval is longer than one turn of the wheel fires in its first visit (`TimerRuns.DeadlineExactly`).
- `addEvent` on a slot that is taken and `delEvent` under a waiting fiber lose a wake-up
  (`WakeTokens.RegisterExactly`, `WakeTokens.CloseExactly`); the step system excludes both by guards.

## Model

| member | source | states |
|---|---|---|
| ParserInvariant.StepKeeps | src/http/http_parser.cpp:719-2123 | whatever the byte, a record that satisfies the invariant (state, header state, flags, lengths and count fit together) is left in one, or the step reports an error other than OK |
| ParserInvariant.SecondGuessFits | src/http/http_parser.cpp:985-1016 | every revision of the guessed method agrees with the letters already read and is read at an index inside its name |
| ParserMarks.StepActs | src/http/http_parser.cpp:688-711 | at every byte at most one run of callback bytes is open, notifications come between runs, and the run left open is the one the state's mark stands for |
| ParserRun.SplitInvariance | src/http/http_parser.cpp:642-2156 | any partition of the input into buffers gives the record, the merged callbacks, the byte count and the error of one call on the whole input |
| ParserRun.RunKeeps | src/http/http_parser.cpp:713-2124 | a run over a buffer keeps the invariant, never passes the end of the buffer, and fails only with a real error |
| ParserProgress.ExecutedCount | src/http/http_parser.cpp:713-2156 | a call that exits early has consumed at least one byte and not more than the buffer, and one that fails stops before the end |
| ParserBatches.FieldRun | src/http/http_parser.cpp:1257-1379 | reading ahead over name bytes is the same as single steps, or passes the header limit and overflows |
| ParserBatches.ValueRun | src/http/http_parser.cpp:1483-1706 | the same for value bytes |
| ParserBatches.BodyRun | src/http/http_parser.cpp:1945-1979 | slicing body bytes is the same as single steps |
| ParserProgress.ChunkTaken | src/http/http_parser.cpp:2079-2100 | the part of a chunk that a buffer holds is taken whole, in order, and the remaining length is exact |
| ParserProgress.IdentityTaken | src/http/http_parser.cpp:1945-1995 | the part of an identity body that a buffer holds is taken, and the last byte completes the message |
| HttpParsers.HttpParser.constructor | src/http/http_parser.cpp:2225-2234 | a new parser satisfies the invariant and has called nobody |
| HttpParsers.HttpParser.Perform | src/http/http_parser.cpp:81-145 | the mark and callback macros deliver exactly the bytes between the mark and the current position |
| HttpParsers.HttpParser.Count | src/http/http_parser.cpp:155-162 | the counter is raised by the bytes given, and the call succeeds exactly when the limit is kept |
| HttpParsers.HttpParser.ReadField | src/http/http_parser.cpp:1257-1363 | the double loop over a field name stops at the first byte that is no token and leaves the record that reading the bytes one at a time leaves |
| ParserReports.OverflowExactly | src/http/http_parser.cpp:1483-1706 | a call whose run passes the header limit reports the overflow exactly unless the value it passes it in meets a bad byte: from the index at which nothing is looked for any more only every byte but the one after each stretch of `max` is inspected, and the first inspected byte that ends the value decides |
| Deviations.LimitIsHidden | src/http/http_parser.cpp:1512-1531 | a request from the first byte on, with a limit of 20, that passes the limit, skips a byte and is reported as an invalid header token |
| HttpParsers.HttpParser.ReadValue | src/http/http_parser.cpp:1483-1700 | the loop over a value ends at the first inspected byte that is no value byte, with the error of that byte, and leaves the record of the bytes before it, except that a byte may be skipped once `max` bytes have been read |
| HttpParsers.HttpParser.ValueBytes | src/http/http_parser.cpp:1483-1706 | a batch of value bytes continues the run, or ends the call with the error, the count and the callbacks that the bytes of the value determine; the value is called back before the limit is checked at a carriage return, and after it at a line feed |
| HttpParsers.HttpParser.FlushMarks | src/http/http_parser.cpp:2126-2146 | at the end of a buffer at most one mark is left, and exactly its bytes are called back |
| HttpParsers.HttpParser.Execute | src/http/http_parser.cpp:642-2156 | a call that succeeds leaves the record, the callbacks and the count of the byte-at-a-time run; a call that fails has the error, the count and every callback made before, those of the failing byte included; past the header limit these are the ones that the batch determines |
| HttpParsers.HttpParser.Feed | src/http/http_parser.h:294-299 | successive calls on buffers end exactly as the reports of the single calls do, up to the first that fails or leaves bytes unread: record, callbacks, error and total count |
| ParserReports.FedIsOneCall | src/http/http_parser.h:87-90 | any cut gives the record, the merged callbacks, the count and the error of one call on the whole input, unless a header passes the limit (then the calls fail too) or the connection is upgraded just where a buffer ends |
| InternalAssertions.AssertionsHold | src/http/http_parser.cpp:1997-2123 | on a new connection of any role, after any input in any buffers, the assertions of the state reached hold |
| InternalAssertions.AssertsInside | src/http/http_parser.cpp:1945-2123 | the same before every byte inside a call |
| MethodMatcher.ReadingIsPrefix | src/http/http_parser.cpp:972-1023 | while a method is read, the bytes read are the first letters of the current guess, and the index stays inside its name |
| MethodMatcher.NameIsRead | src/http/http_parser.cpp:928-1023 | every prefix of each of the 34 names is read |
| MethodMatcher.MethodExactness | src/http/http_parser.cpp:928-1023 | a byte string followed by a space is accepted as a method exactly when it is one of the 34 names, and that method is recorded |
| Lengths.ChunkSizeValue | src/http/http_parser.cpp:1997-2048 | hex digits of any length are accepted with their exact value exactly up to 2^64-17, and rejected above |
| Lengths.ContentLengthValue | src/http/http_parser.cpp:1543-1571 | decimal digits of any length are accepted with their exact value exactly up to 18446744073709551609, and rejected above |
| Chunked.ChunkedRoundTrip | src/http/http_parser.cpp:1997-2117 | for every list of non-empty chunks with any extensions, the callbacks are the chunks in order, and the message completes at the last byte of the text and not before |
| Chunked.ChunkedInAnyBuffers | src/http/http_parser.cpp:1997-2117 | the same body, once completed, however the text is cut into buffers |
| Framing.RequestsAreFramed | src/http/http_parser.cpp:1796-1943 | a request is never read to the end of the connection; a chunked body means Transfer-Encoding and no Content-Length, an identity body Content-Length and no Transfer-Encoding |
| Framing.BodyConservation | src/http/http_parser.cpp:1927-1979 | bytes delivered plus bytes still expected stay equal to the Content-Length over any buffers, and completion comes with the last byte and not before |
| BodyFraming.LengthFramesBody | src/http/http_parser.cpp:1543-1995 | from the header block on, in any buffers: with one length line among ordinary lines, the body bytes delivered are those sent, the bytes still expected are what is missing to the number the digits denote, and the message completes exactly when nothing is missing |
| HeaderNames.NameExactly | src/http/http_parser.cpp:1257-1360 | each name that is looked for is recognised exactly when the field name is that name in some case; `uses_transfer_encoding` is set exactly when the name starts with `transfer-encoding` |
| Deviations.PrefixIsRefused | src/http/http_parser.h:197 | every request with one header whose name has `transfer-encoding` as a proper prefix is refused with an invalid transfer encoding, after its headers have been called back |
| HeaderTokens.ValueSaysMore | src/http/http_parser.cpp:1575-1692 | after each value byte the header state says which element of the value has been read so far |
| HeaderTokens.ByteTold | src/http/http_parser.cpp:1207-1805 | every byte keeps flags, header state and the reported headers consistent, folding included |
| HeaderTokens.FlagsAreBacked | src/http/http_parser.cpp:1409-1751 | in any buffers, the chunked flag means a Transfer-Encoding value of this message whose last element is `chunked`; the connection flags mean a Connection or Proxy-Connection value with their element |
| HeaderElements.ChunkedExactly | src/http/http_parser.cpp:1579-1676 | a Transfer-Encoding line sets the chunked flag exactly when `chunked` and spaces end its value at a place where an element is looked for: the start, or after the comma that ends an element so looked for which starts with a token character and is neither a beginning of `chunked` nor that word |
| HeaderElements.ConnectionExactly | src/http/http_parser.cpp:1615-1692 | a Connection or Proxy-Connection line sets each of its three flags exactly when the word, with spaces up to a comma or the end, stands at such a place |
| Deviations.AfterComma | src/http/http_parser.cpp:1598-1613 | after any first element and a comma a last `chunked` is recognised exactly when the first element is neither a beginning of `chunked` nor that word |
| Deviations.AfterTwoCommas | src/http/http_parser.cpp:1580-1596 | with two commas between them, exactly when the first element is a beginning of `chunked` or that word |
| Deviations.AfterTab | src/http/http_parser.cpp:1580-1596 | after a comma and a tab, never |
| HttpRequests.InsertLookup | src/http/http.h:47 | assignment in a case-insensitive map keeps the order, gives the key its value and every other key its old one |
| HttpRequests.HttpRequest.AddHeader | src/http/http.cpp:75-77 | the same for the object |
| HttpRequests.HttpRequest.ToString | src/http/http.cpp:94-124 | the text is the request line, the connection line, the other headers in order, the length line if one is due, an empty line and the body |
| HttpRequests.HttpRequest.Handle | src/http/http11_parser.cpp:9-54 | each callback changes the field it is for and keeps the header map in order |
| RequestParsers.HttpRequestParser.constructor | src/http/http11_parser.cpp:56-71 | a new request parser waits for a request and is not finished |
| RequestParsers.HttpRequestParser.Execute | src/http/http11_parser.cpp:79-87 | the request is always what the callbacks so far make of a fresh one, after a failing call too, and finished exactly when a message has completed; count, error and callbacks are those of the report of the call |
| HeaderLineRuns.OrdinaryLine | src/http/http_parser.cpp:1207-1751 | a header line that the parser does not interpret changes only the byte count and is reported name and value as written |
| HeaderLineRuns.ConnectionRead | src/http/http_parser.cpp:1409-1751 | the printed connection line sets exactly its flag |
| HeaderLineRuns.LengthRead | src/http/http_parser.cpp:1437-1571 | a length line, its name in any case, sets the length to the number its digits denote and is called back as written |
| RoundTrip.PlainPathOk | src/http/http_parser.cpp:507-587 | every path of legal URL characters that starts with a slash is read |
| RoundTrip.PrintedIsParsed | src/http/http.cpp:94-124 | one call on the printed request recovers method, path, version, keep-alive, body and every header, completes one message, and leaves the connection open exactly when keep-alive was asked for |
| RoundTrip.QueryIsRejected | src/http/http.cpp:96-104 | a request with query or fragment prints a text that is rejected with an invalid constant |
| RoundTrip.NameIsRejected | src/http/http.cpp:15-26 | a request without a method, and M-SEARCH, print a name that is rejected |
| RoundTrip.RoundTripExactly | src/http/http11_parser.cpp:9-87 | a printable request survives printing and parsing exactly when its method has its name on the wire and it has neither query nor fragment |
| WireTrips.PrintAndParse | src/http/http11_parser.cpp:56-87 | writing a request and giving the text to a new parser in one call succeeds with the request recovered exactly under that condition; then the whole text is counted and the message is finished |
| UrlParser.NeverUnexpected | src/http/http_parser.cpp:2443-2483 | the branch for an unexpected state is dead |
| UrlParser.HostInBuffer | src/http/http_parser.cpp:2336-2416 | for buffers of any length no field passes the end of the buffer |
| UrlParser.PortValue | src/http/http_parser.cpp:2516-2541 | the port loop yields the decimal value of its digits, and rejects it exactly above 65535 |
| UrlParser.FieldSafety | src/http/http_parser.cpp:2423-2544 | an accepted URL of at most 65535 bytes has non-empty fields inside the buffer, apart and in order, a host with every schema, an exact port, and host and port only for CONNECT |
| UrlParser.UrlFields.ParseHost | src/http/http_parser.cpp:2336-2416 | the host loop computes the narrowed fields, or fails exactly when the specification does |
| UrlParser.UrlFields.ParsePort | src/http/http_parser.cpp:2516-2541 | the same for the port loop |
| UrlParser.UrlFields.ScanFields | src/http/http_parser.cpp:2440-2496 | the same for the field loop |
| UrlParser.UrlFields.Parse | src/http/http_parser.cpp:2423-2544 | the whole function computes the specified fields and port, and accepted fields are safe |
| UrlRoundTrips.UrlRoundTrip | src/http/http_parser.cpp:2423-2544 | for all legal components, optional ones and IPv6 literals with zones included, and texts of any length: the composed text is accepted with exactly their positions, lengths and port, if and only if each of these positions and lengths is below 65536 |
| UrlRoundTrips.LengthWraps | src/http/http_parser.h:263-271 | what a longer path gets instead: its length modulo 65536 |
| EventTables.GrowthKeeps | src/iomanager/IOManager.cpp:75-91 | growth keeps every entry, adds empty ones and puts the descriptor in range |
| EventTables.AddEventKeeps | src/iomanager/IOManager.cpp:86-118 | the kernel accepts the operation chosen, the waiter is recorded, and table and epoll set stay matched |
| EventTables.CancelEventKeeps | src/iomanager/IOManager.cpp:120-139 | cancelling keeps table and epoll set matched |
| EventTables.DelEventKeeps | src/iomanager/IOManager.cpp:141-160 | deleting keeps them matched |
| EventTables.HandleEventSays | src/iomanager/IOManager.cpp:207-246 | a report wakes exactly the waiters of the ready directions, the others keep waiting and stay watched; stale reports change nothing |
| IoManagers.IoManager.CtxResize | src/iomanager/IOManager.cpp:75-84 | the loop computes the resized table |
| IoManagers.IoManager.TriggerEvent | src/iomanager/IOManager.cpp:19-34 | the bit is cleared, the slot emptied and its occupant appended to the queue |
| IoManagers.IoManager.AddEvent | src/iomanager/IOManager.cpp:86-118 | the method does the specified operation and keeps the table invariant |
| IoManagers.IoManager.CancelEvent | src/iomanager/IOManager.cpp:120-139 | the same |
| IoManagers.IoManager.DelEvent | src/iomanager/IOManager.cpp:141-160 | the same |
| IoManagers.IoManager.HandleEvent | src/iomanager/IOManager.cpp:207-246 | the same for one reported event, with the new table and queue |
| IoManagers.Scheduler.PickTask | src/scheduler/scheduler.cpp:72-93 | the search takes the first eligible task and raises the busy count, or leaves all as it is; others are woken up exactly when tasks remain |
| WakeTokens.ResumeFiberKeeps | src/fiber/fiber.cpp:89-96 | resuming a picked fiber uses up its wake-up |
| WakeTokens.QuitKeeps | src/fiber/fiber.cpp:98-123 | a yield after a registration, and the end of a fiber, keep every fiber's debt of wake-ups |
| WakeTokens.RegisterKeeps | src/hook/hook.cpp:61-91 | hooked I/O puts the wake-up of its own fiber into the slot |
| WakeTokens.SleepKeeps | src/hook/hook.cpp:101-107 | `sleep` puts it into a timer |
| WakeTokens.StepKeeps | src/scheduler/scheduler.cpp:65-121 | every step of any worker or fiber keeps the invariant of the whole system |
| WakeTokens.EveryRun | src/scheduler/scheduler.cpp:65-121 | in every reachable world a parked fiber has exactly one pending wake-up, an executing fiber at most one and a worker that runs it, a finished fiber none, and no other fiber runs anywhere |
| WakeTokens.NeverTwice | src/fiber/fiber.cpp:89-111 | no fiber executes on two workers |
| WakeTokens.NothingLost | src/scheduler/scheduler.h:62-73 | accepted tasks are queued, in flight or finished, once each; the busy count is the number in flight; the epoll set matches the event table |
| Pinning.PinnedRunAtHome | src/scheduler/scheduler.cpp:77-91 | in every run a task pinned to a worker is held and run by that worker only, and no queued task waits for a worker outside the pool |
| WakeTokens.EarlyWakeWaits | src/scheduler/scheduler.cpp:82-84 | a wake-up between registration and yield is skipped by every worker while the fiber executes and eligible once it has yielded |
| WakeTokens.ReportWakes | src/iomanager/IOManager.cpp:216-245 | a report schedules the fiber that waits for its direction |
| WakeTokens.CloseExactly | src/iomanager/IOManager.cpp:141-160 | closing a descriptor keeps the invariant exactly when no fiber waits on it |
| WakeTokens.RegisterExactly | src/iomanager/IOManager.cpp:92-95 | registering keeps the invariant exactly when the slot is free |
| Timers.TimerManager.AddTimer | src/timer/timer.cpp:34-43 | the timer goes to the end of the slot that its ticks select |
| Timers.TimerManager.DelTimer | src/timer/timer.cpp:45-49 | the timer leaves the slot it names |
| Timers.TimerManager.DrainSlot | src/timer/timer.cpp:54-68 | the first loop ends, empties the slot and fires all its timers in order, whatever their rounds |
| Timers.TimerManager.Tick | src/timer/timer.cpp:51-84 | a tick is effective when a tick time has passed, and then fires the current slot, puts recurring timers back and moves on; otherwise it does nothing |
| TimerRuns.WheelIsCountdown | src/timer/timer.cpp:34-84 | every run of a new wheel fires what a plain list of countdowns, empty at first, fires, in the same ticks and order, recurring timers included |
| TimerRuns.OneShotFires | src/timer/timer.cpp:34-84 | a one-shot timer that is not deleted fires exactly once, in tick (timing / tick time) mod slots counted from zero |
| TimerRuns.DeadlineExactly | src/timer/timer.cpp:57-68 | that is its plain deadline exactly when it fits into one turn |
| TimerRuns.DeletedNeverFires | src/timer/timer.cpp:45-49 | a pending one-shot timer that is deleted never fires |
| TimerRuns.NoSooner | src/timer/timer.cpp:51-84 | with a clock that never goes back, a timer that fits into one turn fires no sooner than its whole ticks after it was added |

## Left out

- Pausing, handlers that return an error or ask to skip the body, and the lenient and non-strict builds.
- Sockets, `epoll_wait`, `eventfd`, `dlsym`, `ucontext`, `pthread` and `gettimeofday`: reports, clock readings and context switches are arbitrary steps or parameters, and the kernel is an interest list that refuses impossible operations.
- Races inside one operation, such as the window between `epoll_ctl` and the slot assignment in `addEvent`, or between `HOLD` and `swapcontext` in `yield`: each operation is one step.
- `Event` objects are entries of a sequence that the methods reassign, so aliasing of `Event*` is not captured; the same holds for timers, whose addresses are numbers.
- The one-byte cases of the parser's switch are functions on the record that the class applies; the loops, marks and counters are methods.
- A task pinned to a worker number equal to the pool size, and deletion of a recurring timer after its first firing.
- `stopping`, `mTimerCnt` and shutdown.
- The fixed-size C buffers of `method_strings` and the character tables: they are functions.
- Responses at object level, header lookups with defaults, parameters and cookies, status names: easy members.
- HttpParsers.HttpParser.Execute: does not give the record after a call that fails; the next call returns at once and only its error can be asked for.
- HeaderElements.ChunkedExactly: is about a value on one line; after a fold the machine goes on only if it was between two elements.
- HeaderElements.ConnectionExactly: the same.
- WakeTokens.EveryRun: says nothing about how soon a pending wake-up is served; fairness of the workers is not modelled.
- RoundTrip.RoundTripExactly: says nothing about CONNECT, whose target is read by other rules and whose message ends with its headers.
- The order of the calls inside `io_func` and its timeout result: the timer, the registration, the yield and the deletion of the timer are steps that a fiber may take in any order the guards allow.
- Negative intervals of timers.
- Split buffers at object level: `setPath` overwrites, so split invariance is stated for the callbacks, not for the request object.
- Logger, addresses, sockets, TCP and HTTP server loops, servlets, configuration, descriptor manager and byte arrays.
