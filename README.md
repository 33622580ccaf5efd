# Module self-test harness and POP3 login exchange, modelled in Dafny

This project models two small parts of a penetration-testing framework.

**The module self-test harness** (`Msf::ModuleTest`, `test/lib/module_test.rb`).
A test module counts the tests it runs (`tests`), the failures (`failures`)
and the skips (`skipped`). `it(msg) { block }` runs one test block and files
it as passed (truthy result), failed (falsy result, or any exception other
than the skip signal) or skipped (the skip signal raised by `skip`). It
always clears the current test label afterwards; a skipped test, like a
passed one, then has its name printed as a good line. `run_all_tests` runs every
method whose name matches `/^test_/`, and counts a whole definition that
raises the skip signal as one skipped test. `passed` is `tests - failures`.
`PostTest#run` resets the counters, runs everything and prints
`Passed: n; Failed: n; Skipped: n`, as an error exactly when some test
failed. Seven print methods are wrapped so that, while a test runs, every
message they pass on is prefixed with `[label] `.

In `module_test.dfy` the class `Harness.ModuleTest` holds the counters, the
label and a record of every message the wrappers pass on. Its methods are
proved against pure functions on `Tally` values (`ItTally`, `StepsTally`,
`DefTally`, `RunTally`, `PostTestRun`). The harness's promises are proved
about those functions: the exact counter changes, the invariant
`failures + skipped <= tests`, the totals of a run, and a summary line that
reads back as the three counts. A test block is a value `Block(prints,
outcome)`: the prints it makes while it runs, then how it ends (`Truthy`,
`Falsy`, `Skip(reason)` or `Raise(className, message)`). A `test_*`
definition is a name, a sequence of `it`/`pending` calls and prints of its
own (made with no label set), and how it ends.
`decimal.dfy` renders integers as Ruby interpolates them.

**The POP3 login scanner's `attempt_login`**, as its tests
(`spec/lib/metasploit/framework/login_scanner/pop3_spec.rb`) assert it. A
connect that raises `Rex::ConnectionError`, `Timeout::Error` or `EOFError`
gives status `connection_error`. Otherwise the scanner reads a greeting. Only
while the replies are positive, it writes `USER <public>\r\n`, reads,
writes `PASS <private>\r\n` and reads again. The status is `success` when all
three replies were positive and `failed` otherwise, and the proof is the last
line read. In `pop3.dfy`, `Pop3.ScriptedSocket` is the tests' socket double:
a connect behaviour, a queue of replies (the last one repeats, as with a stub
that returns a value) and a record of what was written. `Pop3.AttemptLogin`
is proved against the pure trace function `Pop3.Exchange`. Whether a reply
is positive is the parameter `positive`; the tests fix only that `+OK` is
positive and `+ERROR` is not (`Pop3.MarkerAgrees`).

## Model

| member | source | states |
|---|---|---|
| Harness.ModuleTest.constructor | test/lib/module_test.rb:12-17 | `initialize` sets `tests`, `failures` and `skipped` to 0; no label is set and nothing has been printed |
| Harness.ModuleTest.Passed | test/lib/module_test.rb:71-74 | `passed` plus `failures` is `tests`; under the counter invariant it is at least `skipped`, so skipped tests count as passed |
| Harness.PassedOf | test/lib/module_test.rb:71-74 | the same on a tally: `passed + failures == tests`, and `passed >= skipped >= 0` whenever `failures + skipped <= tests` |
| Harness.SkipSignal | test/lib/module_test.rb:33-35 | `skip(msg)` raises the skip signal with reason `msg`, or `No reason given` when no message is given |
| Harness.Prefixed | test/lib/module_test.rb:86-90 | a wrapper passes `msg` unchanged when no label is set; with a label `l` the message grows by the `[`, `l` and `] ` in front of it |
| Harness.PrefixedShape | test/lib/module_test.rb:86-90 | a wrapper passes `msg` unchanged when no label is set; with label `l` it passes `[`, `l`, `] ` and then `msg` intact |
| Harness.ModuleTest.PrintVia | test/lib/module_test.rb:76-90 | each wrapped print appends exactly one message, through the same printer, with the current label's prefix |
| Harness.Closing | test/lib/module_test.rb:42-64 | the lines `it` prints after its block has ended: there is at least one; the last is `print_good(msg)` if and only if the block was truthy or skipped; no line goes to `print_error` if and only if the block was truthy or skipped |
| Harness.IntendedClosing | test/lib/module_test.rb:49-64 | the closing lines with the skip rescue returning (see Findings): a test is reported good if and only if its block was truthy; on every other outcome the lines are `Closing`'s |
| Harness.ItTally | test/lib/module_test.rb:37-65 | `it` adds exactly one test whatever the block does; one failure if and only if the block is falsy or raises something other than the skip signal; one skip if and only if it raises the skip signal; keeps `failures + skipped <= tests`; only appends to the output |
| Harness.ModuleTest.It | test/lib/module_test.rb:37-65 | the method's new state is `ItTally` of the old one: the block's prints carry `[msg] `, the outcome is counted and reported by the `Closing` lines (a skip by its skip line and then `print_good(msg)`), and the label is `nil` on return by every path |
| Harness.ModuleTest.FileOutcome | test/lib/module_test.rb:42-64 | the rescue, ensure and final clauses of `it`: the counter changes match the outcome and the lines printed are `Closing`'s, so the `error` line of a falsy block and both lines of an exception carry the label, while the `FAILED: msg` line of a falsy block, the skip line and the good line do not; the label ends `nil` |
| Harness.SkippedTestReport | test/lib/module_test.rb:33-64 | a block that calls `skip` adds one test and one skip and no failure; after its own prints come `SKIPPED: msg (reason)`, with `No reason given` when `skip` had no argument, and then `msg` as a good line |
| Harness.PendingTally | test/lib/module_test.rb:67-69 | `pending` changes no counter and prints one `PENDING: msg` status line |
| Harness.ModuleTest.Pending | test/lib/module_test.rb:67-69 | the method's new state is `PendingTally` of the old one; the invariant is kept |
| Harness.StepsTally | test/lib/module_test.rb:37-69 | a sequence of `it`/`pending` calls and unlabelled prints adds one test per `it`, one failure per failing `it`, one skip per skipping `it`; keeps the invariant; only appends to the output |
| Harness.DefTally | test/lib/module_test.rb:21-29 | a `test_*` definition adds its `it` counts; a definition that raises the skip signal itself adds one test and one skip more; any other exception escapes, so the run does not complete |
| Harness.WholeDefSkip | test/lib/module_test.rb:24-28 | a definition that skips as a whole adds one test and one skip, no failure, and prints `SKIPPED: def name (reason)` |
| Harness.ModuleTest.RunDef | test/lib/module_test.rb:21-29 | running one definition changes the state as `DefTally` says, and reports whether an exception escaped |
| Harness.IsTestName | test/lib/module_test.rb:20 | a matching name has at least the five characters of `test_`, and either begins with `test_` or holds a line break (where `^` also matches) |
| Harness.SelectTests | test/lib/module_test.rb:20 | selection never adds a definition; which ones it keeps and in what order is stated by the two lemmas below |
| Harness.SelectTestsExact | test/lib/module_test.rb:20 | a definition is selected if and only if its name matches `/^test_/` (a line of the name starts with `test_`) |
| Harness.SelectTestsAppend | test/lib/module_test.rb:20-21 | selection keeps the given order: selecting from `a + b` is selecting from `a`, then from `b` |
| Harness.TestNameSelected | test/lib/module_test.rb:20 | a name that begins with `test_` matches |
| Harness.OthersNotSelected | test/lib/module_test.rb:20 | definitions none of whose names match are not run at all |
| Harness.RunTally | test/lib/module_test.rb:19-31 | the run completes if and only if no selected definition raises an escaping exception; then the counters grow by exactly the definitions' totals; the counters never decrease; the invariant is kept; output is only appended |
| Harness.ModuleTest.RunAllTests | test/lib/module_test.rb:19-31 | the method's new state and its completion flag are `RunTally` over the selected definitions; the invariant is kept |
| Harness.Summary | test/lib/module_test.rb:108 | the summary line begins with `Passed: ` and is at least as long as its three labels together plus three characters; its contents are pinned down by `Harness.SummaryRoundTrip` and `Decimal.Render` |
| Harness.SummaryRoundTrip | test/lib/module_test.rb:108 | the summary line reads back as exactly the three counts it was built from |
| Decimal.Render | test/lib/module_test.rb:108 | an interpolated count is a non-empty string of decimal digits, which begins with `0` only for the count 0 |
| Decimal.ValueOfRender | test/lib/module_test.rb:108 | an interpolated count is the decimal numeral of that count |
| Decimal.ReadRendered | test/lib/module_test.rb:108 | a numeral followed by a non-digit reads back as its value and leaves the rest |
| Harness.Report | test/lib/module_test.rb:108-113 | the summary line goes to `print_error` if and only if some test failed, and to `print_status` otherwise |
| Harness.PostTestRun | test/lib/module_test.rb:95-114 | with counters reset to 0 before running, a completed run ends with `tests`, `failures` and `skipped` equal to the selected definitions' totals, and its last message is the summary line of those totals |
| Harness.ModuleTest.PrintSummary | test/lib/module_test.rb:108-113 | appends exactly the report of the current counts; nothing else changes |
| Harness.ModuleTest.Run | test/lib/module_test.rb:95-114 | `PostTest#run`: the method's new state and completion flag are `PostTestRun` of the output so far |
| Pop3.PubBlank | spec/lib/metasploit/framework/login_scanner/pop3_spec.rb:12-18 | the tests' credential has public part `public`, an empty private part, and is paired |
| Pop3.FailureStatus | spec/lib/metasploit/framework/login_scanner/pop3_spec.rb:19-43 | every connect failure kind maps to `connection_error` |
| Pop3.ConnectFailuresAreConnectionErrors | spec/lib/metasploit/framework/login_scanner/pop3_spec.rb:19-43 | a connect raising `Rex::ConnectionError`, `Timeout::Error` or `EOFError` yields a result with status `connection_error`, no proof, no read and no write |
| Pop3.Exchange | spec/lib/metasploit/framework/login_scanner/pop3_spec.rb:45-78 | at most three reads and two writes; the writes are `USER <public>\r\n` then `PASS <private>\r\n`, each only after a positive reply; the exchange stops before three reads only at a reply that is not positive; after a connect the status is never `connection_error` and the proof is the last line read; no write follows a non-positive greeting; `success` if and only if the connect worked and all three replies were positive |
| Pop3.AllPositiveLogsIn | spec/lib/metasploit/framework/login_scanner/pop3_spec.rb:56-66 | for any credential, three positive replies give three reads, the writes `USER <public>\r\n` then `PASS <private>\r\n`, status `success` and the third reply as proof |
| Pop3.AttemptLogin | spec/lib/metasploit/framework/login_scanner/pop3_spec.rb:19-78 | always returns a result, never raises; connects exactly once; its result, the lines it writes and the number of reads are those of `Exchange` on the socket's behaviour and queued replies; the queue left afterwards is the old one moved on by that number of reads |
| Pop3.ScriptedSocket.constructor | spec/lib/metasploit/framework/login_scanner/pop3_spec.rb:46-54 | the socket double starts with its connect behaviour, its queued replies, and nothing read or written |
| Pop3.ScriptedSocket.Connect | spec/lib/metasploit/framework/login_scanner/pop3_spec.rb:21-51 | a connect is counted, and raises the configured failure or succeeds |
| Pop3.ScriptedSocket.GetOnce | spec/lib/metasploit/framework/login_scanner/pop3_spec.rb:57-69 | a read returns the next queued reply, and the last reply again once the queue is down to one |
| Pop3.Advance | spec/lib/metasploit/framework/login_scanner/pop3_spec.rb:57-69 | after one read, the k-th reply is what was the (k+1)-th |
| Pop3.AdvanceN | spec/lib/metasploit/framework/login_scanner/pop3_spec.rb:57-69 | after `n` reads, the k-th reply is what was the (k+n)-th |
| Pop3.ScriptedSocket.Put | spec/lib/metasploit/framework/login_scanner/pop3_spec.rb:58-59 | a write appends exactly that line to the record of writes |
| Pop3.EmptyPrivatePassLine | spec/lib/metasploit/framework/login_scanner/pop3_spec.rb:56-59 | an empty private part still gives a PASS line with its space: `PASS \r\n` |
| Pop3.ServerReturnsOk | spec/lib/metasploit/framework/login_scanner/pop3_spec.rb:56-66 | when every read returns `+OK`: exactly three reads, writes `USER public\r\n` then `PASS \r\n`, status `success` |
| Pop3.ServerReturnsSomethingElse | spec/lib/metasploit/framework/login_scanner/pop3_spec.rb:68-77 | when the server returns `+ERROR`: status `failed`, proof exactly `+ERROR`, and nothing written |

## Left out

- The console back-ends behind the print wrappers (`super`), `dlog` and exception backtraces: the model records what each wrapper passes on, not how it is shown.
- `Rex::Stopwatch` timing and the `Testing complete in ... seconds` verbose line: floating-point timing.
- The two opening `print_status` lines of `PostTest#run`, which read the session and the datastore: framework state outside this model.
- Ruby reflection in `run_all_tests` (`self.methods.select`, `send`): the test definitions are a given sequence of named definitions, in the order the method list would give.
- A test block is reduced to the prints it makes and how it ends; other side effects of the block, a nested `it` inside a block (the class invariant requires no label at the start of `it`) and writes to the counters through the attribute accessors are not modelled.
- The `error` method of the host module, printed by a falsy test, is a constant of the object.
- An exception other than the skip signal escaping a `test_*` definition ends the run (`completed` is false) and no summary is printed; the exception itself is not carried further.
- `pop3.rb` is not part of this model. The tests pin down only the connect failures, a server that answers `+OK` to every read and one that answers `+ERROR` to every read. Beyond those cases, `Pop3.Exchange` follows the USER/PASS order of RFC 1939 (section 7, "Optional POP3 Commands"): a reply to USER that is not positive stops before PASS, and a third reply that is not positive gives `failed` with that line as proof. The tests do not pin these cases down.
- The exact positive-marker rule of the POP3 scanner: it is the parameter `positive`, constrained only by `+OK` being positive and `+ERROR` not.
- Read or write failures in the middle of the POP3 exchange, a `get_once` that returns `nil`, and the teardown calls (`shutdown`, `close`), which the tests stub but do not assert.
- The proof of a `connection_error` result is modelled as absent; the tests do not assert it.
- The Result's other fields (host, port, service name) and the shared example groups (`it_behaves_like`), whose bodies are not shown.
- The RSpec mocking machinery: replaced by `Pop3.ScriptedSocket`, whose queued replies behave like a stub that keeps returning its last value.

## Findings

| source | as written | input that shows it | evidently intended | confidence | as-written member | corrected member |
|---|---|---|---|---|---|---|
| test/lib/module_test.rb:49-64 | the skip rescue has no `return`, so after the ensure clause clears the label `it` goes on to `print_good(msg)`; a skipped test is reported both as skipped and as good | `it("x") { skip("r") }` prints `SKIPPED: x (r)` and then `x` as a good line | a skipped test is reported by its skip line alone, as the exception rescue returns after its own report | not executed; medium | Harness.Closing | Harness.IntendedClosing |

The model follows the code as written: `Harness.ItTally` and `Harness.ModuleTest.It` use `Harness.Closing`, whose contract shows that the last line of a skipped test is `print_good(msg)`. `Harness.IntendedClosing` is the same report with the skip rescue returning. Its contract states that a test is reported good if and only if its block was truthy, and that it agrees with `Closing` on every other outcome.
