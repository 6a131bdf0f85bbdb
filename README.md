# TwitterMonitor routines, in Dafny

TwitterMonitor runs a list of *routines*: small checks that report what they
find as direct messages to every follower of a social-network account. This
project models the core of the library and proves what it promises.

- **Core** (`twitter_monitor/core.py`) has four parts.
  - The `Notifier` sends a non-blank message to every follower. It fetches
    the follower list once and caches it.
  - The `Routine` decides whether to skip or run:
    - it skips when an interval is set and less than that interval has passed
      since its last execution;
    - otherwise it calls the `_execute` hook;
    - after a successful run it records the current time in a key-value store,
      keyed by the routine's uid.
  - The `Executor` builds the routine instances once. It runs them in order:
    - a `False` result fails the batch, but the next routine still runs;
    - an exception ends the batch, closes the store if it can be closed, and
      fails the batch.
  - Timestamps are written with `datetime.isoformat(" ")` and read back with
    `strptime(value, "%Y-%m-%d %H:%M:%S.%f")`.
- **`slugfy`** (`twitter_monitor/util.py`, Python 2) turns a name into a slug.
- **The draft** (`draft.py`, Python 2) is the first sketch of the same design.
  - Its `notifier` and `routine` take only byte strings (`str`).
  - Its `runner` builds each routine once and runs it. There is no schedule
    and no store, and an exception leaves the runner.

Each mutable object is a class whose methods are proved against a pure
function:
- `Core.RunRoutine` for one routine run;
- `Core.RunBatch` for one `Executor.run`;
- `Draft.RunAll` for one `runner.run`.

Lemmas about those functions state the library's promises. Parts of the
outside world become parameters or simple stand-ins:
- the `_execute` hook and a draft routine's `run` become a script: the notes
  it sends, then return or raise;
- the clock becomes a `now` argument;
- the Twitter client becomes `Transport.Api`, a follower list plus a log of
  the direct messages sent.

The writer and the reader of the stored timestamp do not agree at a whole
second:
- `_set_last_execution` writes `isoformat(" ")` (`core.py:312`), which leaves
  out `.ffffff` when the microsecond is zero;
- `last_execution` reads with `"%Y-%m-%d %H:%M:%S.%f"` (`core.py:304`), so
  such a stamp does not parse and the routine reads as never run.

The model follows the code: `Timestamps.WholeSecondStampFails` and
`Core.WholeSecondSuccessForgotten` state the consequence.

## Model

| member | source | states |
|---|---|---|
| Text.Strip | twitter_monitor/core.py:198 | `strip()` drops exactly the leading and trailing whitespace: what remains is a middle slice of the input that begins and ends with a non-space, and everything before and after it is whitespace |
| Text.StripsToNothing | twitter_monitor/core.py:198 | a message is blank (`len(message.strip()) == 0`) exactly when every character is whitespace |
| Text.AsciiIgnore | twitter_monitor/core.py:330 | `encode("ascii", errors="ignore")` keeps only ASCII characters and leaves an all-ASCII string unchanged |
| Text.LeadingRunIs | twitter_monitor/core.py:304 | the run of matching characters a pattern consumes has the length of the matching prefix |
| Timestamps.Micros | twitter_monitor/core.py:266 | the instant in microseconds used for `now - last_execution` lies within its calendar day and keeps the microsecond field |
| Timestamps.IsoFormat | twitter_monitor/core.py:312 | `isoformat(" ")` writes 26 characters, or 19 when the microsecond is zero |
| Timestamps.ParseStamp | twitter_monitor/core.py:304 | whatever `strptime` accepts is a valid `datetime` |
| Timestamps.DecimalOfPad | twitter_monitor/core.py:312 | a zero-padded field reads back as the number written |
| Timestamps.StampRoundTrip | twitter_monitor/core.py:301-318 | a timestamp written with a non-zero microsecond is read back as the same instant |
| Timestamps.WholeSecondStampFails | twitter_monitor/core.py:301-318 | a timestamp written at a whole second never parses |
| Transport.Broadcast | twitter_monitor/core.py:203-207 | one sweep over the followers sends each of them the text, in follower order |
| Transport.Api.Followers | twitter_monitor/core.py:211 | `followers()` answers the follower list and counts the fetch |
| Transport.Api.SendDirectMessage | twitter_monitor/core.py:207 | each call appends exactly one direct message to the log |
| Core.Deliveries | twitter_monitor/core.py:186-207 | `send` delivers nothing for a blank message, otherwise the unchanged text to every follower |
| Core.NotifyText | twitter_monitor/core.py:334-349 | `notify` drops exactly the blank messages; what it passes on is the short name, ": " and the message, which is never blank |
| Core.NotifyDeliveries | twitter_monitor/core.py:334-349 | one `notify` sends nothing for a blank message, otherwise the prefixed text to every follower |
| Core.Notifications | twitter_monitor/core.py:334-349 | notifying a list of messages sends `followers × non-blank messages` direct messages |
| Core.DefaultName | twitter_monitor/core.py:235-243 | `name` and `short_name` fall back on the class name when unset |
| Core.ViewOf | twitter_monitor/core.py:235-243 | an instance's short name falls back on the class name, its uid is ASCII only (with both names unset it is built from the class name three times), and its interval is the class's |
| Core.UidSource | twitter_monitor/core.py:320-332 | the uid is built from ASCII characters only |
| Core.AsciiIgnoreAppend | twitter_monitor/core.py:330 | the ASCII filter works piece by piece over a concatenation |
| Core.UidIgnoresNonAscii | twitter_monitor/core.py:326-332 | names that differ only in non-ASCII characters give the same uid, so they share one last-execution entry |
| Core.LastExecutionIn | twitter_monitor/core.py:293-309 | `last_execution` is a valid datetime only when the uid is stored and its value parses |
| Core.SkipExecution | twitter_monitor/core.py:260-273 | a run is skipped only when an interval and a last execution are both known, and always when the clock went backwards |
| Core.RunRoutine | twitter_monitor/core.py:245-258 | a skip returns True and changes nothing; otherwise the hook's notes are sent and its result returned; a hook that runs and returns True records `isoformat(" ")` of now under the uid, and only then is the store changed; no other uid is touched |
| Core.SuccessRecordsNow | twitter_monitor/core.py:254-256 | after a successful run at an instant with a non-zero microsecond, `last_execution` reads that instant |
| Core.WholeSecondSuccessForgotten | twitter_monitor/core.py:245-258 | a hook that runs and succeeds at a whole second leaves a stamp `last_execution` cannot parse: the routine then reads as never run |
| Core.RunThenSkip | twitter_monitor/core.py:260-273 | a run less than the interval after a success is skipped: True, nothing sent, store unchanged |
| Core.RunAfterIntervalExecutes | twitter_monitor/core.py:260-273 | a run at least the interval after a success is not skipped: the hook's notes are sent and its result returned |
| Core.ClearedRoutineRuns | twitter_monitor/core.py:286-291 | after `clear_last_execution` there is no last execution and the next run executes the hook |
| Core.Step | twitter_monitor/core.py:136-152 | one pass of the loop only appends to the messages sent and the outcomes (at most one outcome), never drops a store key, never reopens the store, and a fault stays a fault |
| Core.RunBatch | twitter_monitor/core.py:127-154 | `run()` only appends to the messages sent and the outcomes, records at most one outcome per routine, never drops a store key and never reopens the store |
| Core.RunBatchSnoc | twitter_monitor/core.py:136-145 | the batch over one more routine is one more step after the shorter batch |
| Core.StepUnfold | twitter_monitor/core.py:136-152 | a step before any fault records the routine's store, messages and outcome, faults exactly on a raise, and closes a closable store on a raise |
| Core.StepOutcome | twitter_monitor/core.py:136-152 | a step after a fault changes nothing; otherwise it adds one outcome, which is the hook's or a skip's True |
| Core.BatchLength | twitter_monitor/core.py:135-152 | without a fault every routine has an outcome; never more outcomes than routines |
| Core.FaultLastExtend | twitter_monitor/core.py:146-152 | appending one outcome to a fault-free list keeps any fault in last place |
| Core.BatchFaultLast | twitter_monitor/core.py:135-152 | a fault is the last outcome recorded and no other outcome is a fault |
| Core.BatchSuccess | twitter_monitor/core.py:127-154 | `run()` returns True exactly when no fault escaped and every routine that ran returned True |
| Core.SuccessStep | twitter_monitor/core.py:139-152 | one step keeps "success exactly when nothing faulted and every result is True" |
| Core.FromHooksExtend | twitter_monitor/core.py:139 | an outcome that is the hook's or a skip's extends a list of such outcomes |
| Core.BatchResultsFromHooks | twitter_monitor/core.py:136-143 | every recorded outcome is the matching hook's result or a skip's True |
| Core.BatchCloses | twitter_monitor/core.py:146-149 | the store ends closed exactly when it was closed already, or a fault ended the batch and the store can be closed |
| Core.FaultEndsBatch | twitter_monitor/core.py:135-152 | after a fault the remaining routines change nothing |
| Core.FailureDoesNotStopBatch | twitter_monitor/core.py:139-145 | a routine returning False does not stop the next one: it runs and records its time, and the batch fails |
| Core.KeyValueStore.constructor | twitter_monitor/core.py:121-124 | a store starts open with the given entries |
| Core.KeyValueStore.Close | twitter_monitor/core.py:147-149 | `close()` leaves the store closed |
| Core.Notifier.constructor | twitter_monitor/core.py:180-184 | a new notifier has no cached followers |
| Core.Notifier.GetFollowers | twitter_monitor/core.py:209-213 | the follower list is fetched on first use and reused after, so the API is asked at most once |
| Core.Notifier.Send | twitter_monitor/core.py:186-207 | the outbox grows by exactly `Deliveries`; a blank message neither sends nor fetches |
| Core.Notifier.DirectToEach | twitter_monitor/core.py:203-207 | the loop sends one direct message per follower, in order |
| Core.Routine.constructor | twitter_monitor/core.py:235-243 | an instance takes its names from the class, defaulting to the class name |
| Core.Routine.Run | twitter_monitor/core.py:245-258 | store, outbox and result move exactly as `RunRoutine` says |
| Core.Routine.Execute | twitter_monitor/core.py:275-284 | the hook notifies its notes in order and returns or raises as scripted |
| Core.Routine.ClearLastExecution | twitter_monitor/core.py:286-291 | the stored value becomes "" and `last_execution` becomes None |
| Core.Routine.SetLastExecution | twitter_monitor/core.py:311-318 | the uid's entry becomes the given value, or `isoformat(" ")` of now; no other entry changes |
| Core.Routine.Notify | twitter_monitor/core.py:334-349 | the outbox grows by exactly `NotifyDeliveries` |
| Core.Executor.constructor | twitter_monitor/core.py:121-125 | a new executor has no routine instances yet |
| Core.Executor.RoutinesInstances | twitter_monitor/core.py:156-170 | instances are built once, one per class and in order, then returned unchanged |
| Core.Executor.Run | twitter_monitor/core.py:127-154 | store, outbox, closed flag and returned success move exactly as `RunBatch` says; the instances are kept |
| Core.Executor.RunLoop | twitter_monitor/core.py:135-145 | the loop stops at the first fault or after the last routine, with the store and outbox of the batch so far |
| Core.Executor.BatchDone | twitter_monitor/core.py:135-152 | the loop's state at a fault or at the end is the whole batch's |
| Core.Executor.RunNext | twitter_monitor/core.py:136-145 | one pass of the loop extends the batch by one routine |
| Util.KeepSlugChars | twitter_monitor/util.py:17 | the first `re.sub` keeps only word characters, whitespace and `-`, and leaves text made of them alone |
| Util.KeepSlugCharsAppend | twitter_monitor/util.py:17 | the filter deletes in place, keeping the order of what it keeps |
| Util.LowerChar | twitter_monitor/util.py:17 | `lower()` changes only `A`..`Z`, and a word character stays one |
| Util.Lower | twitter_monitor/util.py:17 | `lower()` maps each character, keeping the length |
| Util.Collapse | twitter_monitor/util.py:18 | the last `re.sub` never lengthens the text, emits only `-` or non-separators of the input, and begins with `-` exactly when the input begins with a separator |
| Util.NonSeparatorsOfRun | twitter_monitor/util.py:18 | a run of separators contributes no word character |
| Util.CollapseKeepsWords | twitter_monitor/util.py:18 | collapsing keeps every character that is not `-` or whitespace, in order |
| Util.ConsCollapsed | twitter_monitor/util.py:18 | a collapsed text stays collapsed under one more character that is not whitespace or a second `-` |
| Util.CollapseIsCollapsed | twitter_monitor/util.py:18 | the result has no whitespace and no two `-` in a row |
| Util.CollapseOfCollapsed | twitter_monitor/util.py:18 | collapsing an already collapsed text changes nothing |
| Util.CollapseLast | twitter_monitor/util.py:18 | the result ends in `-` exactly when the input ends in a separator |
| Util.CollapseAppend | twitter_monitor/util.py:18 | text ending in a word collapses separately from what follows it |
| Util.CollapseAppendRun | twitter_monitor/util.py:18 | the same when the text begins with a separator run |
| Util.RunInPrefix | twitter_monitor/util.py:18 | a separator run that ends before a word is not extended by what follows |
| Util.RunThenWord | twitter_monitor/util.py:18 | a run of separators before a word becomes one `-` |
| Util.CollapseDashes | twitter_monitor/util.py:18 | words after runs of separators become the words, each after a single `-` |
| Util.CollapseJoin | twitter_monitor/util.py:18 | words separated by runs of separators are joined by single hyphens; a trailing run leaves one trailing `-` |
| Util.JoinEnd | twitter_monitor/util.py:18 | text made of words after separator runs ends in a non-separator |
| Util.Slugfy | twitter_monitor/util.py:7-18 | a slug is never longer than the name, uses only `a`..`z`, `0`..`9`, `_`, `-`, has no whitespace and never two `-` in a row |
| Util.LoweredChars | twitter_monitor/util.py:17 | after filter, strip and lowercase every character is a separator or a slug character |
| Util.SlugEdges | twitter_monitor/util.py:7-18 | the slug is empty exactly when the stripped text is; it begins or ends with `-` exactly when that text does, never because of whitespace |
| Util.SlugIdempotent | twitter_monitor/util.py:7-18 | `slugfy(slugfy(x)) == slugfy(x)` |
| Util.SlugIsFixed | twitter_monitor/util.py:15-18 | every stage leaves a collapsed text of slug characters unchanged |
| Util.SlugOfName | tests/test_util.py:11 | `slugfy("Alisson dos Reis Perez  ") == "alisson-dos-reis-perez"` |
| Draft.Payload | draft.py:82-91 | `send` transmits only a `str` holding a character other than ASCII whitespace; `None` and objects that are not `str` are dropped |
| Draft.SendDeliveries | draft.py:82-97 | one `send` delivers the unchanged text to every follower, in order, or nothing |
| Draft.NotifyText | draft.py:130-142 | `notify` passes on exactly what `send` would transmit, prefixed with the short name and ": ", and `send` never drops the prefixed text |
| Draft.NotifyDeliveries | draft.py:130-142 | one `notify` sends the prefixed text to every follower, or nothing |
| Draft.ScriptDeliveries | draft.py:126-142 | a routine's notes send, in order, `|followers|` direct messages for each note `send` would transmit and nothing for the others |
| Draft.ScriptStep | draft.py:126-128 | one more note extends the record of a routine's `run` by that note's messages |
| Draft.RunAll | draft.py:157-162 | `runner.run` raises exactly when some routine raises |
| Draft.RaiseIsFinal | draft.py:157-162 | once a routine has raised, the routines after it never run |
| Draft.RunStep | draft.py:158-162 | one more routine, run after none has raised, extends the runner's outcome |
| Draft.OneNote | draft.py:130-142 | a run that notifies one non-blank text broadcasts it, prefixed |
| Draft.TwoRoutines | draft.py:157-162 | two routines that do not raise send what the first sends, then what the second sends |
| Draft.SingleNoteRoutine | draft.py:157-162 | a routine whose `run` notifies one non-blank text sends it, prefixed, to every follower |
| Draft.Routine1Sends | draft.py:165-174 | `test_routine1` sends "ROT1: OK" to every follower |
| Draft.Routine2Sends | draft.py:177-186 | `test_routine2` sends "ROT2: ERRO, verificar" to every follower |
| Draft.ExampleRun | draft.py:189-199 | the script's own run of both test routines sends "ROT1: OK", then "ROT2: ERRO, verificar", to every follower, and nothing escapes |
| Draft.Notifier.constructor | draft.py:76-80 | a new notifier has no cached followers |
| Draft.Notifier.GetFollowers | draft.py:99-103 | the follower list is fetched on first use and reused after |
| Draft.Notifier.Send | draft.py:82-97 | the outbox grows by exactly `SendDeliveries`; a dropped message neither sends nor fetches |
| Draft.Notifier.DirectToEach | draft.py:93-97 | the loop sends one direct message per follower, in order |
| Draft.Routine.constructor | draft.py:117-124 | `name` and `short_name` default to the class name |
| Draft.Routine.Notify | draft.py:130-142 | the outbox grows by exactly `NotifyDeliveries` |
| Draft.Routine.Run | draft.py:126-128 | a routine's `run` sends its notes' messages in order, then returns or raises as scripted |
| Draft.Runner.constructor | draft.py:153-155 | the runner keeps the notifier and the routine classes |
| Draft.Runner.Run | draft.py:157-162 | the outbox and the escaping exception are exactly as `RunAll` says; all routines share one notifier, so followers are fetched at most once |

## Left out

- `ExecutorFactory` (`core.py:18-103`) is left out. It builds the Twitter
  client, the logger and the `dbm` store from configuration; that is
  configuration and I/O, not behaviour.
- Logging throughout, `__str__`, and the draft's `loggable` and `runner`
  logger hand-off are left out: they do not affect what is stored or sent.
- The uid is not hashed. The store is keyed by the MD5 pre-image
  (`Core.UidSource`). Two pre-images that collide under MD5 would share an
  entry in the source but not in the model.
- `Core.Notifier.Send` takes a `str`. The source's `str(message,
  errors="ignore")` for other objects is not modelled; for most objects it
  raises `TypeError`.
- `Core.Routine.Notify` takes a `str`. The source's `str(message)` coercion of
  other objects is not modelled.
- `Util.Slugfy` starts from text after `unicode(value)` and NFKD
  normalisation.
  - Unicode decomposition is not modelled, so the doc and test example
    `"  Verificação de  Fichas"` is not covered.
  - Only the ASCII filter that follows NFKD is modelled.
  - `unicode()` of a byte string holding non-ASCII bytes raises; that is not
    modelled either.
- `Util.SlugOfName` covers only the first test example. The third example
  (tabs, `--` and a quote) is not proved as a literal; the behaviours it tests
  are stated in general:
  - deleting `'` (`Util.KeepSlugChars`);
  - collapsing runs of tabs, spaces and `-` (`Util.CollapseJoin`);
  - keeping the trailing `-` (`Util.SlugEdges`).
- The clock is one `now` argument per `Routine.run` and `Executor.run`. The
  source reads it twice (`_skip_execution` and `_set_last_execution`).
- Timestamp arithmetic has no overflow. The model does not raise
  `OverflowError` for a `timedelta` beyond `datetime`'s range, or for a huge
  `interval_minutes`.
- The `\d` of `strptime` is taken as ASCII digits. Python 3 also accepts
  other Unicode decimal digits.
- Some store behaviour is not modelled:
  - the values Python 3's `dbm` returns are bytes, which `strptime` rejects;
  - a store used after `close()`;
  - the shared mutable default `{}` store.
- The `isinstance(close, collections.Callable)` test is taken to succeed
  whenever the store has a `close` (`KeyValueStore.closable`). On Python 3.10
  and later `collections.Callable` no longer exists, and the check itself
  raises inside the `except` block.
- Faults of the Twitter client (network errors, rate limits) are left out. A
  fault inside `_execute` is modelled as the hook raising (`Raised`); a fault
  inside `send` is not modelled separately.
- Python 2's `UnicodeEncodeError` paths in the draft are not modelled:
  - `Draft.Payload`: `send` first formats the message into a byte-string log
    line (`draft.py:83`), so a `unicode` message with a non-ASCII character
    raises there instead of being dropped; an ASCII-only one is dropped.
  - `Draft.RoutineClass`: a `short_name` given as a `unicode` object is not
    modelled. `"{}: {}".format` encodes it as ASCII (`draft.py:139`): an
    ASCII-only one gives the same byte string as a `str` would, and one with a
    non-ASCII character raises.
- `Core.SkipExecution`: `interval_minutes` is a whole number of minutes.
  `timedelta(minutes=...)` also accepts a fraction (0.5 is thirty seconds);
  fractional intervals are not modelled.
- `twitter_monitor/common.py` (`loggable`) and `twitter_monitor/cmd.py` (the
  command-line wrapper) are not part of this model.
