# hfyEbook core in Dafny

ebook.js reads a build spec. The spec is a list of chapters, each with a `title` and a
`src`, plus the filter chains that process them and an output stage. ebook.js then runs
one asynchronous chain of filter plug-ins per chapter. This project models three parts
of it and proves their properties:

- **The HTML helpers handed to every filter** (`charrefs.dfy`, over `text.dfy`):
  - `decode_cr` decodes one numeric character reference;
  - `decode_crs` replaces, in a loop, every `&#...;` that `/&#.*;/` finds;
  - `unescape_html` first undoes `&amp;`, then decodes, then replaces the named
    references.

  Strings are sequences of code points. `parseInt`, `substr`, `indexOf`,
  `String.fromCodePoint` and a literal `replace(/…/g)` are modelled as ECMAScript
  defines them. A `RangeError` thrown by `fromCodePoint` is an error result.
- **The setup loop and `FilterManager.get`** (`setup.dfy`):
  - each chapter is checked in spec order and numbered `'' + i`;
  - its chain is resolved id by id;
  - it is filed under its `src`, so chapters sharing a source form one group, and
    groups keep the order their sources were first seen in.

  The first failure ends the program before any chain starts. The failures are a
  non-string `title`/`src`, a missing or unknown chain name, an unsupported `filters`
  shape and an unknown filter id.
- **The execution engine** (`engine.dfy`, `runtime.dfy`):
  - `Sequence` builds a continuation chain;
  - `Finalize` is the completion barrier in front of the output stage;
  - the launch loop starts each group's leader, and the leader's terminal callback starts
    its followers.

  Filters are opaque ids. "The filter running for chain c calls its continuation" is a
  step the environment may take at any time, so a run is a sequence of such steps and
  the properties hold for every interleaving.
  - `Engine` is the state machine written as functions.
  - `Runtime.Process` is a class whose methods update `spec.loaded`, the chains and the
    trace in place. Each method is proved to do exactly what the state machine says.
  - `invariant.dfy` and `safety.dfy` hold the invariant of every reachable state and its
    preservation proof.
  - `progress.dfy` proves the other half: what is due does start. The launch loop starts
    every leader, a completed leader has started all of its followers, and firing starts
    the output. A live run where no filter is working any more has completed every chapter.
  - `properties.dfy` states what an observer of any run sees.
  - `program.dfy` connects the setup's result to the engine.

## Model

| member | source | states |
|---|---|---|
| CharRefs.FromCodePoint | ebook.js:30 | `String.fromCodePoint` on the result of `parseInt` succeeds exactly when it is a number in 0..0x10FFFF. It then yields that code point; otherwise it throws a RangeError. |
| CharRefs.DecodeCr | ebook.js:26-31 | `decode_cr` as written: hexadecimal exactly when the third character is a lower-case `x`, the digits taken with `substr(3 or 2, length - 2)`, then `parseInt` in base 16 or 10 and `String.fromCodePoint`. Its properties are the lemmas below. |
| CharRefs.DecodeCrDigits | ebook.js:28-30 | A reference is hexadecimal exactly when its third character is `x`. The digits `parseInt` reads run from the 4th (hex) or 3rd character to the end of the span. |
| CharRefs.DecodeDecimal | ebook.js:26-31 | For every code point n, `decode_cr("&#" + n + ";")` is n. |
| CharRefs.DecodeHex | ebook.js:26-31 | For every code point n, `decode_cr("&#x" + n.toString(16) + ";")` is n. |
| CharRefs.DecodeEmptyDigitsFails | ebook.js:30 | `&#;` and `&#x;` have empty digits: `parseInt` gives NaN and the decoding throws. |
| CharRefs.DecodeUpperXFails | ebook.js:28-30 | An upper-case `&#X…` is read in base 10 from the `X`, which is NaN, so it throws whatever follows. |
| CharRefs.ShortSpanFails | ebook.js:30-43 | The shortest span the loop can cut (`&#;`) never decodes. |
| CharRefs.SearchFrom | ebook.js:39 | A position `search` reports holds `&#` followed by a `;` on the same line. |
| CharRefs.SearchLeftmost | ebook.js:39 | That position is the leftmost such one, and None means the text holds no match at all. |
| CharRefs.SpanEnd | ebook.js:41 | `indexOf(';', i)` after a match is the first `;` after the `&#`, and it lies inside the text. |
| CharRefs.DecodeStep | ebook.js:41-43 | One iteration keeps the text before `i` and after the first `;` verbatim. It puts the decoded code point in between, and replaces at least 4 characters with 1. |
| CharRefs.DecodeAll | ebook.js:34-47 | The result of the loop holds no further match and is no longer than the input. |
| CharRefs.DecodeCrs | ebook.js:34-47 | The `while` loop of `decode_crs` computes `DecodeAll`: the first error, or a text with no match left. |
| CharRefs.LoopStep | ebook.js:39-44 | One turn of the loop fails with the error of `decode_cr`. Otherwise it strictly shortens `ls` and keeps what the whole loop will return. |
| CharRefs.StepAsLoop | ebook.js:41-43 | The loop body's `substr` and `indexOf` arithmetic is exactly one decoding step. |
| CharRefs.DecodeAllNoReference | ebook.js:39-46 | A text with no `&#…;` on one line is returned unchanged. |
| CharRefs.DecodeAllSingle | ebook.js:34-47 | A lone decimal or lower-case hex reference to n decodes to the one-character text n. |
| CharRefs.ReplaceAllAbsent | ebook.js:51-57 | `replace(/pat/g, …)` leaves a text in which the pattern's first character is absent as it is. |
| CharRefs.ReplaceAllKeepsOut | ebook.js:51-57 | `replace` introduces no character that is in neither the text nor the replacement. |
| CharRefs.ReplaceAllWhole | ebook.js:51-57 | The pattern on its own is replaced whole. |
| CharRefs.UnescapeHtml | ebook.js:49-58 | `unescape_html` as written: `&amp;` to `&`, then `decode_crs`, whose error is the result, then `&quot;`, `&apos;`, `&nbsp;`, `&#39;`, `&amp;#39;` and `&amp;` in that order. Its properties are the lemmas below. |
| CharRefs.UnescapeWithoutAmpersand | ebook.js:49-58 | Markup without any `&` comes back unchanged. |
| CharRefs.UnescapeReference | ebook.js:49-58 | A numeric reference to any code point, escaped once or twice (`&amp;#…`), unescapes to exactly that code point. |
| CharRefs.UnescapeSingleCodePoint | ebook.js:52-57 | Once decoding leaves one code point, none of the later replacements applies. |
| CharRefs.UnescapeQuot | ebook.js:51-52 | `&quot;` becomes `"`. |
| CharRefs.UnescapeApos | ebook.js:51-53 | `&apos;` becomes `'`. |
| CharRefs.UnescapeNbsp | ebook.js:51-54 | `&nbsp;` becomes a plain space U+0020. |
| CharRefs.UnescapeAmp | ebook.js:51-57 | `&amp;` becomes `&`. |
| CharRefs.PrePassOnReference | ebook.js:51 | The first `&amp;` pass turns a once- or twice-escaped numeric reference into the plain reference. |
| Text.DigitsValue | ebook.js:182 | `'' + n` (and `n.toString(16)`) is a non-empty numeral. It denotes n, with a leading zero only for zero. |
| Text.ParseDigits | ebook.js:30 | `parseInt` on the digits of n followed by a non-digit gives back n. |
| Text.Substr | ebook.js:43 | `substr(start, length)` is the slice when it fits, and never longer than the text. |
| Text.IndexOf | ebook.js:41 | `indexOf` is -1 when the character does not occur from `from` on. Otherwise it is the first occurrence at or after `from`. |
| Setup.FirstUnknown | ebook.js:98-109 | The first id `FilterManager.get` does not know: every id before it is known. |
| Setup.ResolveChain | ebook.js:190-211 | The resolving loop succeeds exactly when every id is in the registry. Otherwise it stops at the first unknown id. |
| Setup.ChapterOps | ebook.js:170-217 | The checks on one chapter in the program's order: a non-string `title`, then a non-string `src`; for an array `spec.filters`, the resolved array; for an object, a non-string chain name, an unknown chain name, then the resolved chain; any other `filters` shape fails. `Setup.ScheduleOk` and `Program.ExecuteFails` state what follows. |
| Setup.GroupIndex | ebook.js:219 | `chap.src in sched` finds the first group with that source. When it reports none, no group has that source. |
| Setup.Insert | ebook.js:219-222 | `sched[src].push([ops, params])` on the group found for `src`, or a new group at the end. `Setup.InsertPlaced` states what it keeps. |
| Setup.BuildSchedule | ebook.js:155-223 | The setup loop computes the schedule spec function: the first chapter's error, or the groups. |
| Setup.Schedule | ebook.js:155-223 | The setup loop's result: the chapters' verdicts filed in spec order, with each chapter's id the decimal text of its index. `Setup.ScheduleOk`, `Setup.SchedulePlaced` and `Setup.ScheduleFailsAtFirst` state its properties. |
| Setup.FilingErrorSticks | ebook.js:170-217 | After the first failing chapter, no later chapter changes the outcome. |
| Setup.ChapterFails | ebook.js:170-217 | A failing chapter is the error of the whole setup. |
| Setup.FilingOk | ebook.js:157-223 | Filing succeeds exactly when every chapter passed. |
| Setup.ScheduleOk | ebook.js:157-223 | The setup succeeds exactly when every chapter passes its checks and resolves its chain. |
| Setup.ScheduleFailsAtFirst | ebook.js:170-217 | A failed setup reports the error of the first failing chapter. Every chapter before it passed. |
| Setup.VerdictOk | ebook.js:176-217 | A chapter passes with source `src` and chain `ops` exactly when its `src` is that string and its checks yield `ops`. |
| Setup.FilingPlaced | ebook.js:182-222 | After n chapters: no group is empty, and each entry carries its chapter's chain and the id `'' + index`. Within a group chapters are in spec order; there is one group per source, the groups are in first-seen order, and every chapter is filed. |
| Setup.SchedulePlaced | ebook.js:182-222 | The same for a successful setup over the whole spec. |
| Setup.InsertPlaced | ebook.js:219-222 | Pushing a passing chapter onto its source's group, or opening a new group, keeps all of the above. |
| Setup.FiledOnce | ebook.js:219-222 | A chapter has only one entry in the schedule. |
| Engine.ChainFromRuns | ebook.js:141-145 | The chain linked from position i invokes exactly `ops[i..]` in order, then the terminal step with `cb`. |
| Engine.BuildChain | ebook.js:141-145 | The backward `for` loop of `Sequence` builds the chain that runs all of `ops` in order and then `Finalize(params); if (cb) cb();`. |
| Engine.Sequence | ebook.js:137-148 | `Sequence` as a state change: fewer than two ops throw and end the process; otherwise the chain's first op starts at stage 0, holding the rest of the chain as its continuation. `Properties.ShortChainHalts` and `Properties.LongChainStarts` state what follows. |
| Engine.Dispatch | ebook.js:119-133 | The output dispatch: a single id runs with an empty callback, or `get` exits on an unknown id; an array is resolved id by id, exiting on the first unknown one, and run through `Sequence` without `cb`; a null or missing `output` throws; any other value is only logged. `Progress.DispatchStarts` states what follows. |
| Engine.Followers | ebook.js:236-240 | The leader's `cb`: `Sequence` for the group's chapters from index 1 on, in order. `Progress.FollowersStart` states what follows. |
| Engine.CallNext | ebook.js:113-148 | The environment step "the filter running for this chain calls its continuation": the next op starts, or the terminal step runs `Finalize` and then `cb`, or a single output filter's empty callback returns. Once the process has ended, nothing happens. `Safety.CallNextPreserves` and `Progress.CallNextLaunched` state what follows. |
| Engine.LaunchGroup | ebook.js:225-242 | One pass of the launch loop: a one-chapter group's chapter runs through `Sequence` without `cb`; a larger group's leader runs with the followers' callback. `Progress.LaunchStarts` states what follows. |
| Engine.LaunchFrom | ebook.js:225-242 | The launch loop over all groups in first-seen order. `Progress.LaunchStarts` states what follows. |
| Engine.Finalize | ebook.js:113-135 | Every call adds exactly 1 to `spec.loaded` and leaves the chains alone. A call that does not reach the total changes nothing else. The call that reaches it records the firing and clears that params' `chap`; `Progress.FinalizeStarts` states that it then dispatches the output stage. |
| Safety.CallNextPreserves | ebook.js:113-240 | Whichever filter calls its continuation in whatever reachable state, the invariant of the runs is kept. |
| Safety.LaunchFromPreserves | ebook.js:225-242 | The launch loop keeps the invariant. |
| Safety.RunInv | ebook.js:113-242 | Every run, after the launch loop and any interleaving of continuation calls, satisfies the invariant. |
| Progress.SequenceStarts | ebook.js:137-148 | A `Sequence` that does not throw was given at least two ops. It leaves its chain running at stage 0 and logs exactly that op's start. Nothing else changes. |
| Progress.FollowersStart | ebook.js:236-240 | Unless one of them throws, the leader's `cb` leaves every follower from the given index on running. It touches no other chain and does not change the counter or the output. |
| Progress.DispatchStarts | ebook.js:119-133 | For a single id or an array, a dispatch that leaves the process alive leaves the output chain running. Chains and counter are untouched. |
| Progress.FinalizeStarts | ebook.js:113-135 | The `Finalize` call that reaches the total dispatches the output stage. For a single id or an array, that leaves the output running unless the process ended. A call that does not reach the total leaves the output as it was. |
| Progress.LaunchStarts | ebook.js:225-242 | Unless the process has ended, the launch loop from a group on starts every later group's leader at stage 0 and logs its first filter. It touches no follower, the counter or the output. |
| Progress.LaunchHalted | ebook.js:225-242 | Once `Sequence` has thrown, the rest of the launch loop cannot make the process live again. |
| Progress.LaunchLaunched | ebook.js:225-242 | After the launch loop, every chain that is due has started, and no follower has. |
| Progress.CallNextLaunched | ebook.js:113-242 | Whichever filter calls its continuation, every chain that is due has started afterwards while the process lives. Every leader has. So has every follower of a completed leader, and the output once the counter reached a non-zero total. |
| Progress.RunLaunched | ebook.js:113-242 | The same holds in every state of every run. |
| Progress.LaunchStartsLeaders | ebook.js:225-242 | The launch loop, unless `Sequence` throws, starts the first filter of every group's leader, and of no follower. |
| Progress.LeaderStartsFollowers | ebook.js:232-240 | Once a leader's chain has completed, every follower of its group has started, unless the process has ended. |
| Progress.FiringStartsOutput | ebook.js:117-133 | Once `Finalize` has fired, an output filter or array has started, unless the process has ended. |
| Progress.QuiescentRunCompletes | ebook.js:113-242 | A live run where no filter is working any more has completed every chapter's chain. `spec.loaded` has reached `contents.length`, plus one after an output array's own terminal step. `Finalize` has fired when there is a chapter, and an output filter or array has run to its end. |
| Properties.ChapterRunsInOrder | ebook.js:137-148 | A chapter's chain runs its filters first to last, each only after the previous one called its continuation, and then completes. A chain that completed ran all of them. |
| Properties.OutputRunsInOrder | ebook.js:125-148 | The output array runs its filters first to last in the same way. |
| Properties.FollowersWaitForLeader | ebook.js:232-240 | A follower's first filter starts only after its group leader's chain has completed. `Progress.LeaderStartsFollowers` proves the converse. |
| Properties.OutputWaitsForAll | ebook.js:117-131 | `Finalize` fires, and output filters start, only after every chapter's chain has completed. |
| Properties.BarrierFiresOnce | ebook.js:113-135 | `Finalize` fires at most once. It has fired exactly when `spec.loaded` has reached a non-zero `contents.length`, and exactly when every chapter's chain has completed. `params.chap` is cleared for the firing params only, so for one at most. |
| Properties.LoadedBound | ebook.js:117-141 | `spec.loaded` never exceeds the chapter count plus one, and exceeds the count only after an output array has run to its own `Finalize`. |
| Properties.HaltedStays | ebook.js:105-140 | Once the process has thrown or exited, no continuation call changes anything. |
| Properties.ShortChainHalts | ebook.js:139-140 | `Sequence` with fewer than two ops throws before any op runs, and nothing runs after it. |
| Properties.LongChainStarts | ebook.js:137-148 | `Sequence` with two ops or more starts only its first op. That op's continuation runs the rest of the ops and then the terminal step. |
| Properties.OneChapterRun | ebook.js:113-242 | One chapter `[a, b]` with output `o`: a, b, completion, firing, o, its completion, with `spec.loaded` at 1. |
| Program.FilingSize | ebook.js:219-222 | Filing n chapters puts n chains in the schedule. |
| Program.SetupWellFormed | ebook.js:155-242 | A successful setup hands the launch loop no empty group and one chain per chapter, so the counter's target is the chain count. |
| Program.SetupChainsFaithful | ebook.js:182-222 | Each scheduled chain is the chain its chapter resolved to, on that chapter's params, under the chapter's `src`. |
| Program.SetupChainsComplete | ebook.js:157-222 | Every chapter has exactly one chain, and a group holds its chapters in spec order. |
| Program.ExecuteFails | ebook.js:98-217 | The program gets to the launch loop exactly when every chapter passes. Otherwise it reports the first failing chapter's error, and no chain runs. |
| Program.ExecuteBarrier | ebook.js:113-242 | After a successful setup, under every interleaving, the output stage fires at most once. It has fired exactly when the spec has chapters and all of their chains completed. |
| Program.ExecuteCompletes | ebook.js:155-242 | After a successful setup, a live run where no filter is working any more has completed exactly `contents.length` chains, one per chapter. It has fired the output stage when there is a chapter. |
| Program.EmptySpecIdle | ebook.js:117-157 | With no chapters nothing is launched, nothing happens, and the output stage never fires. |
| Program.SharedSourceExample | ebook.js:219-222 | Chapters from X, Y, X give the groups X: [0, 2] then Y: [1]. |
| Runtime.Process.constructor | ebook.js:155 | A process starts with `spec.loaded = 0` and no chain started. |
| Runtime.Process.Sequence | ebook.js:137-148 | In place, `Sequence` does what the state machine's `Sequence` does. |
| Runtime.Process.Dispatch | ebook.js:119-133 | In place, the output dispatch does what the state machine says. It covers a single filter with an empty callback, an array through `Sequence`, `get` exiting on an unknown id, a throw on null or missing, and only a log otherwise. |
| Runtime.Process.Finalize | ebook.js:113-135 | In place, `++spec.loaded`; when the total is reached, clear `chap` and dispatch. |
| Runtime.Process.RunFollowers | ebook.js:236-240 | The leader's callback's loop calls `Sequence` for each follower in order. |
| Runtime.Process.CallNext | ebook.js:137-148 | In place, a filter calling its continuation does what the state machine's step does, and keeps the invariant. |
| Runtime.Process.Launch | ebook.js:225-242 | The launch loop, in place, equals the state machine's launch. |
| Runtime.Start | ebook.js:155-242 | A whole run of the process is the state machine's run, and ends in a state satisfying the invariant. |

## Behaviour of the code worth knowing

- A chapter chain or output array with exactly one filter is not run directly. It goes
  through `Sequence`, which throws at ebook.js:139-140 before any filter runs.
  `Exception` is undefined there, so the throw is a ReferenceError; either way the
  process ends.
- Output filter ids are resolved only when `Finalize` fires (ebook.js:120-129), not
  during setup. An unknown output id makes `get` exit after every chapter has completed.
- An unrecognised `output` value is only logged (ebook.js:133); the run does not abort.
  A null or missing `output` throws on `.constructor`.
- The output array's own terminal step calls `Finalize` again. This pushes
  `spec.loaded` to `contents.length + 1`, and that call does not fire again.
- `&nbsp;` becomes a plain space U+0020, not a no-break space.
- With no chapters, nothing is launched and the output stage never runs.

## Left out

- File system, the CLI arguments and `JSON.parse` of the spec file (ebook.js:8-24,
  151): the model starts from an already-parsed spec value.
- `ensure_dir`, `UriCache` and the `FilterManager` constructor (ebook.js:14-24, 73-96)
  do I/O and `require`. The registry is a given set of filter ids.
- `purge` and `cheerio.load('')` (ebook.js:60-71, 183) belong to a DOM library that is
  not part of this model. The params object handed to filters (ebook.js:160-168) is
  represented by its chapter's index. Its text helpers `unescape_html` and `decode_crs`
  are modelled on their own in `charrefs.dfy`. Its `spec`, `chap` and `uri_cache` members
  are not passed to filters in the model, because filters are only ids.
- What filters do (fetching, extraction, packaging) is left out. A filter is only an id,
  and its asynchronous work is the environment step that calls its continuation.
- `console.log` diagnostics are left out. `process.exit` and uncaught exceptions are a
  halted status, which makes every later step a no-op.
- A filter calling its continuation twice is left out, as is a filter calling it
  synchronously while the launch loop or `Sequence` is still running. A filter that
  throws is left out too. Each continuation is called at most once per stage, after
  the launch loop has finished.
- Enumeration order of `for (src in sched)` (ebook.js:225): JavaScript lists integer-like
  keys first, in numeric order. The model keeps first-seen order for every key.
- Prototype-inherited keys (for example `"toString"`) are left out, both for
  `chap.filters in spec.filters` (ebook.js:202) and for `this.filters[fid]`
  (ebook.js:100). Only the spec's and the registry's own keys are looked up.
- Setup.GroupIndex: looks up only the groups filed so far. In the code, `sched` is a
  plain `{}` (ebook.js:152), so `chap.src in sched` (ebook.js:219) is also true for a
  `src` inherited from `Object.prototype`, such as `"constructor"`, `"toString"` or
  `"__proto__"`. `sched[src].push` (ebook.js:220) then throws a TypeError, which ends
  setup before any chain starts. The model instead files such a chapter in a new group,
  so `Setup.Insert`, `Setup.Schedule` and `Program.ExecuteFails` do not capture that
  failure.
- A named chain in `spec.filters` whose value is not an array of ids is left out.
- Setup.BuildSchedule: writes `chap.id` into the chapter object (ebook.js:182); the model
  records the id in the schedule entry instead. A chapter that later fails its checks
  keeps its id in the source, which is not observable once the program has returned.
- Strings are sequences of code points, so UTF-16 surrogate pairs are not split the way
  JavaScript's `length`, `substr` and `indexOf` would split them.
