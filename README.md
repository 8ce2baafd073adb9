# Ember method-call tracker and template bootstrap, in Dafny

This project models two small pieces of Ember.js and proves properties about them.

**`MethodCallTracker`** is a test helper. It replaces one named debug function (`deprecate`, `warn`, ...; for `assert`, see the `emberAssert` line under "## Left out") with a stub that records every call as `[message, passed, options]`. It collects expectations as two lists that grow together: message patterns and optional required-option keys. At the end of a test, `assert()` matches the expectations against the recorded calls and reports ok/fail outcomes. The model is `class MethodCallTracker` in module `MethodCallTracking` (`method_call_tracker.dfy`):
- The registry of debug functions is `class DebugEnv`, holding a map.
- The installed stub is `DebugFunction.Recorder(tracker)`, and its body is `RecordCall`.
- `assert()` is the method `Assert`, which returns the sequence of `assert.ok` outcomes it would report.
- `Assert` is proved equal to the specification function `AssertOutcomes`. Lemmas about that function state what a test run reports.

**`bootstrap`** makes one pass over the inline `<script type="text/x-handlebars">` elements of a document. Each script, in document order, is named, compiled, checked against the template registry, registered and removed from the document. A name that is already registered stops the pass with an error, and nothing done before it is undone. The model is module `TemplateBootstrap` (`bootstrap.dfy`):
- The document is `class Document`, a sequence of elements in document order. Each element knows the keys of its ancestors.
- The registry is `class TemplateRegistry`, holding a map.
- The `for…of` loop is the method `ProcessScripts`. It is proved against the specification function `Run`, which the lemmas reason about.
- `Bootstrap` resolves the context, takes the selection, and calls `ProcessScripts`.

Module `TrackerFindings` (`tracker_findings.dfy`) holds two defects of `assert()`. See "## Findings".

Parameters stand in for the outside world:
- `RegExp.prototype.test` is a function parameter `test`. Lemmas that depend on `/.*/` accepting everything say so with `AcceptsMatchAll(test)`.
- `checkTest(test)` is the boolean `passed` given to `RecordCall`.
- The build-time `DEBUG` flag is the parameter `debug` of `Assert`.
- The template compiler is the function parameter `compile`.

Where the code and its description disagree, the model follows the code. Three places:
- The expect-no-calls branch iterates index keys, not calls.
- `match` is never reset between expectations.
- Calls are not consumed. Every expectation re-scans every call. Every matching index goes into `matched`, and `match` is left on the last match. So one failing call can meet several expectations (`OneCallMeetsTwoExpectations`).

## Model

| member | source | states |
|---|---|---|
| MethodCallTracking.MethodCallTracker.constructor | packages/internal-test-helpers/lib/ember-dev/method-call-tracker.ts:18-26 | A fresh tracker is not expecting no calls, has empty message, option-list and call lists, and has no captured original; the two expectation lists have equal length |
| MethodCallTracking.MethodCallTracker.StubMethod | packages/internal-test-helpers/lib/ember-dev/method-call-tracker.ts:28-44 | With an original already captured, nothing changes; otherwise the installed function (or none) is captured and the recording stub is installed under the tracker's name, the rest of the registry unchanged |
| MethodCallTracking.MethodCallTracker.RecordCall | packages/internal-test-helpers/lib/ember-dev/method-call-tracker.ts:39-43 | One call of the stub appends exactly `[message, checkTest(test), options]` to the recorded calls and leaves the earlier ones untouched |
| MethodCallTracking.MethodCallTracker.RestoreMethod | packages/internal-test-helpers/lib/ember-dev/method-call-tracker.ts:46-50 | The captured original is reinstalled under the tracker's name if there is one; otherwise the registry is unchanged |
| MethodCallTracking.MethodCallTracker.ExpectCall | packages/internal-test-helpers/lib/ember-dev/method-call-tracker.ts:52-56 | Stubs as `StubMethod` does, and appends exactly one message (`/.*/` when the given one is falsy) and one option list, so the lists keep equal length |
| MethodCallTracking.MethodCallTracker.ExpectNoCalls | packages/internal-test-helpers/lib/ember-dev/method-call-tracker.ts:58-61 | Stubs as `StubMethod` does and sets the no-calls flag; no other method's frame includes that flag, so nothing clears it |
| MethodCallTracking.MethodCallTracker.IsExpectingNoCalls | packages/internal-test-helpers/lib/ember-dev/method-call-tracker.ts:63-65 | When it holds, `isExpectingCalls()` is falsy |
| MethodCallTracking.MethodCallTracker.IsExpectingCalls | packages/internal-test-helpers/lib/ember-dev/method-call-tracker.ts:67-69 | Falsy exactly when the no-calls flag is set or no expectation exists; when a number, it is the expectation count |
| MethodCallTracking.MethodCallTracker.Assert | packages/internal-test-helpers/lib/ember-dev/method-call-tracker.ts:71-183 | The outcomes reported are exactly `AssertOutcomes` of the tracker's state: nothing, one production pass, one no-calls outcome, or one outcome per expectation followed by the unexpected-call failures |
| MethodCallTracking.OptionListMatch | packages/internal-test-helpers/lib/ember-dev/method-call-tracker.ts:127-136 | The option-list loop yields true exactly when no list is required, or the call carries options owning every listed key |
| MethodCallTracking.CollectNoCallMessages | packages/internal-test-helpers/lib/ember-dev/method-call-tracker.ts:89-95 | The `for…in` loop collects `NoCallsCollected(n)`, which is empty exactly when no call was recorded |
| MethodCallTracking.NoCallsCollected | packages/internal-test-helpers/lib/ember-dev/method-call-tracker.ts:89-95 | Over `n` recorded calls, the list holds `min(n, 10)` entries, entry k being the digit string of k: the index keys whose second character is missing |
| MethodCallTracking.IndexKey | packages/internal-test-helpers/lib/ember-dev/method-call-tracker.ts:91 | An index key is never empty, and has a single character exactly for the indexes below 10 |
| MethodCallTracking.ScanCalls | packages/internal-test-helpers/lib/ember-dev/method-call-tracker.ts:111-143 | After one scan, `actual` is the last call, `match` is set exactly when it was set before or some call matched this expectation and holds a failing call, and `matched` grows by exactly the indexes of the matching calls |
| MethodCallTracking.ExpectationOutcomes | packages/internal-test-helpers/lib/ember-dev/method-call-tracker.ts:104-176 | One outcome per expectation, in order, outcome o being the one the chain at lines 153-175 picks for expectation o |
| MethodCallTracking.UnexpectedOutcomes | packages/internal-test-helpers/lib/ember-dev/method-call-tracker.ts:178-182 | Only failing "unexpected call" outcomes, naming calls in increasing index order |
| MethodCallTracking.ExpectedMessage | packages/internal-test-helpers/lib/ember-dev/method-call-tracker.ts:54 | The default for a missing message: a truthy message is kept, an absent or empty one becomes the match-all pattern, and the stored message is always truthy |
| MethodCallTracking.DebugEnv.GetDebugFunction | packages/internal-test-helpers/lib/ember-dev/method-call-tracker.ts:37 | The installed function under a name, or `undefined` exactly when nothing is installed under it |
| MethodCallTracking.DebugEnv.SetDebugFunction | packages/internal-test-helpers/lib/ember-dev/method-call-tracker.ts:39 | Installs a function under one name and leaves every other name unchanged |
| MethodCallTracking.DefaultExpectationMatchesAnyFailingCall | packages/internal-test-helpers/lib/ember-dev/method-call-tracker.ts:54 | An expectation made with a falsy message and no option list is met by a call exactly when the call failed |
| MethodCallTracking.PatternWithoutOptionsIgnoresOptions | packages/internal-test-helpers/lib/ember-dev/method-call-tracker.ts:117-131 | A pattern with no option list is met by exactly the failing calls whose message it accepts, whatever their options |
| MethodCallTracking.PassingCallNeverMatched | packages/internal-test-helpers/lib/ember-dev/method-call-tracker.ts:117-119 | A passing call matches no expectation |
| MethodCallTracking.OneOutcomePerExpectation | packages/internal-test-helpers/lib/ember-dev/method-call-tracker.ts:104-182 | In a DEBUG build with expectations, outcome o belongs to expectation o; it is "received no calls" exactly when no call was recorded, and ok exactly when some call matched expectation o or an earlier one; only unexpected-call failures follow |
| MethodCallTracking.ExpectationsOkIffFirstMatched | packages/internal-test-helpers/lib/ember-dev/method-call-tracker.ts:104-159 | Because `match` is never reset, all expectation outcomes are ok exactly when some call matched the first expectation |
| MethodCallTracking.OneCallMeetsTwoExpectations | packages/internal-test-helpers/lib/ember-dev/method-call-tracker.ts:107-143 | Calls are not consumed: two expectations "a" and one failing call "a" give only ok outcomes |
| MethodCallTracking.UnexpectedCallReported | packages/internal-test-helpers/lib/ember-dev/method-call-tracker.ts:178-182 | Call i is reported unexpected exactly when it failed and no expectation matched it |
| MethodCallTracking.NoUnexpectedCallsIff | packages/internal-test-helpers/lib/ember-dev/method-call-tracker.ts:178-182 | No unexpected-call failure is reported exactly when every failing call was matched |
| MethodCallTracking.AssertPassesIff | packages/internal-test-helpers/lib/ember-dev/method-call-tracker.ts:71-183 | A DEBUG run with expectations reports only ok outcomes exactly when (there is no expectation or some call matched the first one) and every failing call matched some expectation |
| TrackerFindings.PassingCallFailsNoCallsCheck | packages/internal-test-helpers/lib/ember-dev/method-call-tracker.ts:89-99 | As written, a single passing call fails the no-calls check; the intended check accepts it |
| TrackerFindings.NoCallsListHoldsIndexes | packages/internal-test-helpers/lib/ember-dev/method-call-tracker.ts:89-95 | As written, the first entry of the reported list is `"0"`, where the intended list starts with the first failing call's message |
| TrackerFindings.FailingMessages | packages/internal-test-helpers/lib/ember-dev/method-call-tracker.ts:89-95 | The intended list holds the messages of exactly the failing calls, and is empty exactly when every call passed |
| TrackerFindings.CollectFailingMessages | packages/internal-test-helpers/lib/ember-dev/method-call-tracker.ts:89-95 | The no-calls loop run over the calls (`for…of`) collects exactly `FailingMessages` |
| TrackerFindings.IntendedNoCallsOutcome | packages/internal-test-helpers/lib/ember-dev/method-call-tracker.ts:96-99 | The intended no-calls outcome is ok exactly when every recorded call passed |
| TrackerFindings.IntendedExpectationOutcome | packages/internal-test-helpers/lib/ember-dev/method-call-tracker.ts:104-175 | With `match` reset for each expectation, its outcome is ok exactly when some call matched that expectation itself |
| TrackerFindings.IntendedExpectationOutcomes | packages/internal-test-helpers/lib/ember-dev/method-call-tracker.ts:107-176 | One corrected outcome per expectation, in order |
| TrackerFindings.IntendedAssertPassesIff | packages/internal-test-helpers/lib/ember-dev/method-call-tracker.ts:71-183 | Corrected, a DEBUG run passes exactly when: in no-calls mode every call passed; otherwise every expectation is matched by some call (one call may meet several), and every failing call was matched |
| TrackerFindings.StaleMatchMeetsLaterExpectation | packages/internal-test-helpers/lib/ember-dev/method-call-tracker.ts:104-159 | Expectations "a" and "b" with one failing call "a" pass as written and fail when corrected |
| TemplateBootstrap.Select | packages/ember-template-compiler/lib/system/bootstrap.ts:32-34 | The selected elements are exactly the document's `script` elements of type `text/x-handlebars` inside the context, and there are no more of them than nodes |
| TemplateBootstrap.SelectAppend | packages/ember-template-compiler/lib/system/bootstrap.ts:34-36 | Selection keeps document order: selecting from two consecutive parts of a document gives the two selections one after the other |
| TemplateBootstrap.ResolveContext | packages/ember-template-compiler/lib/system/bootstrap.ts:28-30 | A given context is used as is; no context means the whole document |
| TemplateBootstrap.SelectDistinct | packages/ember-template-compiler/lib/system/bootstrap.ts:34 | The selection of a document of distinct nodes holds distinct nodes |
| TemplateBootstrap.TemplateName | packages/ember-template-compiler/lib/system/bootstrap.ts:40-41 | The derived name is never empty |
| TemplateBootstrap.Run | packages/ember-template-compiler/lib/system/bootstrap.ts:36-58 | A pass from script i processes a count between i and the number of scripts, and ends without error exactly when it processed them all |
| TemplateBootstrap.WithoutKeeps | packages/ember-template-compiler/lib/system/bootstrap.ts:57 | The document after removals keeps exactly the elements whose keys were not removed |
| TemplateBootstrap.CompileCalls | packages/ember-template-compiler/lib/system/bootstrap.ts:44-46 | One compiler invocation per script, in order, with the script's body and derived name as module name |
| TemplateBootstrap.TemplateRegistry.HasTemplate | packages/ember-template-compiler/lib/system/bootstrap.ts:49 | `hasTemplate(name)` holds exactly when a template is registered under `name` |
| TemplateBootstrap.TemplateRegistry.SetTemplate | packages/ember-template-compiler/lib/system/bootstrap.ts:54 | Registers one template under one name, the other entries unchanged; afterwards `hasTemplate(name)` holds |
| TemplateBootstrap.Document.QuerySelectorAll | packages/ember-template-compiler/lib/system/bootstrap.ts:34 | Returns the selection `Select` of the current document |
| TemplateBootstrap.Document.Remove | packages/ember-template-compiler/lib/system/bootstrap.ts:57 | In a document whose nodes are distinct, removes exactly the given element, and the nodes stay distinct |
| TemplateBootstrap.WithoutDistinct | packages/ember-template-compiler/lib/system/bootstrap.ts:57 | Removing nodes from a document of distinct nodes leaves distinct nodes |
| TemplateBootstrap.ProcessScripts | packages/ember-template-compiler/lib/system/bootstrap.ts:36-58 | The loop over the selected scripts: its error, the new registry and the count of processed scripts are those of `Run`; the document loses exactly the processed scripts and keeps distinct nodes; the compiler was invoked for each processed script and, on error, also for the failing one |
| TemplateBootstrap.Bootstrap | packages/ember-template-compiler/lib/system/bootstrap.ts:27-59 | On a document of distinct nodes, the error, the new registry and the count of processed scripts are those of `Run` on the selection of the resolved context; the document loses exactly the processed scripts; the compiler was invoked for each processed script and, on error, also for the failing one |
| TemplateBootstrap.RunNamesFresh | packages/ember-template-compiler/lib/system/bootstrap.ts:49-54 | The scripts a pass registers carry names that were not yet registered and are pairwise distinct |
| TemplateBootstrap.RunKeys | packages/ember-template-compiler/lib/system/bootstrap.ts:49-54 | A pass adds to the registry exactly the names of the scripts it processed |
| TemplateBootstrap.RunValues | packages/ember-template-compiler/lib/system/bootstrap.ts:44-54 | Each processed script's name is bound to `compile(body, name)`, and earlier entries keep their templates |
| TemplateBootstrap.RunStops | packages/ember-template-compiler/lib/system/bootstrap.ts:49-51 | A pass that stops names, in its error, the failing script's name, which the registry already holds |
| TemplateBootstrap.BootstrapSucceedsIff | packages/ember-template-compiler/lib/system/bootstrap.ts:36-58 | A pass ends without error exactly when no script's name was already registered and no two scripts share a name |
| TemplateBootstrap.SuccessfulPassRegistersEveryScript | packages/ember-template-compiler/lib/system/bootstrap.ts:34-58 | After a successful pass the registry holds the earlier entries unchanged plus exactly one new entry per script, its compiled body under its name |
| TemplateBootstrap.NamesCount | packages/ember-template-compiler/lib/system/bootstrap.ts:49-54 | The pairwise distinct names of n scripts form a set of n names |
| TemplateBootstrap.SameNameTwiceFails | packages/ember-template-compiler/lib/system/bootstrap.ts:49-54 | Two scripts with one derived name make the pass fail no later than the second, before it is registered or removed |
| TemplateBootstrap.FailedPassKeepsEarlierScripts | packages/ember-template-compiler/lib/system/bootstrap.ts:49-57 | After a failed pass, the earlier entries are unchanged and exactly the names of the scripts before the failing one were added: nothing is rolled back |
| TemplateBootstrap.FailingScriptIsCompiled | packages/ember-template-compiler/lib/system/bootstrap.ts:44-50 | The failing script was compiled, under the name its error reports, before the duplicate check |
| TemplateBootstrap.FailingScriptStays | packages/ember-template-compiler/lib/system/bootstrap.ts:49-57 | After a failed pass, the failing script and every later one are still in the document |
| TemplateBootstrap.DefaultContextScansDocument | packages/ember-template-compiler/lib/system/bootstrap.ts:28-30 | With no context, every template script of the whole document is selected |
| TemplateBootstrap.TemplateNameFallback | packages/ember-template-compiler/lib/system/bootstrap.ts:40-41 | The name is a non-empty `data-template-name`, else a non-empty `id`, else `"application"` |
| TemplateBootstrap.NoTemplateScriptRemains | packages/ember-template-compiler/lib/system/bootstrap.ts:34-58 | Once all selected scripts are removed, the context holds no template script |

## Left out

- `packages/@ember/application/instance.d.ts` holds ambient type declarations without bodies. There is nothing to model in it.
- The text of every `assert.ok` message (lines 85-180) is not modelled. An outcome carries only its ok flag and its kind, with the expectation index or call index. The message text of the duplicate-name error is reduced to the name.
- The branch at line 160 (`match && match[1]`) cannot be reached, because passing calls are skipped at line 117. `Assert` proves that branch dead. `OutcomeKind` therefore has no constructor for it.
- Regular-expression semantics: `RegExp.prototype.test` is the parameter `test`. A `Regex` is known by its source text and its flags, so `/a/` and `/a/i` are different values. The model does not cover a `RegExp` with the global or sticky flag, whose `lastIndex` makes `test` stateful.
- Message comparison: `expectedMessage === actual[0]` is compared as string equality. Messages are modelled as strings.
- `checkTest` lives in `./utils`, which is not part of this model. Its result is the parameter `passed` of `RecordCall`.
- `emberAssert('has actual', actual)` at line 115 is left out. Its condition always holds, because the index is in range. The model also assumes that this call does not reach the tracked function: either `methodName` is not `"assert"`, or `assert()` runs after `restoreMethod`. If a tracker for `"assert"` were still stubbed, the call would go to its own stub. The stub would append to the calls the loop at line 111 is scanning, and that loop would not end. `DebugEnv` lives in `./utils`, which is not part of this model, so this wiring is not modelled.
- `QUnit.config.current` is left out: `Assert` returns the outcomes instead of calling `assert.ok`.
- The `DEBUG` build flag is the parameter `debug`.
- `DebugEnv`, `getDebugFunction` and `setDebugFunction` live in `./utils`, which is not part of this model. They are modelled as a map that holds at most one function per name.
- Options objects are reduced to their set of own property names. `hasOwnProperty` is membership in that set.
- The DOM:
  - A `Document` holds each node once (`Valid()`: distinct keys), as a DOM tree does. `Bootstrap` asks for that and keeps it.
  - `querySelectorAll` is the filter `Select` on local name and `type` attribute. It compares the local name and the `type` value exactly. The source selects more: HTML selectors match element names case-insensitively, and they match the `type` attribute value ASCII-case-insensitively. So `<script type="TEXT/X-HANDLEBARS">` is selected by the source but not by `IsTemplateScript`.
  - `getAttribute` is an optional string.
  - `innerHTML` is a string.
  - `removeChild` removes only the script element itself, not its descendants. Script elements have no element children in practice.
  - The `parentNode!` assertion at line 57 is assumed to hold, since a selected script always has a parent.
- The template compiler (`./compile`) is not part of this model. It is the function parameter `compile`, and its own exceptions are not modelled.
- `Bootstrap` takes `Document` and `TemplateRegistry` instances. `hasTemplate` and `setTemplate` are membership in and update of the registry's map. The model does not cover callbacks with other behaviour, or a registry that aliases the document.

## Findings

| source | as written | input that shows it | evidently intended | confidence | as-written member | corrected member |
|---|---|---|---|---|---|---|
| packages/internal-test-helpers/lib/ember-dev/method-call-tracker.ts:91 | `for (let actual in actuals)` binds the index keys "0", "1", ..., so `actual[1]` is a character of the key. The no-calls check fails whenever any call was recorded, and lists digits instead of messages | `expectNoCalls()` followed by one passing call `("harmless", passed = true)` | iterate the calls with `for…of`: fail only on failing calls, and list their messages | high (not executed) | TrackerFindings.PassingCallFailsNoCallsCheck | TrackerFindings.IntendedNoCallsOutcome |
| packages/internal-test-helpers/lib/ember-dev/method-call-tracker.ts:104 | `match` is declared once, before the loop over expectations, and never reset. Once one expectation is matched, every later one reports ok | `expectCall("a")`, `expectCall("b")`, then one failing call with message "a": every outcome is ok | reset `match` for each expectation, so that each expectation needs some call that matches it (one call may still meet several) | medium (not executed) | TrackerFindings.StaleMatchMeetsLaterExpectation | TrackerFindings.IntendedAssertPassesIff |

The main model (`MethodCallTracking`) keeps both behaviours as written. `TrackerFindings` defines the corrected outcomes next to it:
- `IntendedNoCallsOutcome`, specified by `FailingMessages` and computed by `CollectFailingMessages`.
- `IntendedExpectationOutcome` and `IntendedAssertOutcomes`.

`IntendedAssertPassesIff` proves what the corrected `assert()` accepts.
