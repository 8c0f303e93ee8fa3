# Mean-value-theorem applet scripts: label tracking, liveness routing and rebuild shape

The project models the GeoGebra scripts that illustrate the mean value theorem. Both versions are covered:

- the Babel-compiled asynchronous applet script, `mvt_applet/geogebra_javascript.js`;
- the earlier synchronous script, `script.js`.

Both scripts create GeoGebra objects one command at a time. They track every object label a rebuild creates, so that the next rebuild can delete those objects again. The host tells them when an object has come alive ("object added"). Such a notification can arrive before the script has registered a listener for that label, or after it, and the scripts route it either way.

The model covers:

- **Host** (`host.dfy`): the applet API as a class with a log of the calls the scripts make (`evalCommandGetLabels`, `deleteObject`, `setVisible`). It also holds an oracle that gives the answer to a creation command as any function of the calls so far and of the command.
- **Strings** (`strings.dfy`): the JavaScript string behaviour the scripts rely on. This is `split` on one character, `join`, decimal rendering of a number, `indexOf` with a start index, and `substring` with its index clamping.
- **Liveness** (`liveness.dfy`): bookkeeping shared by both scripts.
  - Which labels fire their listener at once, because their "object added" call already came in.
  - Which labels get the listener stored.
  - The deletions a teardown issues: every tracked label, newest first.
- **AppletTracker** (`applet_tracker.dfy`): `executeCreation`, the "object added" listener and `deleteTemporaryObjects`, as a class over `temporaryLabels`, `unhandledAliveCallLabels` and `aliveListenerByLabel`.
  - The promise `executeCreation` returns is modelled by its state after the call: rejected, resolved at once, or pending.
  - The closure that resolves a pending promise is the datum `ResolveMain(main)`, stored in the listener map.
- **ScriptTracker** (`script_tracker.dfy`): `registerTemporaryLabels`, `handleAliveListener` with its two registrations, and `clearDivisions`, over the same three structures.
- **AppletGroups** (`applet_groups.dfy`): the visibility groups of the applet.
  - Each group has temporary and permanent member lists.
  - `clearAllGroupMembers` empties the temporary lists.
  - Each group's checkbox handler, run alone or by `applyAllGroupCheckboxes`, shows or hides every member.
- **Rebuild, AppletRebuild, ScriptRebuild** (`rebuild.dfy`, `applet_rebuild.dfy`, `script_rebuild.dfy`): the step structure of `setupDivisions` for `n` divisions.
  - This is the sequence of objects the rebuild creates, named by what they stand for (`x_{Di}`, `F_{Di}`, `S_{Dd}`, `s_G`, `μ`, …).
  - It includes the degenerate `n == 1` branch.
  - Each counting loop is a method proved equal to a plan function; the plan is then selected by kind of step to state the properties.
  - For the synchronous script the text of the `s_G` command is modelled as well.
- **LineStyle** (`line_style.dfy`): `patchLineStyleOpacity`, which splices a new `opacity="…"` value into an object's XML.

I/O is represented as follows:

- The host's answers are the `evaluate` oracle of `Host.Api`.
- A checkbox's value is a function parameter.
- A caller's listener is an opaque `ListenerId`; running it appends an event to the tracker's event log.
- Object XML is the input and the result of the patch function.

## Model

| member | source | states |
|---|---|---|
| Strings.Split | mvt_applet/geogebra_javascript.js:354-360 | splitting never yields an empty array and no piece holds the separator, so the "created no object" rejection cannot occur |
| Strings.SplitJoin | script.js:8 | splitting a join of separator-free labels gives back exactly those labels |
| Strings.JoinSplit | script.js:8 | joining the pieces of a split gives back the original string |
| Strings.NatToStringInjective | script.js:173 | distinct division indices render as distinct decimal strings |
| Strings.IndexOf | mvt_applet/geogebra_javascript.js:793-796 | the result is the first match at or after the start index, or -1 when there is none |
| Strings.Substring | mvt_applet/geogebra_javascript.js:797 | in-range indices give the slice; two non-positive indices give the empty string |
| Liveness.ImmediateCalls | script.js:13-15 | every immediate call goes to the given listener with a listed label already queued, and a queued label gets exactly as many calls as it is listed (at most once when listed once) |
| Liveness.StoredEntries | script.js:16-17 | registration stores the listener under exactly the listed labels that are not queued, and leaves every other map entry as it was |
| Liveness.Teardown | script.js:27-28 | one deletion per tracked label, the k-th deleting the k-th newest label: exact reverse creation order |
| Liveness.TeardownDeletesTracked | mvt_applet/geogebra_javascript.js:383-388 | a teardown deletes a label if and only if it is tracked |
| AppletTracker.Tracker.Created | mvt_applet/geogebra_javascript.js:345-356 | a command that is not refused creates at least one label |
| AppletTracker.Tracker.ExecuteCreation | mvt_applet/geogebra_javascript.js:342-382 | a command with a line break is rejected without calling the host and changes nothing; a non-string answer is rejected after the one host call and changes nothing; otherwise the registry, queue, map, events and promise state are as `TrackCreated` states |
| AppletTracker.Tracker.TrackCreated | mvt_applet/geogebra_javascript.js:361-380 | the main label is tracked unless permanent, secondaries only when a listener is given; the queue is unchanged; a queued main label resolves at once and no continuation is stored, otherwise `ResolveMain` is stored and the promise stays pending |
| AppletTracker.Tracker.RegisterSecondaries | mvt_applet/geogebra_javascript.js:363-373 | each secondary label is tracked in order unless permanent; queued ones fire the listener at once, the others get it stored; the queue is unchanged |
| AppletTracker.RegisteredEntries | mvt_applet/geogebra_javascript.js:362-380 | after a creation the main label maps to `ResolveMain` unless queued, each unqueued secondary maps to the listener, and every other entry, including a queued secondary or a queued main label, keeps its presence and value: no label already announced at creation gets a new entry |
| AppletTracker.Tracker.OnObjectAdded | mvt_applet/geogebra_javascript.js:389-397 | a label with a stored continuation has it removed and run exactly once, with the queue unchanged; any other label is appended to the queue and nothing runs; other map entries are unchanged |
| AppletTracker.Tracker.DeleteTemporaryObjects | mvt_applet/geogebra_javascript.js:383-388 | `deleteObject` is called on every tracked label in reverse order, then the registry, the queue and the map are empty and no listener runs |
| Liveness.DeleteAll | mvt_applet/geogebra_javascript.js:385 | the backwards loop issues exactly the teardown deletions of the labels, newest first; the synchronous script's `clearDivisions` runs the same loop |
| AppletTracker.CreatedThenAnnounced | mvt_applet/geogebra_javascript.js:374-380 | from any tracker state in which the label is neither stored nor queued, a one-label creation stays pending, and the later "object added" call for that label resolves it: exactly one `Resolved` is added, and the map and the queue end as they began |
| AppletTracker.AnnouncedThenCreated | mvt_applet/geogebra_javascript.js:374-376 | from any tracker state in which the label is not stored, an "object added" call that comes before the creation queues the label, and the creation then resolves at once. The same single `Resolved` is added as in the other order, the map ends as it began, and the label stays queued |
| AppletTracker.SecondariesOnce | mvt_applet/geogebra_javascript.js:361-380 | a three-label creation with a listener, then "object added" calls for the two secondary labels and the main one: the promise is pending until the main label comes alive. Each secondary label reaches the listener exactly once, whether its call was queued before the creation or came after it, and the map ends as it began |
| AppletTracker.CreateThree | mvt_applet/geogebra_javascript.js:361-380 | the creation of `a,b,c` with a listener tracks all three labels. It calls the listener at once for `b` if `b` was queued, otherwise stores it for `b`; it stores it for `c` and `ResolveMain` for `a`, and it leaves the promise pending |
| AppletTracker.AnnounceThree | mvt_applet/geogebra_javascript.js:389-397 | the "object added" calls for `b`, `c` and `a` run each stored continuation once, in call order; an unstored `b` is queued instead, and the map returns to what it was before the creation |
| AppletTracker.ThreeRegistered | mvt_applet/geogebra_javascript.js:364-380 | registering `a,b,c` with a listener stores the listener for every unqueued secondary label and `ResolveMain` for `a`, and calls the listener at once only for a queued `b` |
| AppletTracker.LineBreakRefused | mvt_applet/geogebra_javascript.js:345-348 | a command with a line break is rejected, the host is never called, and nothing is tracked |
| AppletTracker.NonStringRefused | mvt_applet/geogebra_javascript.js:349-353 | a non-string host answer is rejected after exactly one host call, and nothing is tracked |
| AppletTracker.PermanentSurvivesTeardown | mvt_applet/geogebra_javascript.js:362-366 | labels of a permanent creation are not tracked, so the teardown deletes none of them |
| AppletTracker.TeardownWithListener | mvt_applet/geogebra_javascript.js:363-388 | with a listener both labels of a creation are tracked and deleted newest first, and a second teardown deletes nothing |
| AppletTracker.TeardownWithoutListener | mvt_applet/geogebra_javascript.js:362-366 | without a listener only the main label is tracked, so only it is deleted |
| ScriptTracker.Tracker.RegisterTemporaryLabels | script.js:7-22 | returns the first comma-split label and tracks every label in order whether or not a listener is given; the state is `Registered` of the old state |
| ScriptTracker.RegisteredEffect | script.js:10-18 | registration appends all labels to the registry and keeps the queue; without a listener the map and events are unchanged; with one, each queued label gets one immediate call per listing, every other listed label gets the listener stored, and unlisted entries are untouched |
| ScriptTracker.Tracker.HandleAliveListener | script.js:241-252 | the state is `Handled` of the old state |
| ScriptTracker.HandledRunsOnce | script.js:241-252 | a stored listener is removed and then run once; the same notification again only queues the name; other map entries are unchanged |
| ScriptTracker.HandledQueues | script.js:241-252 | an unmatched name is appended to the queue and nothing runs |
| ScriptTracker.Tracker.Notify | script.js:255-256 | "object added" and "object updated" both have exactly the effect of `handleAliveListener` |
| ScriptTracker.NotificationOrderIrrelevant | script.js:10-18 | registering a new label with a listener and then hearing of it, or the reverse, runs the listener once and stores nothing either way; only the queue differs, because a matched queue entry is never removed |
| ScriptTracker.Tracker.ClearDivisions | script.js:24-32 | tracked labels are deleted in reverse creation order, and then only the events survive; the argument is unused |
| ScriptTracker.ClearedForgetsListeners | script.js:24-32 | after a clear no earlier listener can run: every notification is queued |
| ScriptTracker.ClearTwice | script.js:24-32 | a second clear deletes nothing and leaves the state as it is |
| ScriptTracker.ClearTwiceDeletesOnce | script.js:7-32 | both labels of a creation without a listener are tracked, deleted newest first, and a second clear deletes nothing |
| ScriptTracker.AddedThenUpdated | script.js:241-256 | a listener runs once although both notifications arrive, and the repeat is queued |
| AppletGroups.GroupControls.RegisterGroupMember | mvt_applet/geogebra_javascript.js:512-516 | the label is appended to exactly one of the group's member lists, the permanent one if and only if `permanent` |
| AppletGroups.GroupControls.ClearAllGroupMembers | mvt_applet/geogebra_javascript.js:517-520 | every group's temporary members are emptied and its permanent members are unchanged |
| AppletGroups.GroupControls.SetupGroupCheckboxes | mvt_applet/geogebra_javascript.js:575-581 | one handler per group, in key order, each bound to its group and its checkbox |
| AppletGroups.GroupControls.UpdateHandler | mvt_applet/geogebra_javascript.js:575-579 | one handler run sets the checkbox's visibility on every temporary member and then every permanent member |
| AppletGroups.GroupControls.SetMembersVisible | mvt_applet/geogebra_javascript.js:577-578 | `setVisible` is called once on each member, in order, with the same value |
| AppletGroups.VisibilityCallsAt | mvt_applet/geogebra_javascript.js:577-578 | there is one call per member, and the k-th call sets the k-th member |
| AppletGroups.GroupControls.ApplyAllGroupCheckboxes | mvt_applet/geogebra_javascript.js:609-611 | every handler runs, in the order the handlers were made |
| AppletGroups.OneHandlerCalls | mvt_applet/geogebra_javascript.js:575-579 | running one handler sets its temporary, then its permanent members to the checkbox's visibility |
| AppletGroups.UntickHidesAll | mvt_applet/geogebra_javascript.js:575-579 | with the checkbox cleared, two temporary and one permanent member are hidden, in that order |
| AppletGroups.ClearThenTick | mvt_applet/geogebra_javascript.js:517-520 | after clearing and registering a new member, ticking shows only the new temporary member and the permanent one |
| Rebuild.MarkersSelected | mvt_applet/geogebra_javascript.js:815-829 | each iteration creates exactly one abscissa, one point and one line, for its own division |
| AppletRebuild.SetupDivisions | mvt_applet/geogebra_javascript.js:799-894 | the counting loop, including its early return on the last pass, produces exactly `Plan(n)` |
| AppletRebuild.SetupFinal | mvt_applet/geogebra_javascript.js:845-880 | the last pass adds `S_I` from the first to the last point, then `s_G` over the collected slopes, `μ`, the quadrature above `μ` and its tangent, or only the quadrature above `μ_1` when `n == 1` |
| AppletRebuild.SetupSlopes | mvt_applet/geogebra_javascript.js:688-691 | the setup of iteration `i >= 2` computes the slope over the points `i - 1` and `i` |
| AppletRebuild.SetupSecants | mvt_applet/geogebra_javascript.js:678-687 | the setup of iteration `i >= 2` draws the secant over the points `i - 1` and `i`, unless `n == 1` |
| AppletRebuild.FinalInterval | mvt_applet/geogebra_javascript.js:847-853 | the last iteration draws `S_I` exactly once, from point 1 to point `n + 1` |
| AppletRebuild.FinalLevelTerm | mvt_applet/geogebra_javascript.js:855-864 | the last iteration creates `s_G` and `μ` if and only if `n != 1` |
| AppletRebuild.FinalDerivative | mvt_applet/geogebra_javascript.js:733-747 | the `f'` point stands above `μ` with its segment, or above `μ_1` without one |
| AppletRebuild.IterationsAbscissas | mvt_applet/geogebra_javascript.js:805-815 | the first `m` iterations create the abscissas of divisions `1..m`, in order |
| AppletRebuild.IterationsSlopes | mvt_applet/geogebra_javascript.js:832-841 | iterations `2..m` each compute the slope over two adjacent points, in order |
| AppletRebuild.IterationsSecants | mvt_applet/geogebra_javascript.js:678-687 | iterations `2..m` each draw the secant over two adjacent points, and none when `n == 1` |
| AppletRebuild.IterationsInterval | mvt_applet/geogebra_javascript.js:845-853 | before the last iteration no `S_I` exists |
| AppletRebuild.IterationsLevelTerm | mvt_applet/geogebra_javascript.js:855-864 | before the last iteration no `s_G` or `μ` exists |
| AppletRebuild.PlanDivisions | mvt_applet/geogebra_javascript.js:805-829 | a rebuild creates `x_{Di}`, `F_{Di}` and `V_{Di}` for `i = 1..n+1`, in order |
| AppletRebuild.PlanSetups | mvt_applet/geogebra_javascript.js:832-841 | a rebuild runs the division setup `n` times, setup `d` over the points `d` and `d + 1`, and draws secants only when `n != 1` |
| AppletRebuild.PlanLastIteration | mvt_applet/geogebra_javascript.js:845-880 | `S_I` exists exactly once, from the first to the last point; `s_G` and `μ` exist if and only if `n != 1`; the `f'` steps stand above `μ` or `μ_1`; none of these exists before the last iteration |
| AppletRebuild.LevelTermAveragesSlopes | mvt_applet/geogebra_javascript.js:836-861 | when `n != 1`, `s_G` averages exactly the `n` secant slopes the rebuild computed, in order, dividing by their number |
| ScriptRebuild.SetupDivisions | script.js:129-239 | the counting loop and the steps after it produce exactly `Plan(n)`, and the `s_G` command is issued if and only if `n != 1` |
| ScriptRebuild.DivisionPass | script.js:136-191 | one pass appends exactly iteration `i`; the abscissa used after the loop is `μ` on the last pass when `n != 1` and `μ_1` otherwise; the `s_G` command is issued only then |
| ScriptRebuild.SetupLevelTerm | script.js:158-187 | the level-term branch creates `S_G` from the first to the last point, `s_G`, `μ` and its tangent, and issues the `s_G` command for `n` |
| ScriptRebuild.SlopeValueLabels | script.js:170-173 | the inner loop collects `s_{D1}, …, s_{Dn}` |
| ScriptRebuild.SetupSecants | script.js:98-105 | the setup of iteration `i >= 2` always draws the secant over the points `i - 1` and `i` |
| ScriptRebuild.SetupSlopes | script.js:107-110 | the setup of iteration `i >= 2` computes the slope over the points `i - 1` and `i` |
| ScriptRebuild.TailInterval | script.js:158-165 | `S_G` comes only from the last iteration, and only when `n != 1` |
| ScriptRebuild.TailLevelTerm | script.js:158-182 | `s_G` and `μ` come only from the last iteration, and only when `n != 1` |
| ScriptRebuild.IterationsSecants | script.js:150-151 | iterations `2..m` each draw the secant over two adjacent points, in order |
| ScriptRebuild.IterationsSlopes | script.js:150-151 | iterations `2..m` each compute the slope over two adjacent points, in order |
| ScriptRebuild.IterationsNoDerivative | script.js:135-192 | no iteration of the loop creates an `f'` step |
| ScriptRebuild.PlanDivisions | script.js:135-148 | a rebuild creates `x_{Di}`, `F_{Di}` and `V_{Di}` for `i = 1..n+1`, in order |
| ScriptRebuild.PlanSetups | script.js:150-151 | `setupDivision` runs `n` times, setup `d` over the points `d` and `d + 1`, with its secant even when `n == 1` |
| ScriptRebuild.PlanLevelTerm | script.js:158-188 | `S_G`, `s_G` and `μ` exist if and only if `n != 1`, and none exists before the last iteration |
| ScriptRebuild.PlanDerivative | script.js:190-208 | the `f'` point and segment come after the loop, above `μ` when `n != 1` and above `μ_1` otherwise, followed by the quadrature steps |
| ScriptRebuild.SlopeLabelInjective | script.js:173 | a slope label determines its division |
| ScriptRebuild.SummandsRoundTrip | script.js:170-176 | the summands split back out of the `+`-joined text, and no two are equal |
| ScriptRebuild.LevelTermSumsSlopes | script.js:170-176 | the `s_G` command sums `s_{D1}..s_{Dn}`, one per computed slope, each once and in order, and divides by the number of slopes |
| LineStyle.PatchReplacesValue | mvt_applet/geogebra_javascript.js:790-798 | on XML of the form `pre + opacity="old" + post`, the patch puts the new value in place of the old one and keeps `pre` and `post`; the as-written code does the same there |
| LineStyle.PatchIdempotent | mvt_applet/geogebra_javascript.js:790-798 | on such XML, patching twice with the same value is the same as patching once |
| LineStyle.PatchWithoutAttribute | mvt_applet/geogebra_javascript.js:790-798 | the corrected patch leaves XML without an opacity attribute unchanged |
| LineStyle.AsWrittenDropsPrefix | mvt_applet/geogebra_javascript.js:793-797 | as written, `<lineStyle x="1"/>` patched with 255 becomes `opacity="255"1"/>` |

## Left out

- The `CustomPromise` polyfill (`mvt_applet/geogebra_javascript.js:3-324`) is not modelled. It is a general concurrency primitive; only the resolve-once behaviour of `executeCreation` is kept, as promise states and stored continuations.
- The regenerator and `_asyncToGenerator` runtime (`mvt_applet/geogebra_javascript.js:326-329`) is compiler output. The model keeps the logical step order of the async functions, not their `switch` state machines.
- A promise that is rejected in the middle of a rebuild would stop that rebuild. The rebuild plans assume every creation resolves.
- AppletRebuild.SetupDivisions and ScriptRebuild.SetupDivisions: the steps are named by the objects they stand for, not by the labels the host returns. The plans therefore identify a host label with the object it names (for example, the `"μ_1"` literal with `μ` of division 1).
- The text of the geometry commands is not modelled: segments, points, the tangent-length formula with its `sqrt` and floats. The one exception is the `s_G` command of `script.js`.
- GeoGebra's evaluator is not modelled; the answer to a command is an arbitrary oracle.
- Cosmetic calls are not modelled: `setColor`, `setLayer`, `setLabelVisible`, `setLineThickness`, `setFilling`, `setFixed`, `setCaption`, `SetCoords`. Nor is the checkbox layout arithmetic with `controlYOffset`.
- `registerGroupMember` also issues a `SetColor` command and a `setLayer` call. These are cosmetic and not in the log.
- `getXML` and `evalXML` in `patchLineStyleOpacity`: the XML is the input and the spliced string is the result, because only the splice is logic.
- Listener bodies (`setVisible`, `setLabelVisible`, group registration inside listeners) are not modelled. A listener is an opaque identifier, and a call to it is an event.
- The script's listeners that create further objects (`Q_{B'}`, then `Q_{A'}`, then `Q_{f'}`) are modelled as running in order. Their nesting through the host's notifications is not modelled.
- The `f` update listener (`script.js:273-280`) reads an undefined `sliderValue`, so its behaviour is an error rather than a contract. It is left out.
- The fifth argument passed to `solveDerivativeAbscissaAndMakePoint` (`script.js:179-182`) is ignored by that function (`script.js:34-45`), so it is not modelled as a listener.
- `script.js` throws a `TypeError` when `evalCommandGetLabels` returns a non-string, because it calls `split` on it. The script model takes the label string as its input and does not model that failure.
- Slider orchestration (clear, then rebuild on every slider change) and overlapping rebuilds are not modelled. Nothing in the code guards against interleaving, and it is not a stated behaviour.
- A listener that is not a function, and JavaScript object keys inherited from the prototype, are not modelled. A missing listener is `None`, and the listener map is a `map` holding only what the scripts store.
- Listener-map entries are modelled as values. The closures' own identity and aliasing are not.

## Findings

| source | as written | input that shows it | evidently intended | confidence | as-written member | corrected member |
|---|---|---|---|---|---|---|
| mvt_applet/geogebra_javascript.js:790-798 | the splice uses the three `indexOf` results without checking for -1; with no opacity attribute, `substring(0, -1)` is empty and the splice restarts after the first quote found from index 8 | `<lineStyle x="1"/>` with value 255 gives `opacity="255"1"/>`, losing the element's head | leave the XML unchanged when the tag, the attribute or its closing quote is missing | not executed | LineStyle.AsWrittenDropsPrefix (about LineStyle.PatchedAsWritten) | LineStyle.Patched, with LineStyle.PatchWithoutAttribute and LineStyle.PatchReplacesValue |
