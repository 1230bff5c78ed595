# biri: verified models

biri is a scrollable-tiling Wayland compositor, a fork of niri. This project models the state
machines at its heart, and a few numeric and matching kernels, in Dafny, and proves what holds of
them over every input, run or reachable state.

* **Session lock and redraw scheduler** (`LockModel`, `LockSafety`, `LockDisplays`,
  `LockProgress`, `LockLaws`, `OutputLaws`, `Compositors`).
  A step function over lock requests, surface commits, the deadline, redraws whose outcome the
  backend chooses, outputs coming and going, monitor power and presentation events. It implements
  the `locked` event of the ext-session-lock-v1 protocol, which promises that the client hears of
  success only when every output shows a locked frame. The class `Compositor` performs the same
  steps in place, and `LockLaws` and `OutputLaws` say field by field what every event does.
* **Panel cache** (`PanelModel`, `PanelOwnership`, `PanelCoherence`, `PanelLaws`, `PanelSources`). Two ping-pong
  buffers per content output, publication only on damage, a generation counter, and host panels
  that keep their texture while buffer and generation compare equal.
* **Shader frame throttle** (`ShaderThrottle`), over arbitrary traces of redraws and wakes.
* **Output names, sections, placement and run-time configuration** (`OutputNames`, `OutputSections`,
  `Placement`, `TransientOutputs`).
* **Hit testing** (`HitTest`): what input finds at a point, and where on it, against the order and
  the places in which things are drawn; layer surfaces are regions, workspaces have positions and a
  zoom.
* **Kernels**: cubic Bézier easing (`Bezier`), rubber-band clamping (`RubberBands`), scroll ticks
  (`ScrollTrackers`), and keybinds (`Keys`, `KeyPresses`, `BindTables`, `RecentWindowsConfig`).

Objects that the program updates in place are classes here (`Compositor`, `PanelSource`, `Throttle`,
`GlobalSpace`, `OutputConfig`, `RecentWindows`, `ScrollTracker`), and each of their methods is proved
to perform the corresponding function on values; loops are loops. Floating-point code is modelled
over `real`; counters are unbounded; objects of other libraries are opaque numbers.

## Where the code and its intent part

Each of these is stated as a theorem with its exact condition or with a concrete instance.

* A redraw with the monitors inactive marks its output locked even if its render failed. An isolated
  output that a power-off kept on, or any display that stayed lit, may so be marked, and the client
  told that the session is locked, while it goes on showing the session (`ExposureHappens`).
  `MarksAreTrueIff` and `LockedSessionHidesIff` say exactly when, and
  `OnlySkippedIsolatedOutputsExpose` that orderly runs leave no other way.
* A panel shows current content after every refresh only if content versions never come back and
  renders succeed. Content that changes for one frame and returns leaves the other version on screen
  (`ExcursionShowsStaleContent`); a failed render leaves no panel while the content stays the same
  (`FailureLeavesPanelEmpty`). `RefreshIsCurrentIff` is the exact condition.
* A retained panel on a degenerate quad takes over the new identity without the new texture
  (`UpdateShowsPublished`), as the code's own comment says; as ring positions are shared, that may be
  the texture of another source (`DegenerateQuadShowsOther`).
* `window_under` looks at pop-ups of the bottom and background layers before the tiled windows even
  when a window is drawn above the top layer, unless the overview is open somewhere;
  `contents_under` and rendering do not (`WindowUnderAgreesIff`, `FullscreenDisagreement`).
* The redraw that is to show a panel published during a render is queued once that render is drawn; if
  it then fails, nothing asks for it again (`OwedEndsIff`, `FollowUpCanBeLost`), while a flag that a
  failed render leaves set does wait (`FlagWaitsForDrawing`).
* An open window switcher takes all input on every output, but it is drawn only after a delay and never
  on isolated outputs; until then input departs from the desktop that is drawn
  (`InputFollowsRenderingIff`, `InterfacesTakeInput`).
* On the desktop input departs from what is drawn in three more cases: while the carousel
  replaces the workspace strip by panels, input still finds the windows of the strip
  (`HiddenStripTakesInput`); while the overview is open elsewhere, a monitor outside it draws its
  bottom and background layers and input passes them over (`OverviewElsewhereIgnoresLayers`); while
  the overview closes, those layers are drawn scaled and searched unscaled
  (`ClosingOverviewMissesLayers`), although the code holds that zoom need not matter to them. They
  then agree whatever the layers are if and only if the zoom is 1, no workspace is under the point, or
  the point is the workspace's corner (`ClosingAgreesForAllLowLayersIff`).
* A shader animation drives itself only on an active output: the redraw of an inactive one uses up a
  fired wake, and the animation then waits for a redraw that something else queues
  (`AnimationStallsIff`, `StallHappens`, `UnarmedRedrawIsDue`).
* Publication settles after two more publications if the quads are drawable; a degenerate quad, which
  keeps its host on the first texture, can cost a third (`AtMostTwoMorePublishes`,
  `AtMostThreeMorePublishes`, `ThreePublishesHappen`).
* `conflicts_with` is documented as "triggered by the same key press". That is exact once `Mod` is
  replaced by the mod key (`SharePressIffConflict`); as written it finds the shared presses of keys
  that list the same modifiers (`WrittenConflictIff`) and misses `Mod` against the key it stands for
  (`ModHidesAConflict`), so an overriding bind spelled that way may lose to the bind it was
  to override (`OverrideWinsIff`).
* With `Shift` as the mod key, the default bind for the previous window under `Mod` cannot be reached
  (`DefaultsUnambiguousIff`, `ShiftedDefaultUnreachable`).
* A bind removed by one configuration part does not return when a later part removes its remover
  (`RemovedBindStaysRemoved`).
* Scroll ticks are conserved exactly if no single step has 128 ticks or more pending
  (`OneDirectionConserves`).

## Model

| member | source | states |
|---|---|---|
| `LockSafety.StepKeepsInv` | src/niri.rs:8288-8527 | every event, from any state, keeps: one deadline timer iff waiting for surfaces; each locker in one place; locking has a pending redraw wherever the session still shows; surfaces belong to the establishing lock; locked means all outputs marked locked |
| `LockSafety.RunKeepsInv` | src/niri.rs:6360-6592 | the same invariant after any finite run of events |
| `LockSafety.LockedSessionsAreMarked` | src/niri.rs:6556-6592 | in every reachable locked state every output is marked locked |
| `LockDisplays.StepHidesIff` | src/niri.rs:6556-6565 | an event makes an output marked locked show the session iff it skips the render of a lit display that shows the session, while locking with the monitors inactive |
| `LockDisplays.MarksAreTrueIff` | src/niri.rs:6556-6565 | over every run: marked outputs hide the session at every moment iff no event of the run does that |
| `LockDisplays.LockedSessionHidesIff` | src/niri.rs:6556-6592 | a locked session hides the session on every lit display iff the run left no output exposed; the displays that show it are exactly those exposed and since then not drawn, turned off or removed |
| `LockDisplays.OnlySkippedIsolatedOutputsExpose` | src/niri.rs:6377-6379 | if power-offs work and the isolated setting stays, only a failed render of an isolated output kept on by skip-isolated exposes |
| `LockDisplays.ExposureHappens` | src/backend/tty.rs:2535-2561 | a run of six events in which the client is told that the session is locked while a lit display shows it |
| `LockSafety.ConfirmationsAreSafe` | src/niri.rs:3766-3787 | any event confirms at most one locker, the one received or the one held, and at that instant every tracked output is marked locked; covers redraw, removal, the empty start and a dead lock |
| `LockSafety.LockersSettleOnce` | src/niri.rs:8288-8419 | every locker ever received is exactly once held, confirmed or dropped |
| `LockSafety.DeadlinesFindTheirState` | src/niri.rs:8322-8405 | a timer is armed iff the state waits with that very timer, so the wrong-state branch of the continuation is unreachable |
| `LockSafety.LockingAlwaysHasNextStep` | src/niri.rs:6567-6592 | while locking, some output is queued or will be by the presentation of its frame in flight |
| `LockSafety.SurfacesFollowTheLock` | src/niri.rs:8407-8527 | unlocked outputs have no lock surface; until locked, surfaces belong to the lock being established |
| `LockProgress.RunShrinks` | src/niri.rs:6556-6592 | while one locker keeps locking, outputs only stop showing the session, and every redrawn one has |
| `LockProgress.SettledNeverHeld` | src/niri.rs:8370-8419 | a confirmed or dropped locker is never held again in any continuation |
| `LockProgress.LockingEnds` | src/niri.rs:4571-4589 | once every output that showed the session has been redrawn, and at least one redraw took place, that locking is over, whatever came in between |
| `LockLaws.StepMovesLock` | src/niri.rs:8288-8419 | for every event and every state of the lock, in fields: the next state, which locker is confirmed and which is dropped |
| `LockLaws.LockIsHeld` | src/niri.rs:8297-8316 | a held lock: a request while its client lives is dropped, one after its death is confirmed at once, an unlock ends it, and nothing else touches it |
| `LockLaws.HolderChangesIff` | src/niri.rs:8297-8316 | over every run the holder keeps the lock iff nothing unlocks and no other client asks after its death |
| `OutputLaws.StepChangesOutput` | src/niri.rs:6360-6592 | every event changes every output, field by field, as stated: pending redraw, what it waits for, mark, surface, display, panel flag and stamp |
| `OutputLaws.StepChangesFrame` | src/niri.rs:3850-3875 | which outputs there are, the monitor flags and the cycle stamp after every event |
| `OutputLaws.NewOutputStarts` | src/niri.rs:3640-3700 | a new output starts queued, unlit, without a surface, and marked as the session is |
| `OutputLaws.PublicationIsOwed` | src/niri.rs:6520-6541 | a publication on the host leaves a redraw owed; one during a render that is drawn, or a flag left from before, leaves it pending |
| `OutputLaws.OwedEndsIff` | src/niri.rs:6520-6555 | an owed redraw stays owed unless its output is removed, or redrawn with no flag set and nothing published |
| `OutputLaws.FlagWaitsForDrawing` | src/niri.rs:6525-6541 | the flag survives every run until its output is drawn, failed redraws included, and drawing then leaves a redraw pending |
| `OutputLaws.OwedUntilRedrawn` | src/niri.rs:6520-6541 | over every run the host has its flag set or a redraw pending until it is redrawn or removed |
| `OutputLaws.FollowUpCanBeLost` | src/niri.rs:6546-6555 | the redraw that was to show a publication can fail, and nothing is owed any more |
| `Compositors.RedrawAdvances` | src/niri.rs:6520-6592 | redrawing a queued output strictly decreases (locking, unstamped ring sources, panel flags, queued outputs), although it may queue itself or everything again |
| `Compositors.CycleEnds` | src/niri.rs:4571-4589 | when a redraw cycle has nothing queued left, a session still locking waits for a frame in flight |
| `Compositors.Compositor.RedrawQueuedOutputs` | src/niri.rs:4571-4589 | terminates for every backend behaviour, leaves nothing queued, keeps the invariant, and performs a run of redraws |
| `Compositors.Compositor.Redraw` | src/niri.rs:6360-6592 | one redraw in place is the model's step, for skipped, failed and drawn renders; keeps the invariant and confirms only the locker held, with every output marked |
| `Compositors.Compositor.FinishRedraw` | src/niri.rs:6520-6565 | the bookkeeping after the backend returned: deferred panel redraw, skipped redraw state, lock mark; the invariant survives except for the pending redraw of this output |
| `Compositors.Compositor.DecideLock` | src/niri.rs:6567-6592 | unlocks if this output failed to show a locked frame, confirms when all are locked; makes the invariant whole again |
| `Compositors.Compositor.RefreshPanels` | src/niri.rs:6047-6275 | stamps, sweeps and the host's pending flag as one render leaves them; keeps the invariant |
| `Compositors.Compositor.Lock` | src/niri.rs:8288-8345 | refuse, replace a dead lock, or start waiting, for every lock state; keeps the invariant and confirms at most the locker it brings |
| `Compositors.Compositor.MaybeContinueToLocking` | src/niri.rs:8347-8368 | continues iff waiting and every output has a mapped surface; keeps the invariant |
| `Compositors.Compositor.ContinueToLocking` | src/niri.rs:8370-8405 | removes the timer, then confirms without outputs or queues all of them; keeps the invariant |
| `Compositors.Compositor.Unlock` | src/niri.rs:8407-8419 | drops a held locker and its timer, takes every lock surface away and queues every output; keeps the invariant and confirms nothing |
| `Compositors.Compositor.NewLockSurface` | src/niri.rs:8500-8527 | accepted only from the current lock, its client and a tracked output; keeps the invariant |
| `Compositors.Compositor.CommitLockSurface` | src/handlers/compositor.rs:492-506 | a commit continues locking or queues its output; keeps the invariant, confirming only the locker held |
| `Compositors.Compositor.AddOutput` | src/niri.rs:3614-3724 | a new output is marked by the lock state and queued; keeps the invariant |
| `Compositors.Compositor.RemoveOutput` | src/niri.rs:3726-3798 | a removal may complete the locking or continue it; keeps the invariant and confirms only the locker held |
| `Compositors.Compositor.QueueRedrawAll` | src/niri.rs:4518-4530 | every output's redraw state takes the queueing transition; with an output present this restores the part of the invariant about pending redraws |
| `Compositors.Compositor.OnVBlank` | src/backend/tty.rs:1665-1830 | the output is idle, or queued if a redraw was asked for or animations remain; keeps the invariant |
| `Compositors.Compositor.OnEstimatedVBlank` | src/backend/tty.rs:1855-1891 | a redraw queued behind the timer stays queued; keeps the invariant |
| `Compositors.Compositor.ActivateMonitors` | src/niri.rs:3865-3875 | powering on queues everything, once; keeps the invariant |
| `Compositors.Compositor.DeactivateMonitors` | src/niri.rs:3850-3863 | powering off turns displays off but the isolated ones it skips, and queues everything iff those stay on; keeps the invariant |
| `Compositors.Compositor.ExpireDeadline` | src/niri.rs:8320-8331 | a deadline that fires continues the locking; keeps the invariant |
| `PanelOwnership.StepKeepsInv` | src/niri.rs:650-701 | the ownership invariant survives every refresh, error, sweep and host update |
| `PanelOwnership.ScratchNeverShown` | src/niri.rs:702-728 | in every reachable state the next render targets neither the published buffer nor its texture |
| `PanelOwnership.HeldTexturesUntouched` | src/render_helpers/offscreen.rs:79-170 | no render changes the pixels of a texture that the source publishes or any host retains |
| `PanelOwnership.GenerationsAreNeverReused` | src/niri.rs:747-768 | publications only accumulate and the generation counts them, clears included |
| `PanelOwnership.EqualIdentityMeansSameTexture` | src/render_helpers/panel.rs:123-156 | whatever sources shared its slot, a drawable panel whose identity equals the current one of this source already draws the published texture |
| `PanelOwnership.UpdateShowsPublished` | src/render_helpers/panel.rs:123-190 | after an update the host draws the published texture iff its quad is drawable or it did before |
| `PanelOwnership.DegenerateQuadShowsOther` | src/render_helpers/panel.rs:118-165 | on a degenerate quad a panel named after this source may go on showing another one |
| `PanelCoherence.RefreshKeepsCoherent` | src/niri.rs:6185-6230 | scratch version ≤ published version ≤ current version is kept by every successful refresh |
| `PanelCoherence.PublishedIsCurrent` | src/niri.rs:6047-6230 | with monotone versions and no errors, every due refresh leaves exactly the current content published, damage or not |
| `PanelCoherence.HostDrawsCurrent` | src/niri.rs:5865-5942 | and a host that then draws the panel shows exactly that content |
| `PanelCoherence.RefreshIsCurrentIff` | src/niri.rs:6203-6222 | without the hypothesis: current iff the render was damaged or the published texture shows that version anyway |
| `PanelCoherence.ExcursionShowsStaleContent` | src/niri.rs:6203-6222 | a one-frame excursion of the content leaves a stale version published |
| `PanelCoherence.FailureLeavesPanelEmpty` | src/niri.rs:6222-6227 | one failed render of unchanged content leaves no element although the buffer shows it |
| `PanelCoherence.AtMostTwoMorePublishes` | src/niri.rs:650-701 | from any reachable state, once the content stops changing, at most two further publications happen in any number of redraws with drawable quads |
| `PanelCoherence.AtMostThreeMorePublishes` | src/render_helpers/panel.rs:118-190 | and at most three whatever the quads |
| `PanelCoherence.ThreePublishesHappen` | src/render_helpers/panel.rs:118-165 | a run with degenerate quads does publish three times |
| `PanelLaws.RefreshPublishesIff` | src/niri.rs:6185-6230 | a due successful refresh publishes iff the texture is new, the tracker was replaced, or it last saw another version; with the element, buffer and generation after it |
| `PanelLaws.RefreshDraws` | src/render_helpers/offscreen.rs:96-170 | which texture is drawn into, what both buffers hold and what every texture shows after a due successful refresh |
| `PanelLaws.InvalidatedIsReplaced` | src/render_helpers/offscreen.rs:96-138 | a texture that is too small or of another renderer is replaced by a new one, which is published |
| `PanelLaws.RefreshFails` | src/niri.rs:6222-6230 | a failed refresh leaves no element and publishes nothing; what its buffer holds then |
| `PanelLaws.OncePerCycle` | src/niri.rs:6064-6075 | a second refresh in one redraw cycle changes nothing |
| `PanelLaws.SweepForgets` | src/niri.rs:6238-6275 | what a sweep forgets, and that the generation and other hosts' panels stay |
| `PanelLaws.RetainingDrops` | src/niri.rs:5937-5942 | exactly the panels at positions no longer shown are dropped |
| `PanelLaws.DrawingMeans` | src/render_helpers/panel.rs:118-190 | the panel in a slot after drawing: whether there is one, its parameters, and its texture |
| `PanelLaws.HostDraws` | src/niri.rs:5904-5936 | a host draws a source under the identity of its element and its generation |
| `PanelSources.PanelSource.Clear` | src/niri.rs:763-767 | back to the fresh state, the generation carried over, so that ownership is kept |
| `PanelSources.PanelSource.RenderOffscreen` | src/render_helpers/offscreen.rs:79-190 | which texture is drawn into, what the tracker remembers and whether damage is reported, errors included |
| `PanelSources.PanelSource.Update` | src/niri.rs:6064-6230 | stamp check, reset on a new extent, render, publish on damage; keeps ownership, and coherence with the published texture at the rendered version after a due success |
| `PanelSources.PanelSource.Drop` | src/niri.rs:6238-6275 | an output outside the ring loses its element, its buffers and the panels it retained as a host; keeps ownership |
| `PanelSources.PanelSource.DrawOn` | src/niri.rs:5904-5936 | a host slot is built or updated; on a drawable quad it then draws the published texture; keeps ownership |
| `PanelSources.PanelSource.DrawOther` | src/niri.rs:5904-5936 | another source drawn in a slot keeps the ownership of this one |
| `PanelSources.PanelSource.Retain` | src/niri.rs:5937-5942 | a ring that shrinks drops panels and keeps ownership |
| `ShaderThrottle.ArmedWakeIsOneIntervalOut` | src/niri.rs:6469-6514 | an armed wake is due no earlier than one interval after the last shader frame and no later than that plus the time lost arming timers |
| `ShaderThrottle.AnimationStallsIff` | src/niri.rs:6377-6514 | on any trace whose latest active redraw was for shaders alone, no wake is armed or awaits its redraw iff a redraw of the inactive output has used one up since |
| `ShaderThrottle.AnimationNeverStalls` | src/niri.rs:6484-6508 | an output that stays active always has a wake armed, or fired with its redraw to come |
| `ShaderThrottle.UnarmedRedrawIsDue` | src/niri.rs:6484-6508 | with no wake armed, the next redraw for shaders alone renders a shader frame and arms the next wake, so that a stalled animation resumes |
| `ShaderThrottle.StallHappens` | src/niri.rs:6377-6381 | at any interval a trace that stalls exists |
| `ShaderThrottle.WokenRedrawIsDue` | src/niri.rs:4544-4569 | the redraw that a fired wake queued renders a shader frame |
| `ShaderThrottle.DecideMeans` | src/niri.rs:595-611 | due once the interval is over, otherwise the wait ends with it; a clock that went back waits a whole interval |
| `ShaderThrottle.FrameIsDueIff` | src/niri.rs:6469-6514 | on any trace a redraw for shaders alone is due iff no frame with shaders, riding along or not, was shown less than an interval ago; and the wake that it leaves |
| `ShaderThrottle.OnlyShadersArm` | src/niri.rs:6469-6514 | a wake is armed only if the latest active redraw was for shaders alone |
| `ShaderThrottle.DueFramesApart` | src/niri.rs:595-611 | shader frames of any trace are at least one interval apart |
| `ShaderThrottle.FrameRateIsCapped` | src/niri.rs:6469-6514 | any window of length T holds at most T / interval + 1 shader frames |
| `ShaderThrottle.Throttle.OnRedraw` | src/niri.rs:6469-6514 | stamp and timer after a redraw, for all four decisions |
| `OutputNames.MatchesMeans` | niri-config/src/output.rs:206-253 | the incremental match is: equal to the connector, or known and equal to "make model serial", up to ASCII case, multi-byte names included |
| `OutputNames.FormattedNameMatches` | niri-config/src/output.rs:189-204 | every name is matched by its own formatted form |
| `OutputNames.CaseMeans` | niri-config/src/output.rs:206-253 | equal up to ASCII case: byte by byte equal, or the two cases of one letter |
| `OutputNames.UnknownPartsAreWritten` | niri-config/src/output.rs:189-204 | missing parts are written "Unknown", parts separated by single spaces |
| `OutputNames.FindName` | niri-config/src/output.rs:159-167 | the section found is the first that matches, none only if none does |
| `OutputNames.CompareIsTotalOrder` | niri-config/src/output.rs:257-273 | `compare` is antisymmetric, transitive and equal only on identical names |
| `OutputNames.CompareTextMeans` | niri-config/src/output.rs:257-273 | bytewise order: the first differing byte decides and a prefix comes first |
| `OutputNames.CompareMeans` | niri-config/src/output.rs:257-273 | names with something known come first, then the first differing of make, model, serial and connector decides |
| `Placement.PlacementIsDisjoint` | src/niri.rs:3543-3598 | no two placed outputs overlap, for any outputs and configured positions |
| `Placement.OverlapMeans` | src/niri.rs:3550-3575 | for outputs that show anything, overlapping is sharing a pixel |
| `Placement.PixelsBelongToOne` | src/niri.rs:3543-3598 | no pixel of the global space belongs to two outputs |
| `Placement.ConfiguredPositionMeans` | src/niri.rs:3505-3510 | the configured position is that of the first section that selects the output |
| `Placement.ConfiguredPositionUsedIff` | src/niri.rs:3553-3585 | a configured position is used iff it overlaps nothing placed earlier |
| `Placement.FallbackIsRightmost` | src/niri.rs:3586-3598 | without a usable configured position an output stands at the top, right of everything placed earlier and touching it |
| `Placement.ConfiguredComeFirst` | src/niri.rs:3528-3531 | configured outputs are placed before the others, each kind in name order |
| `Placement.UnconfiguredOutputsTile` | src/niri.rs:3586-3598 | with none configured, outputs stand side by side from x = 0 without gaps |
| `Placement.SortedArrangementIsUnique` | src/niri.rs:3521-3528 | two name-sorted arrangements of the same outputs are equal, so an unstable sort has one result |
| `Placement.PlacementIsCanonical` | src/niri.rs:3502-3611 | positions depend only on the outputs and the configuration, not on enumeration or earlier positions |
| `Placement.PlaceIsIdempotent` | src/niri.rs:3491-3611 | placing what is placed changes nothing |
| `Placement.SecondRepositionMovesNothing` | src/niri.rs:3600-3611 | a second repositioning finds every output at its position |
| `Placement.AddThenRemoveRestores` | src/niri.rs:3726-3735 | connecting an output and disconnecting it puts the others back |
| `Placement.GlobalSpace.RepositionOutputs` | src/niri.rs:3491-3611 | ends in the canonical layout and returns exactly the outputs whose position changed |
| `Placement.GlobalSpace.ChoosePosition` | src/niri.rs:3551-3596 | the configured position if free, else the right edge of everything placed |
| `Placement.GlobalSpace.RemoveOutput` | src/niri.rs:3726-3735 | the remaining outputs take the canonical layout without it |
| `HitTest.InputFollowsRenderingIff` | src/niri.rs:4137-4317 | for every scene `contents_under` is the first eligible item in drawing order, at the place on it that is drawn there, except exactly where: an open switcher is not drawn on this output, or a hot corner takes the point, with something there; or nothing covers the workspace strip and panels replace it with a window there; or the overview is open on other monitors only, with a low layer drawn there; or no overview is open, the workspace under the point is zoomed, the point is not its corner, and a low layer covers the place searched or the place drawn |
| `HitTest.InterfacesTakeInput` | src/niri.rs:4149-4177 | with the exit dialog, a lock, the screenshot interface or the switcher, neither `contents_under` nor `window_under` finds a window or layer surface, and rendering shows none in front unless it is the switcher and this output does not show it |
| `HitTest.LockedShowsLockSurface` | src/niri.rs:4153-4173 | a locked session gives clients the point iff the lock surface of the output covers it |
| `HitTest.DesktopFollowsRenderingIff` | src/niri.rs:4240-4317 | the same law for the desktop alone, below all interfaces |
| `HitTest.AgreesForAllLowLayersIff` | src/niri.rs:4194-4202 | the two agree for every stack of bottom and background layers iff something covers the strip or none of the three conditions on flags, zoom and point holds |
| `HitTest.ClosingAgreesForAllLowLayersIff` | src/niri.rs:9110-9120 | with no overview open, at an uncovered point, they do iff the zoom is 1, no workspace is under the point, or the point is the workspace's corner |
| `HitTest.PlacesAgreeIff` | src/niri.rs:9110-9120 | the place searched in a low layer and the place drawn there coincide iff the zoom is 1, no workspace is under the point, or the point is the workspace's corner |
| `HitTest.AboveTopPlaces` | src/niri.rs:4194-4202 | under a window above the top layer the low layers are searched where they are drawn, fixed to the screen |
| `HitTest.FindWorkspaceMeans` | src/layout/monitor.rs:2447-2468 | `workspace_under` finds a workspace iff the point is in its band; the bands are disjoint |
| `HitTest.UnderMeans` | src/layout/monitor.rs:2447-2468 | in coordinates: the full breadth of the output, from the workspace's corner for its height |
| `HitTest.WorkspacesAreStacked` | src/layout/monitor.rs:2374-2414 | workspaces are of one size, centred, and each a gap beyond the one before |
| `HitTest.DrawnPlaceIsInverse` | src/niri.rs:9110-9120 | the place drawn at a point is the one that scaling and moving to the workspace brings there |
| `HitTest.FirstAtMeans` | src/niri.rs:4179-4220 | the surface found is the first that is mapped, outside the backdrop and covers the place |
| `HitTest.RegularOrderHit` | src/niri.rs:5758-5806 | what is hit in drawing order while the monitor draws nothing above the top layer, zoomed or not |
| `HitTest.AboveTopOrderHit` | src/niri.rs:5737-5757 | what is hit in drawing order under a full-screen window, wherever else the overview is open |
| `HitTest.WorkspacePopupsHit` | src/niri.rs:5781-5803 | of the copies drawn per workspace only those of the workspace under the point matter, as they are drawn |
| `HitTest.CoveredMeansHit` | src/niri.rs:3954-4006 | the sticky-layer test agrees with the surface search for layers outside the backdrop |
| `HitTest.WindowUnderAgreesIff` | src/niri.rs:4092-4120 | `window_under` is the window part of `contents_under` except exactly under a full-screen window with a low-layer pop-up while no overview is open |
| `HitTest.FullscreenDisagreement` | src/niri.rs:4008-4050 | such a point exists, and with the overview open elsewhere the two agree on it |
| `HitTest.HiddenStripTakesInput` | src/niri.rs:5133-5145 | a point where input finds a window that is not drawn exists |
| `HitTest.OverviewElsewhereIgnoresLayers` | src/niri.rs:4262-4298 | a point on a monitor outside an open overview exists where a pop-up is drawn and input finds nothing |
| `HitTest.ClosingOverviewMissesLayers` | src/niri.rs:9110-9120 | a point in a closing overview exists where a scaled surface is drawn and the unscaled search misses it |
| `Bezier.CoordinateRises` | src/animation/bezier.rs:19-27 | with control values in [0, 1] a coordinate never decreases and is 3-Lipschitz |
| `Bezier.CoordinateIsBezier` | src/animation/bezier.rs:19-27 | the closed form agrees with De Casteljau's construction of the curve |
| `Bezier.ComputeTForX` | src/animation/bezier.rs:29-45 | the loop performs 31 halvings |
| `Bezier.BisectKeepsBracket` | src/animation/bezier.rs:29-45 | the target stays between the values at the bracket's ends |
| `Bezier.InversionError` | src/animation/bezier.rs:29-45 | the inversion is off by at most 3 * 2^-32 in x |
| `Bezier.BisectIsMonotone` | src/animation/bezier.rs:29-45 | of two searches the one for the larger value ends no lower |
| `Bezier.EaseInUnit` | src/animation/bezier.rs:48-60 | the easing stays in [0, 1], cutoffs included |
| `Bezier.EaseIsMonotone` | src/animation/bezier.rs:48-60 | the easing never goes backwards, cutoffs included |
| `Bezier.EaseFollowsTheCurve` | src/animation/bezier.rs:49-59 | for all y1 and y2: between the cutoffs the easing is the height of a point of the curve within 3/2^32 of x, below 2^-52 it is 0 and above 1 - 2^-52 it is 1 |
| `Bezier.SearchBrackets` | src/animation/bezier.rs:29-45 | after any number of halvings the result is the middle of a bracket of that width which holds x, its upper end excluded |
| `Bezier.DiagonalCurveIsLinear` | src/animation/bezier.rs:19-60 | control points on the diagonal give linear easing up to the inversion error |
| `RubberBands.BandRises` | src/rubber_band.rs:8-20 | the band is strictly increasing, 1-Lipschitz, and its chords lie between the derivatives at their ends |
| `RubberBands.BandBelowLimit` | src/rubber_band.rs:8-13 | it starts at zero and never reaches the limit |
| `RubberBands.BandIsHyperbola` | src/rubber_band.rs:8-20 | the distance from the limit times the distance from the pole is constant, and so is the derivative times the square of the latter |
| `RubberBands.ClampStaysNear` | src/rubber_band.rs:22-28 | `clamp` is the identity on the range and stays strictly within the limit of it |
| `RubberBands.ClampRises` | src/rubber_band.rs:22-28 | `clamp` is strictly increasing and 1-Lipschitz across the ends of the range |
| `RubberBands.ChordsBetweenDerivatives` | src/rubber_band.rs:15-39 | past the range every chord slope lies between `clamp_derivative` at its two ends |
| `RubberBands.DerivativeMeans` | src/rubber_band.rs:30-38 | within the range `clamp` rises by `clamp_derivative`; outside, that is the band's at the distance from the range |
| `ScrollTrackers.StepFacts` | src/input/scroll_tracker.rs:17-34 | less than a tick stays pending, ticks fit an `i8` and never oppose the amount, and scrolling is lost iff 128 ticks or more were pending |
| `ScrollTrackers.StepMeans` | src/input/scroll_tracker.rs:17-34 | an amount adds to what is pending unless it turns, nothing is lost below 128 ticks, beyond that 127 are given |
| `ScrollTrackers.TicksFollowTheScroll` | src/input/scroll_tracker.rs:17-34 | the same at every step of any run |
| `ScrollTrackers.OneDirectionConserves` | src/input/scroll_tracker.rs:17-34 | from a reset, in one direction, the ticks are the truncated quotient of the sum iff no step saturates, and the remainder stays pending in any case |
| `ScrollTrackers.BatchingDoesNotMatter` | src/input/scroll_tracker.rs:17-34 | two ways of cutting one scroll into events give the same ticks |
| `ScrollTrackers.TurnStartsOver` | src/input/scroll_tracker.rs:18-21 | after a change of direction the run is one from a reset |
| `ScrollTrackers.ScrollTracker.Accumulate` | src/input/scroll_tracker.rs:17-34 | the in-place step, its invariant and the tick range |
| `Keys.Assemble` | niri-config/src/binds.rs:1417-1427 | the parsed modifiers are the written ones and the one the trigger implies, in any order |
| `Keys.ModKeysMean` | niri-config/src/input.rs:495-524 | the keysyms of each mod key and the modifier it holds |
| `Keys.ConflictCarriesOverIff` | niri-config/src/binds.rs:187-210 | exactly when conflict fails to be transitive |
| `Keys.ConflictIsNotTransitive` | niri-config/src/binds.rs:187-210 | it does fail, on the two sides of one modifier |
| `KeyPresses.GenericMatch` | src/input/mod.rs:5526-5569 | a generic-modifier bind matches iff its resolved modifiers are held and the key pressed is one of them |
| `KeyPresses.KeysymMatch` | src/input/mod.rs:5580-5638 | a keysym bind matches iff the keysym is its own and its resolved modifiers are held, the mod key itself aside |
| `KeyPresses.PointingMatch` | src/input/mod.rs:5593-5638 | a pointing bind matches iff the button or scroll is its own and its resolved modifiers are held |
| `KeyPresses.SharePressIffConflict` | niri-config/src/binds.rs:187-210 | with `Mod` resolved, two keys, pointing ones included, share a press iff they conflict |
| `KeyPresses.WrittenConflictIff` | niri-config/src/binds.rs:187-210 | as written, two keys conflict iff they share a press and list the same modifiers; so what is missed takes a key that names `Mod` |
| `KeyPresses.ModHidesAConflict` | niri-config/src/binds.rs:187-210 | `Mod` and `Super` share every press and do not conflict |
| `BindTables.Decode` | niri-config/src/binds.rs:985-1018 | the loop's table and diagnostics, the table conflict-free |
| `BindTables.KeptMeans` | niri-config/src/binds.rs:985-1018 | a node stays iff it is a bind that conflicts with no earlier node that stays |
| `BindTables.KeptInOrder` | niri-config/src/recent_windows.rs:267-300 | kept nodes keep their order |
| `BindTables.ReportsExplain` | niri-config/src/binds.rs:991-1012 | each diagnostic names the earliest kept bind in conflict, as repeat or as overlap |
| `BindTables.NodesAccountedFor` | niri-config/src/recent_windows.rs:267-300 | every node is kept or reported |
| `BindTables.RetainedMeans` | niri-config/src/recent_windows.rs:58-61 | a bind is retained iff no new bind conflicts with it |
| `BindTables.MergeIsLayered` | niri-config/src/recent_windows.rs:41-64 | merging part after part is one layered pass, in order |
| `BindTables.LayersMean` | niri-config/src/recent_windows.rs:58-64 | and leaves exactly the binds of the base or of a part that nothing later conflicts with |
| `RecentWindowsConfig.TablesStayConflictFree` | niri-config/src/lib.rs:268-281 | any sequence of merges of conflict-free parts is conflict-free |
| `RecentWindowsConfig.ConfiguredTable` | niri-config/src/recent_windows.rs:41-64 | for any node lists, read and merged in sequence onto the defaults: conflict-free, ending with the binds of the last part, and exactly the binds nothing later conflicts with |
| `RecentWindowsConfig.OneMatchIffUnambiguous` | src/input/mod.rs:5526-5578 | no press matches two binds of a table iff its resolved keys are conflict-free |
| `RecentWindowsConfig.ConflictFreeIsUnambiguous` | niri-config/src/binds.rs:187-210 | a table is unambiguous iff it is conflict-free and overlapping binds list the same modifiers, as they do without `Mod` |
| `RecentWindowsConfig.OverrideWinsIff` | niri-config/src/lib.rs:268-281 | every press of a new bind is answered by the new table iff no retained bind overlaps it once `Mod` is resolved |
| `RecentWindowsConfig.DefaultBinds` | niri-config/src/recent_windows.rs:222-252 | the defaults in order, conflict-free |
| `RecentWindowsConfig.DefaultsUnambiguousIff` | niri-config/src/recent_windows.rs:222-252 | they are unambiguous for every mod key but `Alt` and `Shift` |
| `RecentWindowsConfig.ShiftedDefaultUnreachable` | niri-config/src/recent_windows.rs:222-252 | with `Shift` as mod key no press reaches the shifted default |
| `RecentWindowsConfig.RecentWindows.MergeWith` | niri-config/src/recent_windows.rs:58-64 | retain and extend in place, conflict-free if the part is |
| `TransientOutputs.TargetMatches` | src/niri.rs:2562-2580 | whatever is connected, the user's name selects the target it resolves to |
| `TransientOutputs.TargetIs` | src/niri.rs:2562-2580 | the first matching output that is on, else the first connected one, else an unknown one at that connector |
| `TransientOutputs.ActionSets` | src/niri.rs:2597-2669 | what each IPC action leaves in each setting |
| `TransientOutputs.ActionIsVisibleIff` | src/niri.rs:2582-2595 | the target finds the section acted on iff it still carries a name that selects the target; otherwise it finds the next section for it |
| `TransientOutputs.IpcActionsAreVisible` | src/niri.rs:2597-2672 | every IPC action is visible to its target |
| `TransientOutputs.ActionIsLocal` | src/niri.rs:2582-2595 | an action reaches another output iff the two share the section |
| `TransientOutputs.ActionsCommuteIff` | src/niri.rs:2597-2669 | the order of two IPC actions matters iff they differ and are about the same setting |
| `TransientOutputs.ChangesReplaySinceLastRead` | src/niri.rs:2180-2189 | what is in effect is the last file that differed, with later actions replayed in order, across failed and identical reloads |
| `TransientOutputs.ChangesReplaySinceStart` | src/niri.rs:2363-2367 | the same from the start if no reload reads anything new |
| `TransientOutputs.SessionsSplit` | src/niri.rs:2080-2094 | every session is one of these two |
| `TransientOutputs.OutputConfig.ReloadConfig` | src/niri.rs:2080-2367 | failed, identical and changed reloads in place, and whether outputs must be reconfigured |
| `TransientOutputs.OutputConfig.ModifyOutputConfig` | src/niri.rs:2554-2595 | edits the first matching section or appends one under the user's name |

## Left out

- Wayland objects, GL and DRM calls, D-Bus, sockets, threads and files: outcomes of such calls are parameters of events; `backend.render` is a free choice of results.
- Pixels: what a display shows is the label of the last frame drawn for it and whether it is lit; that a locked frame holds nothing of the session is the renderer's part, and displays that a session switch takes away are not part of this model.
- Estimated-presentation timers: the event-loop token inside the redraw state, and its removal with the output.
- Integer widths and float rounding: counters, stamps and generations are unbounded, floats are reals; scroll casts to `i16` and `i8` are modelled and stay in range.
- Compositors.Compositor.RedrawQueuedOutputs: the carousel ring is the same for all redraws of one cycle; the program asks the layout each time.
- Compositors.Compositor.BackendRender: the order in which the hash map yields queued outputs and the backend's answers are arbitrary.
- PanelSources.PanelSource.DrawOn: the renderer context, brightness and scale among the compared parameters are part of the quad's shape; where panels can be clicked is not part of this model.
- ShaderThrottle.Throttle.ArmTimer: a timer that the event loop refuses to insert.
- ShaderThrottle.Throttle.OnRedraw: the interval is fixed over a trace; reloading another cap in between is not part of this model.
- Placement of outputs at fractional scale: one whole-pixel size per output, as the program rounds it.
- Library sorting: `sort_unstable_by` and the stable `sort_by_key` are insertion and selection, justified by uniqueness of the sorted arrangement.
- Hit geometry: positions are not rounded to physical pixels, input regions are the drawn regions, and workspaces that are hidden or outside the output are left out of the list; the hits on windows are part of the scene.
- Full-screen interfaces: they cover their output whole, fading in and out is not part of this model, and the lock surface is its region at the output's origin.
- Key names: cutting key text at `+`, case folding and the tables of key and modifier names; from the parsed pieces on, keys are modelled.
- Keys.Assemble: the warning about a redundant modifier.
- Lookups of binds for several keysyms of one press: each keysym is looked up in turn; here one keysym at a time. The hard-coded virtual-terminal and power keys come before any table.
- Options of a bind (repeat, cooldown, inhibiting, titles) and the other recent-windows settings: merged field by field.
- TransientOutputs.OutputConfig.ReloadConfig: only the output sections; whether another setting asks for reconfiguring is a parameter.
- Keyboard focus, pointer constraints, screencasting, the layout tree and effects: not part of this model.
