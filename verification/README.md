# A verified model of the Bitmovin player adapter for React

The adapter (`src/BitmovinPlayer.tsx`) mounts the proprietary Bitmovin video player inside a
React component. On mount it creates a fresh container `<div>` holding a fresh `<video>` under
the component's root `<div>`, constructs the player there with a configuration whose `ui` is
forced to `false`, attaches a UI (none, a custom container, custom variants, or the library's
default), and publishes the player through the `playerRef` prop. A second effect keeps the
player's source in step with the `source` prop; when the component was created without a
source, every unload is skipped until the first load or unload happens. On unmount it hides its own container at once, starts the player's
asynchronous `destroy`, and removes the container when the destroy settles, whichever way it
settles. Giving every mount its own container is what keeps React's strict mode (mount,
unmount, mount in quick succession) from letting an old instance's teardown reach the new one.

The model, module by module:

- `Dom` (`dom.dfy`): the root element as a class whose `children` field is a sequence of
  container values (id, visible, videos); `Hide` and `Remove` are the specification functions
  of `style.display = "none"` and `removeChild`, with the lemmas about them (removal of exactly
  one container, teardown isolation, the double-invoke collapse). `Document` hands out fresh
  element ids.
- `PlayerApi`, `PlayerUi`, `ReactRefs`: the external player as a class that only records the
  calls made on it, the UI library and UI factories as logged calls, and the two kinds of
  React ref.
- `SourceSync` (`source_sync.dfy`): the source effect's decision as a function of its two
  flags, runs of observations, and a flag-free reference description of which calls a run
  makes, proved equal to the run.
- `BitmovinPlayerAdapter` (`bitmovin_player.dfy`): the core file: `setRef`,
  `initializePlayerUi`, `convertConfig`, `initializePlayer`, `preparePlayerElements`,
  `destroyPlayer` and its settlement continuation, and the component itself as the class
  `BitmovinPlayer` whose methods are the root ref handler, the mount effect and the source
  effect. The source effect's method is proved against `SourceSync.Observe`.
- `Scenarios` (`scenarios.dfy`): client runs that repeat the component's tests.

## Model

| member | source | states |
|---|---|---|
| `BitmovinPlayerAdapter.SetRef` | src/BitmovinPlayer.tsx:162-168 | a callback ref is invoked once with the value; an object ref holds the value in `.current`; nothing else changes |
| `BitmovinPlayerAdapter.InitializePlayerUi` | src/BitmovinPlayer.tsx:170-185 | exactly one UI is attached unless `ui` is `false`, when nothing is called; at most one factory is invoked, and what it built goes to a manager over this player |
| `BitmovinPlayerAdapter.UiStrategyPrecedence` | src/BitmovinPlayer.tsx:175-184 | a container factory wins over a variants factory; a variants factory is used only without one; `undefined` or an object without factories gives the default UI |
| `BitmovinPlayerAdapter.ConvertConfig` | src/BitmovinPlayer.tsx:187-198 | the result has `ui` false, the original's keys plus `ui`, and the original's value for every other key |
| `BitmovinPlayerAdapter.ConvertConfigCharacterized` | src/BitmovinPlayer.tsx:187-198 | a configuration is the converted copy exactly when it has those three properties (both directions) |
| `BitmovinPlayerAdapter.ConvertConfigIgnoresUi` | src/BitmovinPlayer.tsx:22-25 | whatever `config.ui` the caller passes is ignored, and converting twice is converting once |
| `BitmovinPlayerAdapter.PreparePlayerElements` | src/BitmovinPlayer.tsx:212-223 | one new visible container holding one new video is appended, both with ids the document had not handed out before; the existing children are unchanged and in order |
| `BitmovinPlayerAdapter.InitializePlayer` | src/BitmovinPlayer.tsx:200-210 | a new player built on that container with the converted configuration, whose only call so far is `setVideoElement` with that video |
| `BitmovinPlayerAdapter.DestroyPlayer` | src/BitmovinPlayer.tsx:225-237 | the instance's own container is hidden, every other child is unchanged, and `destroy` is called once on the player |
| `BitmovinPlayerAdapter.SettleDestroy` | src/BitmovinPlayer.tsx:232-238 | on either outcome the instance's container is removed and only it; `found` says whether it was still a child |
| `BitmovinPlayerAdapter.BitmovinPlayer.constructor` | src/BitmovinPlayer.tsx:82-85 | "initial source empty" is whether the source prop was absent, "changed at least once" is false, no player yet |
| `BitmovinPlayerAdapter.BitmovinPlayer.AttachRoot` | src/BitmovinPlayer.tsx:71-80 | the root ref holds the element and the forwarded ref receives it |
| `BitmovinPlayerAdapter.BitmovinPlayer.Mount` | src/BitmovinPlayer.tsx:88-130 | without a root nothing happens (no element created, player ref untouched); otherwise one new container with one new video (ids never handed out before) is appended, a fresh player on it gets that video and the converted configuration, the UI calls are those of `InitializePlayerUi`, the player ref and the player state receive the player, and the cleanup captures player, root and container |
| `BitmovinPlayerAdapter.BitmovinPlayer.ObserveSource` | src/BitmovinPlayer.tsx:133-157 | the flags and the player's new calls are exactly those `SourceSync.Observe` prescribes; without a player, nothing |
| `SourceSync.Observe` | src/BitmovinPlayer.tsx:133-156 | no player: no call, flags kept; a source: exactly one `load` of it and the flag set; no source: no call iff the unload is skipped (initial source empty and nothing changed yet), else exactly one `unload` and the flag set; "initial source empty" never changes and "changed" never goes back to false |
| `SourceSync.FlagsAfter` | src/BitmovinPlayer.tsx:82-83 | after any run from creation, "initial source empty" is unchanged and "changed at least once" holds iff something was observed and not every observation was absent from an empty start |
| `SourceSync.ObserveAllMatchesReference` | src/BitmovinPlayer.tsx:138-156 | every run from creation makes exactly the reference calls: a load per present source, and an unload per absent one unless the initial source was empty and all earlier observations were absent |
| `SourceSync.FlagsMonotone` | src/BitmovinPlayer.tsx:140-154 | along any run from any flags, "initial source empty" keeps its value and "changed at least once" never returns to false |
| `SourceSync.AbsentFromEmptyStartNeverUnloads` | src/BitmovinPlayer.tsx:141-152 | from an empty initial source, any run of absent sources makes no player call at all |
| `SourceSync.LoadUnloadLoad` | src/BitmovinPlayer.tsx:138-156 | present, absent, present gives load, unload, load from any flags |
| `SourceSync.LoadUnloadLoadAfterAnyPrefix` | src/BitmovinPlayer.tsx:138-156 | after any earlier observations, present, absent, present appends exactly load, unload, load to the calls made so far |
| `Dom.Hide` | src/BitmovinPlayer.tsx:230 | same length; the container with the id is hidden and every other one is unchanged in place |
| `Dom.Remove` | src/BitmovinPlayer.tsx:233 | no container with the removed id is left and the result is no longer than the input; that every other container stays and nothing is added is stated by `Dom.RemoveMembers` |
| `Dom.RemoveMembers` | src/BitmovinPlayer.tsx:233 | a container stays iff it was a child and its id is not the removed one |
| `Dom.RemoveExactlyOne` | src/BitmovinPlayer.tsx:232-234 | with distinct ids, removing a child's id takes out exactly that child and keeps the others in order |
| `Dom.RemoveAbsent` | src/BitmovinPlayer.tsx:233 | removing an id no child carries changes nothing |
| `Dom.TeardownIsolation` | src/BitmovinPlayer.tsx:225-239 | hiding and then removing one instance's container leaves every other instance's container as it was, and that container is gone |
| `Dom.StrictModeCollapse` | src/BitmovinPlayer.test.tsx:50-60 | mount, unmount, mount gives two more containers and videos with one visible; settling the first destroy leaves one more of each, the newer container untouched |
| `Dom.Document.CreateElement` | src/BitmovinPlayer.tsx:213-214 | each created element gets an id no earlier element had |
| `Dom.RootElement.AppendChild` | src/BitmovinPlayer.tsx:216 | the child goes last (moved if it was already there) and ids stay distinct |
| `Dom.RootElement.HideChild` | src/BitmovinPlayer.tsx:230 | the children become `Hide` of the old children |
| `Dom.RootElement.RemoveChild` | src/BitmovinPlayer.tsx:233 | the children become `Remove` of the old ones; `found` says whether the id was a child, and if not nothing changes |
| `PlayerApi.Player.SetVideoElement` | src/BitmovinPlayer.tsx:207 | one `setVideoElement` call is added to the log |
| `PlayerApi.Player.Load` | src/BitmovinPlayer.tsx:139 | one `load` call with the source is added to the log |
| `PlayerApi.Player.Unload` | src/BitmovinPlayer.tsx:153 | one `unload` call is added to the log |
| `PlayerApi.Player.Destroy` | src/BitmovinPlayer.tsx:236-237 | one `destroy` call is added to the log |
| `Scenarios.RenderWithoutSource` | src/BitmovinPlayer.test.tsx:22-32 | a render with no source leaves one visible container and one video, and never unloads |
| `Scenarios.MountUnmountMount` | src/BitmovinPlayer.tsx:96-125 | after mount, unmount, mount the root holds the first container hidden and the second visible, each with its own, distinct video; the first player was handed its video and destroyed, the second only handed its video |
| `Scenarios.StrictModeRender` | src/BitmovinPlayer.test.tsx:39-62 | under double invocation there are two videos and one visible container before the first destroy settles and one of each after, the survivor being the second player's; the first player was handed its video and then destroyed exactly once, the second not destroyed |
| `Scenarios.SourceSetClearedAndSetAgain` | src/BitmovinPlayer.tsx:138-156 | a source set, cleared and set again gives load, unload, load after `setVideoElement` |

## Left out

- React itself: `forwardRef`, `useState`, `useEffect` scheduling and dependency arrays, and JSX
  rendering. Effect runs are explicit method calls; when they run is up to the caller. So the
  claim that changing only the ref props does not rebuild the player (it rests on the mount
  effect's empty dependency array) is not modelled.
- The player engine and the UI library: the player is a call log; `UIManager` and
  `UIFactory.buildDefaultUI` are logged calls; what a factory builds is named after the
  factory. The player's "destroyed" event and the UI manager's release are not used by the
  adapter and are not modelled.
- The asynchrony of `destroy`: the promise is replaced by the explicit `SettleDestroy` event,
  which the caller issues after `DestroyPlayer`; both outcomes run the same code.
- `PreparePlayerElements` builds the container with its video and then appends it, where the
  source appends the empty container and then the video into it; the resulting tree is the same.
- `className` and styling: visibility is the boolean `visible`; `style.display` values are not
  modelled.
- A `ui` object whose `containerFactory` key is present but not a function would make the
  source throw; the model represents a present key as a present factory.
- `removeChild` of a node that is no longer a child throws in the browser (inside the promise
  continuation); the model reports it as `found == false` and changes nothing.
- The errors the player's constructor, `load`, `unload` and `destroy` may raise belong to the
  player; the adapter does not catch them, and the model's player never fails.
- The test double `src/testUtils/FakePlayer.ts`, the query helpers, the Jest configuration and
  the example application are not part of this model.
- Nothing in the code bounds the number of live players per component instance beyond giving
  each mount its own container; the model follows the code and states no such bound.
