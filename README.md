# Podcastr player state, modelled in Dafny

This project models the playback state of the Podcastr web player and the
decision logic of its player bar.

The player context provider keeps five state cells: the episode queue
(`episodeList`), the cursor into it (`currentEpisodeIndex`), and the flags
`isPlaying`, `isLooping` and `isShuffling`. It hands its consumers nine
handlers: `play`, `playList`, `togglePlay`, `setPlayingState`, `toogleLooping`,
`toogleShuffling`, `clearPlayerState`, `playNext` and `playPrevious`. It also
derives two flags, `hasNext` and `hasPrevious`. The player component reads
this state. From it, it picks the episode to show and decides which control
buttons are disabled or highlighted. It also decides what happens when an
episode ends, keeps a local `progress` value for seeking, and forwards the
audio element's play and pause events back into the state.

The central invariant is `CursorInRange`: when the queue is non-empty, the
cursor is one of its positions.

- File `playback_state.dfy`, module `PlaybackState`: the state as a value. It has one pure function per handler and the two derived flags. Each function's contract says what the handler changes and what it leaves alone. Every handler except `playList` keeps `CursorInRange`; `playList` establishes it exactly when the list is empty or the index is one of its positions.
- File `player_context.dfy`, module `PlayerContext`: the provider as a class. Its five fields are the state cells, and it has one method per handler. Each method writes the fields the way the handler calls the setters. Each is proved to leave exactly the state the matching `PlaybackState` function gives.
- File `player.dfy`, module `Player`: the component's logic. It holds the `episode` lookup, the button predicates and the end-of-episode rule as functions. The class `Player` holds the `progress` cell and the handlers `handleSeek`, `handleEpisodeEnded`, `onPlay` and `onPause`.
- File `session.dfy`, module `Session`: runs of handler calls starting from the provider's initial state. It proves that every state reachable while `playList` is given a position of its list (or an empty list) has its cursor in range. It proves that the loop and shuffle flags change only through their own toggles. It proves that without shuffle a queue plays through in order and then empties, and that with shuffle it never empties. It also states four example scenarios: a three-episode queue stepped through with `playNext`, a single episode with no neighbours, the end of the last of two episodes, and shuffle on a single episode.

Each handler is one atomic step over a consistent pre-state. `hasNext` and
`hasPrevious` are read from the same state the handler runs on.
`Math.random()` is a caller-supplied draw, a real number in [0, 1). The shuffle
then picks `Floor(draw * |episodeList|)`, as the source does.

## Model

| member | source | states |
|---|---|---|
| PlaybackState.HasPrevious | src/contexts/PlayerContext.tsx:78 | with the cursor in range and a non-empty queue, true exactly when the position before the cursor is an episode of the queue |
| PlaybackState.HasNext | src/contexts/PlayerContext.tsx:79 | always true under shuffle, even for an empty or one-episode queue; otherwise, with the cursor in range on a non-empty queue, true exactly when the position after the cursor is an episode of the queue |
| PlaybackState.Play | src/contexts/PlayerContext.tsx:45-49 | the queue becomes exactly the one episode, the cursor 0 and isPlaying true; loop and shuffle keep their values; the result has its cursor in range, no previous episode, and a next episode only under shuffle |
| PlaybackState.PlayList | src/contexts/PlayerContext.tsx:51-55 | the queue becomes the list, the cursor the unchecked index and isPlaying true; loop and shuffle keep their values; the cursor is in range afterwards if and only if the list is empty or the index is one of its positions |
| PlaybackState.TogglePlay | src/contexts/PlayerContext.tsx:57-59 | isPlaying is negated and every other cell is unchanged |
| PlaybackState.SetPlayingState | src/contexts/PlayerContext.tsx:65-67 | isPlaying becomes the given value whatever it was, and nothing else changes; setting the value it already has is a no-op |
| PlaybackState.ToogleLooping | src/contexts/PlayerContext.tsx:61-63 | isLooping is negated and every other cell is unchanged |
| PlaybackState.ToogleShuffling | src/contexts/PlayerContext.tsx:69-71 | isShuffling is negated and every other cell is unchanged |
| PlaybackState.ClearPlayerState | src/contexts/PlayerContext.tsx:73-76 | the queue becomes empty and the cursor 0; all three flags are kept; afterwards there is no previous episode and there is a next one only under shuffle |
| PlaybackState.RandomIndex | src/contexts/PlayerContext.tsx:84 | the shuffle's pick is a position of the queue when the queue is non-empty, and 0 when it is empty |
| PlaybackState.RandomIndexReachesEveryIndex | src/contexts/PlayerContext.tsx:84 | every position of a non-empty queue is picked by some draw, so no position is excluded |
| PlaybackState.PlayNext | src/contexts/PlayerContext.tsx:81-89 | the queue and flags never change; under shuffle the cursor lands on a position of a non-empty queue, or on 0 for an empty one; without shuffle the cursor moves up by exactly one if and only if a next position exists, and otherwise the state is unchanged; the cursor invariant is kept |
| PlaybackState.ShuffleCanPickAnyEpisode | src/contexts/PlayerContext.tsx:83-85 | under shuffle, every episode of the queue, the current one included, can be where the next call of `playNext` lands |
| PlaybackState.PlayPrevious | src/contexts/PlayerContext.tsx:91-95 | the queue and flags never change; the cursor goes down by one if and only if it was positive; a non-negative cursor stays non-negative; with no previous episode the state is unchanged; the cursor invariant is kept |
| PlaybackState.TogglesAreInvolutions | src/contexts/PlayerContext.tsx:57-71 | applying any one of the three toggles twice restores the state, and any two of the three toggles commute |
| PlayerContext.PlayerContextProvider.constructor | src/contexts/PlayerContext.tsx:39-43 | the provider starts with an empty queue, cursor 0 and all flags false, which satisfies the invariant |
| PlayerContext.PlayerContextProvider.Play | src/contexts/PlayerContext.tsx:45-49 | the fields become the state `PlaybackState.Play` gives, and the invariant holds afterwards |
| PlayerContext.PlayerContextProvider.PlayList | src/contexts/PlayerContext.tsx:51-55 | the fields become the state `PlaybackState.PlayList` gives; the invariant holds afterwards if and only if the list is empty or the index is one of its positions |
| PlayerContext.PlayerContextProvider.TogglePlay | src/contexts/PlayerContext.tsx:57-59 | the fields become the state `PlaybackState.TogglePlay` gives, and whether the invariant holds does not change |
| PlayerContext.PlayerContextProvider.ToogleLooping | src/contexts/PlayerContext.tsx:61-63 | the fields become the state `PlaybackState.ToogleLooping` gives, and whether the invariant holds does not change |
| PlayerContext.PlayerContextProvider.SetPlayingState | src/contexts/PlayerContext.tsx:65-67 | the fields become the state `PlaybackState.SetPlayingState` gives, and whether the invariant holds does not change |
| PlayerContext.PlayerContextProvider.ToogleShuffling | src/contexts/PlayerContext.tsx:69-71 | the fields become the state `PlaybackState.ToogleShuffling` gives, and whether the invariant holds does not change |
| PlayerContext.PlayerContextProvider.ClearPlayerState | src/contexts/PlayerContext.tsx:73-76 | the fields become the state `PlaybackState.ClearPlayerState` gives, and the invariant holds afterwards |
| PlayerContext.PlayerContextProvider.PlayNext | src/contexts/PlayerContext.tsx:81-89 | the fields become the state `PlaybackState.PlayNext` gives for the draw, and the invariant is kept |
| PlayerContext.PlayerContextProvider.PlayPrevious | src/contexts/PlayerContext.tsx:91-95 | the fields become the state `PlaybackState.PlayPrevious` gives, and the invariant is kept |
| Player.CurrentEpisode | src/components/Player/index.tsx:40 | a shown episode is always one of the queue's episodes; with the cursor in range, an episode is shown if and only if the queue is non-empty, and it is the one under the cursor |
| Player.ShuffleDisabled | src/components/Player/index.tsx:115 | with the cursor in range, the shuffle button is disabled exactly when the queue holds at most one episode |
| Player.ShuffleShownActive | src/components/Player/index.tsx:116 | the shuffle button is highlighted only while shuffling, and, with the cursor in range, a highlighted shuffle button is never disabled; while shuffling it is highlighted exactly when it is enabled |
| Player.PreviousDisabled | src/components/Player/index.tsx:119 | with the cursor in range, the previous button is disabled exactly when the queue is empty or the cursor is 0; when it is enabled, `playPrevious` moves the cursor back by one |
| Player.PlayPauseDisabled | src/components/Player/index.tsx:122 | with the cursor in range, the play/pause button is disabled exactly when the queue is empty |
| Player.NextDisabled | src/components/Player/index.tsx:129 | with the cursor in range, the next button is disabled exactly when the queue is empty or, without shuffle, the cursor is on the last episode; when it is enabled without shuffle, a next position exists |
| Player.LoopDisabled | src/components/Player/index.tsx:132 | the loop button is disabled exactly when the play/pause button is, that is, with the cursor in range, exactly when the queue is empty |
| Player.LoopButtonFlipsHighlight | src/components/Player/index.tsx:132-133 | clicking the loop button (`toogleLooping`) flips its highlight and leaves it enabled or disabled as before; the highlight survives the end of an episode and the clearing of the queue, whereas clearing the queue always removes the shuffle highlight |
| Player.EndOfEpisode | src/components/Player/index.tsx:27-33 | the flags never change, and the queue is either kept or emptied; under shuffle it is always kept; without shuffle, on a non-empty queue with the cursor in range, the cursor moves to the next episode if there is one, and otherwise the queue is emptied with cursor 0; the invariant is kept |
| Player.ShuffleOnSingleEpisode | src/components/Player/index.tsx:115-129 | with shuffle on and one episode queued, the shuffle button is disabled and not highlighted, the next button is enabled, and the end of the episode leaves the state unchanged |
| Player.Player.constructor | src/components/Player/index.tsx:12 | the component starts with progress 0 over the given context |
| Player.Player.HandleSeek | src/components/Player/index.tsx:14-17 | the progress becomes exactly the requested amount, and the context is not touched |
| Player.Player.HandleEpisodeEnded | src/components/Player/index.tsx:27-33 | the context's state becomes what `EndOfEpisode` gives for its pre-state; it calls `playNext` when there is a next episode and `clearPlayerState` otherwise; the invariant is kept |
| Player.Player.OnPlay | src/components/Player/index.tsx:109 | the context's state becomes `setPlayingState(true)` of its pre-state |
| Player.Player.OnPause | src/components/Player/index.tsx:110 | the context's state becomes `setPlayingState(false)` of its pre-state |
| Session.ApplyKeepsCursorInRange | src/contexts/PlayerContext.tsx:45-95 | any single handler call, with `playList` within its contract, keeps the cursor invariant |
| Session.RunKeepsCursorInRange | src/contexts/PlayerContext.tsx:45-95 | any sequence of handler calls, with `playList` within its contract, keeps the cursor invariant |
| Session.ReachableStatesHaveCursorInRange | src/contexts/PlayerContext.tsx:38-95 | every state reachable from the provider's initial state, with `playList` within its contract, has its cursor in range |
| Session.PreferencesChangeOnlyByToggles | src/contexts/PlayerContext.tsx:45-95 | a sequence of calls without `toogleLooping` leaves isLooping unchanged, and one without `toogleShuffling` leaves isShuffling unchanged |
| Session.QueuePlaysOutThenClears | src/components/Player/index.tsx:27-33 | without shuffle, each end of an episode moves to the next episode and keeps the queue, until the end of the last one empties the queue and keeps the flags |
| Session.ShuffleNeverEmptiesQueue | src/components/Player/index.tsx:27-33 | with shuffle on, any number of episode ends keeps the queue, keeps shuffle on and keeps the cursor in range |
| Session.ThreeEpisodeQueue | src/contexts/PlayerContext.tsx:81-89 | in a three-episode queue started at 0 without shuffle, `playNext` moves to 1, then to 2, then changes nothing, and no next episode is left |
| Session.SingleEpisodeHasNoNeighbours | src/contexts/PlayerContext.tsx:78-79 | right after `play` of one episode from the initial state, there is neither a next nor a previous episode |
| Session.LastEpisodeEndEmptiesQueue | src/components/Player/index.tsx:27-33 | in the queue [A, B] at index 1 without shuffle, the end of the episode empties the queue, resets the cursor to 0 and leaves no episode to show |
| Session.ShuffleReportsNextForSingleEpisode | src/contexts/PlayerContext.tsx:79 | with shuffle turned on, a single-episode queue still reports a next episode |

## Left out

- Rendering: the JSX layout, the styles, the `Image` component and the slider widget are presentation only. `Player.CurrentEpisode` and the button predicates model the conditions they are drawn from.
- The audio element and the effect that calls its `play()`/`pause()` when isPlaying changes are device I/O. So is its `loop` attribute, which is what stops the end-of-episode event from firing while looping. `EndOfEpisode` therefore does not look at isLooping, as the source does not.
- The device's seek in `handleSeek` (setting `currentTime`) is device I/O. Only the progress update is modelled.
- `setupProgressListener` is left out. It resets the device position and subscribes to the device's time updates, which arrive asynchronously and set progress to the floor of a floating-point time.
- `Math.random()` is a parameter, a real number in [0, 1). The rounding of the floating-point product `Math.random() * episodeList.length` is not modelled.
- JavaScript numbers are doubles. Episode durations and progress are modelled as exact reals, and the cursor as an unbounded integer. A fractional cursor passed to `playList` is not modelled; it would also show no episode.
- React batching and stale closures, for example two toggles in one render that read the same old value, are not modelled. Each handler is one atomic step over a consistent pre-state.
- The time-string formatting helper that the player calls is not part of this model.
- The provider's rendering of its children and the context object's creation are plumbing with no state logic.
