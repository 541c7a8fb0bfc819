/** The decision logic of the player component: which episode it shows, when
    each control button is disabled or highlighted, what happens when an
    episode ends, and how seeking and the audio device's play/pause events
    reach the state. Rendering and the audio device itself are not modelled. */
module Player {
  import PlaybackState
  import PlayerContext

  datatype Option<T> = None | Some(value: T)

  /** `episode`: the queue entry under the cursor, or nothing (JavaScript's
      `undefined`) when the cursor is not a position of the queue. */
  function CurrentEpisode(s: PlaybackState.PlayerState): (r: Option<PlaybackState.Episode>)
    ensures r.Some? ==> r.value in s.episodeList
    ensures PlaybackState.CursorInRange(s) ==> (r.Some? <==> s.episodeList != [])
    ensures PlaybackState.CursorInRange(s) && s.episodeList != [] ==>
              r == Some(s.episodeList[s.currentEpisodeIndex])
  {
    if 0 <= s.currentEpisodeIndex < |s.episodeList| then Some(s.episodeList[s.currentEpisodeIndex]) else None
  }

  /** The shuffle button is disabled with no episode or a one-episode queue. */
  function ShuffleDisabled(s: PlaybackState.PlayerState): (r: bool)
    ensures PlaybackState.CursorInRange(s) ==> (r <==> |s.episodeList| <= 1)
  {
    CurrentEpisode(s).None? || |s.episodeList| == 1
  }

  /** The shuffle button is highlighted only for a queue of two or more. */
  function ShuffleShownActive(s: PlaybackState.PlayerState): (r: bool)
    ensures r ==> s.isShuffling
    ensures PlaybackState.CursorInRange(s) && r ==> !ShuffleDisabled(s)
    ensures s.isShuffling && PlaybackState.CursorInRange(s) ==> (r <==> !ShuffleDisabled(s))
  {
    s.isShuffling && |s.episodeList| > 1
  }

  /** The previous button is disabled with no episode or no previous one. */
  function PreviousDisabled(s: PlaybackState.PlayerState): (r: bool)
    ensures PlaybackState.CursorInRange(s) ==>
              (r <==> s.episodeList == [] || s.currentEpisodeIndex == 0)
    ensures !r ==> PlaybackState.PlayPrevious(s).currentEpisodeIndex == s.currentEpisodeIndex - 1
  {
    CurrentEpisode(s).None? || !PlaybackState.HasPrevious(s)
  }

  /** The play/pause button is disabled with no episode. */
  function PlayPauseDisabled(s: PlaybackState.PlayerState): (r: bool)
    ensures PlaybackState.CursorInRange(s) ==> (r <==> s.episodeList == [])
  {
    CurrentEpisode(s).None?
  }

  /** The next button is disabled with no episode or no next one; under
      shuffle it is enabled whenever an episode is shown. */
  function NextDisabled(s: PlaybackState.PlayerState): (r: bool)
    ensures PlaybackState.CursorInRange(s) ==>
              (r <==> s.episodeList == [] ||
                      (!s.isShuffling && s.currentEpisodeIndex == |s.episodeList| - 1))
    ensures !r && !s.isShuffling ==> s.currentEpisodeIndex + 1 < |s.episodeList|
  {
    CurrentEpisode(s).None? || !PlaybackState.HasNext(s)
  }

  /** The loop button is disabled with no episode. */
  function LoopDisabled(s: PlaybackState.PlayerState): (r: bool)
    ensures PlaybackState.CursorInRange(s) ==> (r <==> s.episodeList == [])
    ensures r == PlayPauseDisabled(s)
  {
    CurrentEpisode(s).None?
  }

  /** The loop button is highlighted exactly when looping is on, whatever
      the queue holds. */
  function LoopShownActive(s: PlaybackState.PlayerState): (r: bool)
    ensures r <==> s.isLooping
  {
    s.isLooping
  }

  /** Clicking the loop button flips its highlight without enabling or
      disabling it, and the highlight outlives the queue: neither the end of
      an episode nor clearing the queue changes it, unlike the shuffle
      highlight, which needs two or more episodes queued. */
  lemma LoopButtonFlipsHighlight(s: PlaybackState.PlayerState, draw: PlaybackState.RandomDraw)
    ensures LoopShownActive(PlaybackState.ToogleLooping(s)) != LoopShownActive(s)
    ensures LoopDisabled(PlaybackState.ToogleLooping(s)) == LoopDisabled(s)
    ensures LoopShownActive(EndOfEpisode(s, draw)) == LoopShownActive(s)
    ensures LoopShownActive(PlaybackState.ClearPlayerState(s)) == LoopShownActive(s)
    ensures !ShuffleShownActive(PlaybackState.ClearPlayerState(s))
  {
  }

  /** `handleEpisodeEnded`: advance when there is a next episode, otherwise
      empty the queue. It does not look at isLooping. */
  function EndOfEpisode(s: PlaybackState.PlayerState, draw: PlaybackState.RandomDraw): (r: PlaybackState.PlayerState)
    ensures r.isPlaying == s.isPlaying && r.isLooping == s.isLooping && r.isShuffling == s.isShuffling
    ensures r.episodeList == s.episodeList || r.episodeList == []
    ensures s.isShuffling ==> r.episodeList == s.episodeList
    ensures !s.isShuffling && PlaybackState.CursorInRange(s) && s.episodeList != [] ==>
              if s.currentEpisodeIndex + 1 < |s.episodeList|
              then r == s.(currentEpisodeIndex := s.currentEpisodeIndex + 1)
              else r.episodeList == [] && r.currentEpisodeIndex == 0
    ensures PlaybackState.CursorInRange(s) ==> PlaybackState.CursorInRange(r)
  {
    if PlaybackState.HasNext(s) then PlaybackState.PlayNext(s, draw) else PlaybackState.ClearPlayerState(s)
  }

  /** With shuffle left on and a single episode queued (after `play`), the
      shuffle button is disabled and not highlighted, so it cannot be turned
      off from here, the next button stays enabled, and the end of the
      episode neither clears the queue nor moves the cursor. */
  lemma ShuffleOnSingleEpisode(s: PlaybackState.PlayerState, draw: PlaybackState.RandomDraw)
    requires s.isShuffling && |s.episodeList| == 1 && PlaybackState.CursorInRange(s)
    ensures ShuffleDisabled(s) && !ShuffleShownActive(s)
    ensures !NextDisabled(s)
    ensures EndOfEpisode(s, draw) == s
  {
  }

  /** The component: its local `progress` cell and the context it reads. */
  class Player {
    const context: PlayerContext.PlayerContextProvider
    var progress: real

    constructor (context: PlayerContext.PlayerContextProvider)
      ensures this.context == context && progress == 0.0
    {
      this.context := context;
      progress := 0.0;
    }

    /** `handleSeek`: the shown progress becomes the requested position at
        once; the device's own seek is not modelled. */
    method HandleSeek(amount: real)
      modifies this
      ensures progress == amount
    {
      progress := amount;
    }

    /** `draw` is the value Math.random() returns if `playNext` runs. */
    method HandleEpisodeEnded(draw: PlaybackState.RandomDraw)
      modifies context
      ensures context.State() == EndOfEpisode(old(context.State()), draw)
      ensures old(context.Valid()) ==> context.Valid()
    {
      if PlaybackState.HasNext(context.State()) {
        context.PlayNext(draw);
      } else {
        context.ClearPlayerState();
      }
    }

    /** The audio element's `onPlay` event. */
    method OnPlay()
      modifies context
      ensures context.State() == PlaybackState.SetPlayingState(old(context.State()), true)
    {
      context.SetPlayingState(true);
    }

    /** The audio element's `onPause` event. */
    method OnPause()
      modifies context
      ensures context.State() == PlaybackState.SetPlayingState(old(context.State()), false)
    {
      context.SetPlayingState(false);
    }
  }
}
