/** The player context provider: one object whose five fields are the
    provider's state cells, and one method per handler it hands to its
    consumers. Each method is one atomic step over a consistent pre-state and
    is proved to leave the state that module PlaybackState gives for it. */
module PlayerContext {
  import PlaybackState

  class PlayerContextProvider {
    var episodeList: seq<PlaybackState.Episode>
    var currentEpisodeIndex: int
    var isPlaying: bool
    var isLooping: bool
    var isShuffling: bool

    /** The value of the five cells. */
    function State(): PlaybackState.PlayerState
      reads this
    {
      PlaybackState.PlayerState(episodeList, currentEpisodeIndex, isPlaying, isLooping, isShuffling)
    }

    /** The cursor invariant, which every handler keeps and `playList` keeps
        when its caller gives an index inside the list. */
    ghost predicate Valid()
      reads this
    {
      PlaybackState.CursorInRange(State())
    }

    /** The provider's first render: nothing queued, every flag off. */
    constructor ()
      ensures State() == PlaybackState.Initial
      ensures Valid()
    {
      episodeList := [];
      currentEpisodeIndex := 0;
      isPlaying := false;
      isLooping := false;
      isShuffling := false;
    }

    method Play(episode: PlaybackState.Episode)
      modifies this
      ensures State() == PlaybackState.Play(old(State()), episode)
      ensures Valid()
    {
      episodeList := [episode];
      currentEpisodeIndex := 0;
      isPlaying := true;
    }

    method PlayList(list: seq<PlaybackState.Episode>, index: int)
      modifies this
      ensures State() == PlaybackState.PlayList(old(State()), list, index)
      ensures Valid() <==> list == [] || 0 <= index < |list|
    {
      episodeList := list;
      currentEpisodeIndex := index;
      isPlaying := true;
    }

    method TogglePlay()
      modifies this
      ensures State() == PlaybackState.TogglePlay(old(State()))
      ensures Valid() == old(Valid())
    {
      isPlaying := !isPlaying;
    }

    method ToogleLooping()
      modifies this
      ensures State() == PlaybackState.ToogleLooping(old(State()))
      ensures Valid() == old(Valid())
    {
      isLooping := !isLooping;
    }

    method SetPlayingState(state: bool)
      modifies this
      ensures State() == PlaybackState.SetPlayingState(old(State()), state)
      ensures Valid() == old(Valid())
    {
      isPlaying := state;
    }

    method ToogleShuffling()
      modifies this
      ensures State() == PlaybackState.ToogleShuffling(old(State()))
      ensures Valid() == old(Valid())
    {
      isShuffling := !isShuffling;
    }

    method ClearPlayerState()
      modifies this
      ensures State() == PlaybackState.ClearPlayerState(old(State()))
      ensures Valid()
    {
      episodeList := [];
      currentEpisodeIndex := 0;
    }

    /** `draw` is the value Math.random() returns during this call. */
    method PlayNext(draw: PlaybackState.RandomDraw)
      modifies this
      ensures State() == PlaybackState.PlayNext(old(State()), draw)
      ensures old(Valid()) ==> Valid()
    {
      if isShuffling {
        var nextRandomEpisodeIndex := PlaybackState.RandomIndex(|episodeList|, draw);
        currentEpisodeIndex := nextRandomEpisodeIndex;
      } else if PlaybackState.HasNext(State()) {
        currentEpisodeIndex := currentEpisodeIndex + 1;
      }
    }

    method PlayPrevious()
      modifies this
      ensures State() == PlaybackState.PlayPrevious(old(State()))
      ensures old(Valid()) ==> Valid()
    {
      if PlaybackState.HasPrevious(State()) {
        currentEpisodeIndex := currentEpisodeIndex - 1;
      }
    }
  }
}
