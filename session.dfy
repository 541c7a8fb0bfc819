/** A session of the player: the state the provider starts with, changed by a
    sequence of handler calls, each one atomic. This is where properties of
    every reachable state, and of several calls in a row, are stated. */
module Session {
  import PlaybackState
  import Player

  /** One call of a handler, with its arguments; `draw` is the value that
      Math.random() returns during the call. */
  datatype Call =
    | Play(episode: PlaybackState.Episode)
    | PlayList(list: seq<PlaybackState.Episode>, index: int)
    | TogglePlay
    | SetPlayingState(state: bool)
    | ToogleLooping
    | ToogleShuffling
    | ClearPlayerState
    | PlayNext(draw: PlaybackState.RandomDraw)
    | PlayPrevious
    | EpisodeEnded(draw: PlaybackState.RandomDraw)

  /** `playList`'s caller contract: the start index is a position of the list
      (an empty list cannot break the cursor invariant either). Every other
      handler accepts any argument. */
  predicate WithinContract(c: Call) {
    c.PlayList? ==> c.list == [] || 0 <= c.index < |c.list|
  }

  /** The state after one call. */
  function Apply(s: PlaybackState.PlayerState, c: Call): PlaybackState.PlayerState {
    match c
    case Play(e) => PlaybackState.Play(s, e)
    case PlayList(list, index) => PlaybackState.PlayList(s, list, index)
    case TogglePlay => PlaybackState.TogglePlay(s)
    case SetPlayingState(b) => PlaybackState.SetPlayingState(s, b)
    case ToogleLooping => PlaybackState.ToogleLooping(s)
    case ToogleShuffling => PlaybackState.ToogleShuffling(s)
    case ClearPlayerState => PlaybackState.ClearPlayerState(s)
    case PlayNext(draw) => PlaybackState.PlayNext(s, draw)
    case PlayPrevious => PlaybackState.PlayPrevious(s)
    case EpisodeEnded(draw) => Player.EndOfEpisode(s, draw)
  }

  /** The state after the calls, in order. */
  function Run(s: PlaybackState.PlayerState, calls: seq<Call>): PlaybackState.PlayerState
    decreases |calls|
  {
    if calls == [] then s else Run(Apply(s, calls[0]), calls[1..])
  }

  /** One call within the contract keeps the cursor invariant. */
  lemma ApplyKeepsCursorInRange(s: PlaybackState.PlayerState, c: Call)
    requires PlaybackState.CursorInRange(s) && WithinContract(c)
    ensures PlaybackState.CursorInRange(Apply(s, c))
  {
  }

  /** Any sequence of calls within the contract keeps the cursor invariant. */
  lemma {:induction false} RunKeepsCursorInRange(s: PlaybackState.PlayerState, calls: seq<Call>)
    requires PlaybackState.CursorInRange(s)
    requires forall i :: 0 <= i < |calls| ==> WithinContract(calls[i])
    ensures PlaybackState.CursorInRange(Run(s, calls))
    decreases |calls|
  {
    if calls != [] {
      ApplyKeepsCursorInRange(s, calls[0]);
      RunKeepsCursorInRange(Apply(s, calls[0]), calls[1..]);
    }
  }

  /** Every state the provider can reach, with `playList` used within its
      contract, has its cursor in range. */
  lemma ReachableStatesHaveCursorInRange(calls: seq<Call>)
    requires forall i :: 0 <= i < |calls| ==> WithinContract(calls[i])
    ensures PlaybackState.CursorInRange(Run(PlaybackState.Initial, calls))
  {
    RunKeepsCursorInRange(PlaybackState.Initial, calls);
  }

  /** isLooping and isShuffling are preferences: only their own toggles
      change them. */
  lemma {:induction false} PreferencesChangeOnlyByToggles(s: PlaybackState.PlayerState, calls: seq<Call>)
    ensures (forall i :: 0 <= i < |calls| ==> !calls[i].ToogleLooping?) ==>
              Run(s, calls).isLooping == s.isLooping
    ensures (forall i :: 0 <= i < |calls| ==> !calls[i].ToogleShuffling?) ==>
              Run(s, calls).isShuffling == s.isShuffling
    decreases |calls|
  {
    if calls != [] {
      PreferencesChangeOnlyByToggles(Apply(s, calls[0]), calls[1..]);
      assert forall i :: 1 <= i < |calls| ==> calls[1..][i - 1] == calls[i];
    }
  }

  /** Without shuffle, a queue plays through in order: each end of an episode
      moves to the next one, and the end of the last one empties the queue
      (flags untouched). Until then the queue is kept. */
  lemma {:induction false} QueuePlaysOutThenClears(s: PlaybackState.PlayerState, calls: seq<Call>)
    requires !s.isShuffling && PlaybackState.CursorInRange(s) && s.episodeList != []
    requires forall i :: 0 <= i < |calls| ==> calls[i].EpisodeEnded?
    requires |calls| <= |s.episodeList| - s.currentEpisodeIndex
    ensures |calls| < |s.episodeList| - s.currentEpisodeIndex ==>
              Run(s, calls) == s.(currentEpisodeIndex := s.currentEpisodeIndex + |calls|)
    ensures |calls| == |s.episodeList| - s.currentEpisodeIndex ==>
              Run(s, calls) == PlaybackState.ClearPlayerState(s)
    decreases |calls|
  {
    if calls != [] {
      var t := Apply(s, calls[0]);
      if s.currentEpisodeIndex + 1 < |s.episodeList| {
        assert t == s.(currentEpisodeIndex := s.currentEpisodeIndex + 1);
        assert forall i :: 0 <= i < |calls[1..]| ==> calls[1..][i] == calls[i + 1];
        QueuePlaysOutThenClears(t, calls[1..]);
      } else {
        assert t == PlaybackState.ClearPlayerState(s);
        assert calls[1..] == [];
      }
    }
  }

  /** With shuffle on, the end of an episode never empties a non-empty
      queue: the cursor only jumps between its positions. */
  lemma {:induction false} ShuffleNeverEmptiesQueue(s: PlaybackState.PlayerState, calls: seq<Call>)
    requires s.isShuffling && PlaybackState.CursorInRange(s)
    requires forall i :: 0 <= i < |calls| ==> calls[i].EpisodeEnded?
    ensures Run(s, calls).episodeList == s.episodeList
    ensures Run(s, calls).isShuffling && PlaybackState.CursorInRange(Run(s, calls))
    decreases |calls|
  {
    if calls != [] {
      assert forall i :: 0 <= i < |calls[1..]| ==> calls[1..][i] == calls[i + 1];
      ShuffleNeverEmptiesQueue(Apply(s, calls[0]), calls[1..]);
    }
  }

  /** A three-episode queue started at the first episode, without shuffle:
      `playNext` goes to the second, then the third, then does nothing, and
      no next episode is left. */
  lemma ThreeEpisodeQueue(a: PlaybackState.Episode, b: PlaybackState.Episode, c: PlaybackState.Episode,
                          draw: PlaybackState.RandomDraw)
    ensures var s0 := Run(PlaybackState.Initial, [PlayList([a, b, c], 0)]);
            var s1 := Apply(s0, PlayNext(draw));
            var s2 := Apply(s1, PlayNext(draw));
            var s3 := Apply(s2, PlayNext(draw));
            s1.currentEpisodeIndex == 1 && s2.currentEpisodeIndex == 2 &&
            s3 == s2 && !PlaybackState.HasNext(s3)
  {
  }

  /** A single episode played from the start has no neighbours. */
  lemma SingleEpisodeHasNoNeighbours(e: PlaybackState.Episode)
    ensures var s := Apply(PlaybackState.Initial, Play(e));
            !PlaybackState.HasNext(s) && !PlaybackState.HasPrevious(s)
  {
  }

  /** The end of the second of two episodes, without shuffle or loop, empties
      the queue. */
  lemma LastEpisodeEndEmptiesQueue(a: PlaybackState.Episode, b: PlaybackState.Episode,
                                   draw: PlaybackState.RandomDraw)
    ensures var s := Run(PlaybackState.Initial, [PlayList([a, b], 1), EpisodeEnded(draw)]);
            s.episodeList == [] && s.currentEpisodeIndex == 0 && Player.CurrentEpisode(s).None?
  {
    var loaded := Apply(PlaybackState.Initial, PlayList([a, b], 1));
    assert [PlayList([a, b], 1), EpisodeEnded(draw)][1..] == [EpisodeEnded(draw)];
    assert Run(loaded, [EpisodeEnded(draw)]) == Apply(loaded, EpisodeEnded(draw));
  }

  /** With shuffle on, a single-episode queue still reports a next episode. */
  lemma ShuffleReportsNextForSingleEpisode(e: PlaybackState.Episode)
    ensures PlaybackState.HasNext(Run(PlaybackState.Initial, [ToogleShuffling, Play(e)]))
  {
    var shuffling := Apply(PlaybackState.Initial, ToogleShuffling);
    assert [ToogleShuffling, Play(e)][1..] == [Play(e)];
    assert Run(shuffling, [Play(e)]) == Apply(shuffling, Play(e));
  }
}
