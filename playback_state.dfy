/** The playback state that the player context holds: the episode queue, the
    cursor into it and three flags. Each handler of the context is a pure
    function from the state before the call to the state after it; the class
    in module PlayerContext updates its fields as these functions say. */
module PlaybackState {

  /** An episode as the context receives it. It has no identifier: an episode
      is known by its position in the queue. `duration` is in seconds. */
  datatype Episode = Episode(title: string, members: string, thumbnail: string, duration: real, url: string)

  /** One value of Math.random(): a number in [0, 1), supplied by the caller. */
  type RandomDraw = r: real | 0.0 <= r < 1.0

  /** The five state cells of the provider. The cursor is an unbounded integer
      because `playList` stores whatever index it is given. */
  datatype PlayerState = PlayerState(
    episodeList: seq<Episode>,
    currentEpisodeIndex: int,
    isPlaying: bool,
    isLooping: bool,
    isShuffling: bool)

  /** The state the provider starts with: nothing queued, every flag off. */
  const Initial: PlayerState := PlayerState([], 0, false, false, false)

  /** The central invariant: a non-empty queue has its cursor on one of its episodes. */
  predicate CursorInRange(s: PlayerState) {
    |s.episodeList| > 0 ==> 0 <= s.currentEpisodeIndex < |s.episodeList|
  }

  /** Derived flag: there is an episode before the current one. */
  function HasPrevious(s: PlayerState): (r: bool)
    ensures CursorInRange(s) && s.episodeList != [] ==>
              (r <==> 0 <= s.currentEpisodeIndex - 1 < |s.episodeList|)
  {
    s.currentEpisodeIndex > 0
  }

  /** Derived flag: there is a next episode. Under shuffle it is true whatever
      the queue holds, even when the queue is empty or holds one episode. */
  function HasNext(s: PlayerState): (r: bool)
    ensures s.isShuffling ==> r
    ensures CursorInRange(s) && s.episodeList != [] && !s.isShuffling ==>
              (r <==> 0 <= s.currentEpisodeIndex + 1 < |s.episodeList|)
  {
    s.isShuffling || s.currentEpisodeIndex + 1 < |s.episodeList|
  }

  /** `play`: queue exactly one episode and start it. */
  function Play(s: PlayerState, episode: Episode): (r: PlayerState)
    ensures r.episodeList == [episode] && r.currentEpisodeIndex == 0 && r.isPlaying
    ensures r.isLooping == s.isLooping && r.isShuffling == s.isShuffling
    ensures CursorInRange(r) && !HasPrevious(r) && (HasNext(r) <==> s.isShuffling)
  {
    s.(episodeList := [episode], currentEpisodeIndex := 0, isPlaying := true)
  }

  /** `playList`: queue a whole list and start at `index`, which is not checked. */
  function PlayList(s: PlayerState, list: seq<Episode>, index: int): (r: PlayerState)
    ensures r.episodeList == list && r.currentEpisodeIndex == index && r.isPlaying
    ensures r.isLooping == s.isLooping && r.isShuffling == s.isShuffling
    ensures CursorInRange(r) <==> list == [] || 0 <= index < |list|
  {
    s.(episodeList := list, currentEpisodeIndex := index, isPlaying := true)
  }

  /** `togglePlay`: negate isPlaying and nothing else. */
  function TogglePlay(s: PlayerState): (r: PlayerState)
    ensures r.isPlaying != s.isPlaying
    ensures r == s.(isPlaying := r.isPlaying)
  {
    s.(isPlaying := !s.isPlaying)
  }

  /** `setPlayingState`: set isPlaying to the given value, whatever it was. */
  function SetPlayingState(s: PlayerState, state: bool): (r: PlayerState)
    ensures r.isPlaying == state
    ensures r == s.(isPlaying := r.isPlaying)
    ensures s.isPlaying == state ==> r == s
  {
    s.(isPlaying := state)
  }

  /** `toogleLooping`: negate isLooping and nothing else. */
  function ToogleLooping(s: PlayerState): (r: PlayerState)
    ensures r.isLooping != s.isLooping
    ensures r == s.(isLooping := r.isLooping)
  {
    s.(isLooping := !s.isLooping)
  }

  /** `toogleShuffling`: negate isShuffling and nothing else. */
  function ToogleShuffling(s: PlayerState): (r: PlayerState)
    ensures r.isShuffling != s.isShuffling
    ensures r == s.(isShuffling := r.isShuffling)
  {
    s.(isShuffling := !s.isShuffling)
  }

  /** `clearPlayerState`: empty the queue and reset the cursor; the three flags
      are user preferences and survive. */
  function ClearPlayerState(s: PlayerState): (r: PlayerState)
    ensures r.episodeList == [] && r.currentEpisodeIndex == 0
    ensures r.isPlaying == s.isPlaying && r.isLooping == s.isLooping && r.isShuffling == s.isShuffling
    ensures CursorInRange(r) && !HasPrevious(r) && (HasNext(r) <==> s.isShuffling)
  {
    s.(episodeList := [], currentEpisodeIndex := 0)
  }

  /** Math.floor(draw * n): the shuffle's pick among n episodes. */
  function RandomIndex(n: nat, draw: RandomDraw): (k: int)
    ensures n == 0 ==> k == 0
    ensures n > 0 ==> 0 <= k < n
  {
    (draw * n as real).Floor
  }

  /** Every position of a non-empty queue is the shuffle's pick for some draw,
      the current one included: the shuffle does not avoid repeats. */
  lemma RandomIndexReachesEveryIndex(n: nat, k: int)
    requires 0 <= k < n
    ensures exists draw: RandomDraw :: RandomIndex(n, draw) == k
  {
    var draw: RandomDraw := k as real / n as real;
    assert draw * n as real == k as real;
    assert RandomIndex(n, draw) == k;
  }

  /** `playNext`: under shuffle, move the cursor to a random position of the
      queue; otherwise step forward when there is a next episode and do
      nothing when there is none. The queue and the flags never change. */
  function PlayNext(s: PlayerState, draw: RandomDraw): (r: PlayerState)
    ensures r.episodeList == s.episodeList
    ensures r.isPlaying == s.isPlaying && r.isLooping == s.isLooping && r.isShuffling == s.isShuffling
    ensures s.isShuffling && s.episodeList != [] ==> 0 <= r.currentEpisodeIndex < |s.episodeList|
    ensures s.isShuffling && s.episodeList == [] ==> r.currentEpisodeIndex == 0
    ensures !s.isShuffling ==>
              (r.currentEpisodeIndex == s.currentEpisodeIndex + 1 <==> s.currentEpisodeIndex + 1 < |s.episodeList|)
    ensures !s.isShuffling && !HasNext(s) ==> r == s
    ensures CursorInRange(s) ==> CursorInRange(r)
  {
    if s.isShuffling then
      s.(currentEpisodeIndex := RandomIndex(|s.episodeList|, draw))
    else if HasNext(s) then
      s.(currentEpisodeIndex := s.currentEpisodeIndex + 1)
    else
      s
  }

  /** Under shuffle, `playNext` can land on any episode of the queue. */
  lemma ShuffleCanPickAnyEpisode(s: PlayerState, k: int)
    requires s.isShuffling && 0 <= k < |s.episodeList|
    ensures exists draw: RandomDraw :: PlayNext(s, draw).currentEpisodeIndex == k
  {
    RandomIndexReachesEveryIndex(|s.episodeList|, k);
    var draw: RandomDraw :| RandomIndex(|s.episodeList|, draw) == k;
    assert PlayNext(s, draw).currentEpisodeIndex == k;
  }

  /** `playPrevious`: step back when there is a previous episode, otherwise do
      nothing; the cursor is never made negative. */
  function PlayPrevious(s: PlayerState): (r: PlayerState)
    ensures r.episodeList == s.episodeList
    ensures r.isPlaying == s.isPlaying && r.isLooping == s.isLooping && r.isShuffling == s.isShuffling
    ensures r.currentEpisodeIndex == s.currentEpisodeIndex - 1 <==> s.currentEpisodeIndex > 0
    ensures s.currentEpisodeIndex >= 0 ==> r.currentEpisodeIndex >= 0
    ensures !HasPrevious(s) ==> r == s
    ensures CursorInRange(s) ==> CursorInRange(r)
  {
    if HasPrevious(s) then s.(currentEpisodeIndex := s.currentEpisodeIndex - 1) else s
  }

  /** The three toggles are involutions and touch different cells, so they
      commute with each other. */
  lemma TogglesAreInvolutions(s: PlayerState)
    ensures TogglePlay(TogglePlay(s)) == s
    ensures ToogleLooping(ToogleLooping(s)) == s
    ensures ToogleShuffling(ToogleShuffling(s)) == s
    ensures ToogleLooping(ToogleShuffling(s)) == ToogleShuffling(ToogleLooping(s))
    ensures TogglePlay(ToogleLooping(s)) == ToogleLooping(TogglePlay(s))
    ensures TogglePlay(ToogleShuffling(s)) == ToogleShuffling(TogglePlay(s))
  {
  }
}
