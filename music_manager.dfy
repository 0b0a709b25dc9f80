/**
 * The background music: a clip per scene, crossfaded between two looping sources whenever a
 * loaded scene maps to a different clip.
 */
module MusicModel {
  import opened Mathf
  import opened Wrappers
  import opened FrameTime

  /** An audio clip, identified by reference. */
  type ClipId = nat

  /** An inspector entry pairing a scene name with a clip, either of which may be missing. */
  datatype SceneMusic = SceneMusic(sceneName: string, musicClip: Option<ClipId>)

  /** An entry that makes it into the map: a non-empty scene name and a clip. */
  predicate Usable(sm: SceneMusic)
  {
    sm.sceneName != "" && sm.musicClip.Some?
  }

  /** The scene-to-clip dictionary after adding the usable entries in order, later ones overwriting. */
  function SceneMusicMap(list: seq<SceneMusic>): map<string, ClipId>
  {
    if list == [] then map[]
    else
      var m := SceneMusicMap(list[..|list| - 1]);
      var last := list[|list| - 1];
      if Usable(last) then m[last.sceneName := last.musicClip.value] else m
  }

  /** Entry i is the last usable entry for `name`. */
  predicate LastUsableFor(list: seq<SceneMusic>, name: string, i: int)
  {
    && 0 <= i < |list| && Usable(list[i]) && list[i].sceneName == name
    && forall j :: i < j < |list| ==> !(Usable(list[j]) && list[j].sceneName == name)
  }

  /**
   * A scene is mapped exactly when some usable entry names it, and then to the clip of the last
   * such entry: empty names and missing clips are dropped, and duplicates overwrite.
   */
  lemma {:induction false} SceneMusicMapLookup(list: seq<SceneMusic>, name: string)
    ensures name in SceneMusicMap(list) <==> exists i :: 0 <= i < |list| && Usable(list[i]) && list[i].sceneName == name
    ensures name in SceneMusicMap(list) ==>
      exists i :: LastUsableFor(list, name, i) && SceneMusicMap(list)[name] == list[i].musicClip.value
  {
    if list != [] {
      var init := list[..|list| - 1];
      var last := list[|list| - 1];
      SceneMusicMapLookup(init, name);
      if Usable(last) && last.sceneName == name {
        assert LastUsableFor(list, name, |list| - 1);
      } else if name in SceneMusicMap(init) {
        var i :| LastUsableFor(init, name, i) && SceneMusicMap(init)[name] == init[i].musicClip.value;
        assert list[i] == init[i];
        assert LastUsableFor(list, name, i);
      } else {
        assert forall i :: 0 <= i < |init| ==> list[i] == init[i];
      }
    }
  }

  /** Initialize's loop: the usable entries are written into the dictionary one by one. */
  method BuildSceneMusicMap(list: seq<SceneMusic>) returns (m: map<string, ClipId>)
    ensures m == SceneMusicMap(list)
  {
    m := map[];
    var i := 0;
    while i < |list|
      invariant 0 <= i <= |list|
      invariant m == SceneMusicMap(list[..i])
    {
      var sm := list[i];
      assert list[..i + 1][..i] == list[..i];
      if sm.sceneName != "" && sm.musicClip.Some? {
        m := m[sm.sceneName := sm.musicClip.value];
      }
      i := i + 1;
    }
    assert list[..|list|] == list;
  }

  /** A looping audio source. */
  class MusicSource {
    var clip: Option<ClipId>
    var volume: real
    var playing: bool
    var looping: bool

    constructor ()
      ensures clip.None? && volume == 0.0 && !playing && looping
    {
      clip := None;
      volume := 0.0;
      playing := false;
      looping := true;
    }
  }

  class MusicManager {
    const sceneMusicList: seq<SceneMusic>
    const fadeDuration: real
    const maxVolume: real
    var sceneMusicMap: map<string, ClipId>
    var currentSource: MusicSource
    var nextSource: MusicSource

    predicate Valid()
      reads this
    {
      currentSource != nextSource
    }

    /** Awake of the first instance, that is Initialize: the map, then two silent looping sources. */
    constructor (sceneMusicList: seq<SceneMusic>, fadeDuration: real, maxVolume: real)
      ensures this.sceneMusicList == sceneMusicList && this.fadeDuration == fadeDuration && this.maxVolume == maxVolume
      ensures sceneMusicMap == SceneMusicMap(sceneMusicList)
      ensures Valid() && fresh(currentSource) && fresh(nextSource)
      ensures currentSource.volume == 0.0 && nextSource.volume == 0.0
      ensures currentSource.looping && nextSource.looping
      ensures currentSource.clip.None? && nextSource.clip.None? && !currentSource.playing && !nextSource.playing
    {
      var m := BuildSceneMusicMap(sceneMusicList);
      this.sceneMusicList := sceneMusicList;
      this.fadeDuration := fadeDuration;
      this.maxVolume := maxVolume;
      sceneMusicMap := m;
      currentSource := new MusicSource();
      nextSource := new MusicSource();
    }

    /** A crossfade starts only for a mapped scene whose clip is not the one already playing. */
    predicate StartsCrossFade(sceneName: string)
      reads this, currentSource
    {
      sceneName in sceneMusicMap && currentSource.clip != Some(sceneMusicMap[sceneName])
    }

    /**
     * The scene-loaded callback. When the scene starts a crossfade, it runs over the given frame
     * times; otherwise nothing changes.
     */
    method PlayMusicForScene(sceneName: string, deltas: seq<real>) returns (outgoing: seq<real>, incoming: seq<real>, finished: bool)
      requires Valid()
      requires forall k :: 0 <= k < |deltas| ==> deltas[k] >= 0.0
      modifies this, currentSource, nextSource
      ensures Valid() && sceneMusicMap == old(sceneMusicMap)
      ensures !old(StartsCrossFade(sceneName)) ==>
        && outgoing == [] && incoming == [] && !finished
        && unchanged(this) && unchanged(old(currentSource)) && unchanged(old(nextSource))
      ensures old(StartsCrossFade(sceneName)) ==> CrossFaded(old(sceneMusicMap[sceneName]), deltas, outgoing, incoming, finished)
    {
      outgoing, incoming, finished := [], [], false;
      if sceneName in sceneMusicMap {
        var newClip := sceneMusicMap[sceneName];
        if currentSource.clip != Some(newClip) {
          outgoing, incoming, finished := CrossFadeMusic(newClip, deltas);
        }
      }
    }

    /**
     * The crossfade's outcome over the frames it lived through. Each frame the outgoing volume
     * falls along Lerp(maxVolume, 0, t) and the incoming one rises along Lerp(0, maxVolume, t),
     * with t the elapsed share of the fade, so the two always add up to maxVolume. Once the fade time is reached, the old source is
     * stopped at 0, the new one is at maxVolume, and the two sources have swapped roles.
     */
    twostate predicate CrossFaded(newClip: ClipId, deltas: seq<real>, outgoing: seq<real>, incoming: seq<real>, finished: bool)
      reads this, currentSource, nextSource
    {
      && |outgoing| == |incoming| <= |deltas|
      && (fadeDuration <= 0.0 ==> outgoing == [] && finished)
      && (fadeDuration > 0.0 ==>
            && (forall k :: 0 <= k < |outgoing| ==>
                  && outgoing[k] == Lerp(maxVolume, 0.0, Elapsed(deltas, k + 1) / fadeDuration)
                  && incoming[k] == Lerp(0.0, maxVolume, Elapsed(deltas, k + 1) / fadeDuration))
            && (forall k :: 0 <= k < |outgoing| ==> Elapsed(deltas, k) < fadeDuration)
            && (forall k :: 0 <= k < |outgoing| ==> outgoing[k] + incoming[k] == maxVolume)
            && (finished <==> Elapsed(deltas, |outgoing|) >= fadeDuration)
            && (!finished ==> |outgoing| == |deltas|))
      && (finished ==>
            && currentSource == old(nextSource) && nextSource == old(currentSource)
            && currentSource.clip == Some(newClip) && currentSource.playing && currentSource.volume == maxVolume
            && !nextSource.playing && nextSource.volume == 0.0 && nextSource.clip == old(currentSource.clip))
      && (!finished ==>
            && currentSource == old(currentSource) && nextSource == old(nextSource)
            && nextSource.clip == Some(newClip) && nextSource.playing
            && (outgoing == [] ==> nextSource.volume == 0.0 && currentSource.volume == old(currentSource.volume))
            && (outgoing != [] ==>
                  currentSource.volume == outgoing[|outgoing| - 1] && nextSource.volume == incoming[|incoming| - 1]))
    }

    /** The crossfade coroutine, over the frame times it receives. */
    method CrossFadeMusic(newClip: ClipId, deltas: seq<real>) returns (outgoing: seq<real>, incoming: seq<real>, finished: bool)
      requires Valid()
      requires forall k :: 0 <= k < |deltas| ==> deltas[k] >= 0.0
      modifies this, currentSource, nextSource
      ensures Valid() && sceneMusicMap == old(sceneMusicMap)
      ensures CrossFaded(newClip, deltas, outgoing, incoming, finished)
    {
      nextSource.clip := Some(newClip);
      nextSource.playing := true;
      nextSource.volume := 0.0;
      outgoing, incoming := [], [];
      var timer := 0.0;
      var k := 0;
      while k < |deltas| && timer < fadeDuration
        invariant 0 <= k <= |deltas| && |outgoing| == k && |incoming| == k
        invariant timer == Elapsed(deltas, k) && timer >= 0.0
        invariant k > 0 ==> fadeDuration > 0.0
        invariant forall j :: 0 <= j < k ==>
          && outgoing[j] == Lerp(maxVolume, 0.0, Elapsed(deltas, j + 1) / fadeDuration)
          && incoming[j] == Lerp(0.0, maxVolume, Elapsed(deltas, j + 1) / fadeDuration)
        invariant forall j :: 0 <= j < k ==> Elapsed(deltas, j) < fadeDuration
        invariant forall j :: 0 <= j < k ==> outgoing[j] + incoming[j] == maxVolume
        invariant currentSource == old(currentSource) && nextSource == old(nextSource)
        invariant sceneMusicMap == old(sceneMusicMap)
        invariant nextSource.clip == Some(newClip) && nextSource.playing
        invariant k == 0 ==> nextSource.volume == 0.0 && currentSource.volume == old(currentSource.volume)
        invariant k > 0 ==> currentSource.volume == outgoing[k - 1] && nextSource.volume == incoming[k - 1]
        invariant currentSource.clip == old(currentSource.clip) && currentSource.playing == old(currentSource.playing)
      {
        timer := timer + deltas[k];
        var t := timer / fadeDuration;
        currentSource.volume := Lerp(maxVolume, 0.0, t);
        nextSource.volume := Lerp(0.0, maxVolume, t);
        LerpComplement(maxVolume, t);
        outgoing := outgoing + [currentSource.volume];
        incoming := incoming + [nextSource.volume];
        k := k + 1;
      }
      finished := timer >= fadeDuration;
      if finished {
        currentSource.playing := false;
        currentSource.volume := 0.0;
        nextSource.volume := maxVolume;
        currentSource, nextSource := nextSource, currentSource;
      }
    }
  }
}
