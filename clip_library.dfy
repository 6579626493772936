/**
 * The value view of a gun's animation-clip library: the sequence of clips in
 * array order, each seen as its name, frame rate, wrap mode and frames. The
 * functions here say what `UpdateAnimation` and the single-clip
 * `SetAnimationFPS` do to that view; the classes in module Host are proved
 * against them.
 */
module ClipLibrary {

  import opened Wrappers

  /** One frame of a sprite animation: a sprite of a sprite collection. */
  datatype Frame = Frame(collection: string, spriteId: int)

  /** How a clip behaves when it reaches its last frame. */
  datatype WrapMode = Loop | LoopSection | Once | PingPong | RandomFrame | RandomLoop | Single

  /** The wrap mode a freshly constructed clip has (the host's default). */
  const DefaultWrapMode: WrapMode := Loop

  /** The frame rate `UpdateAnimation` gives every clip it creates. */
  const NewClipFps: int := 15

  datatype ClipState = ClipState(name: string, fps: int, wrapMode: WrapMode, frames: seq<Frame>)

  /** The name of the clip that holds animation `anim` of the gun named `gunName`. */
  function ClipName(gunName: string, anim: string): (r: string)
    ensures |r| == |gunName| + 1 + |anim|
    ensures r[..|gunName|] == gunName && r[|gunName|] == '_' && r[|gunName| + 1..] == anim
  {
    gunName + "_" + anim
  }

  /** Two animations of one gun share a clip name only if they are the same animation. */
  lemma ClipNameInjective(gunName: string, a: string, b: string)
    ensures ClipName(gunName, a) == ClipName(gunName, b) ==> a == b
  {
  }

  /** Index of the first clip called `name`, as a front-to-back scan finds it. */
  function Lookup(s: seq<ClipState>, name: string): (r: Option<nat>)
    ensures r.None? <==> forall i :: 0 <= i < |s| ==> s[i].name != name
    ensures r.Some? ==> r.value < |s| && s[r.value].name == name
    ensures r.Some? ==> forall j :: 0 <= j < r.value ==> s[j].name != name
  {
    if s == [] then None
    else if s[0].name == name then Some(0)
    else match Lookup(s[1..], name)
      case None => None
      case Some(i) => Some(i + 1)
  }

  /** The number of clips called `name`. */
  function Count(s: seq<ClipState>, name: string): nat
  {
    if s == [] then 0
    else (if s[0].name == name then 1 else 0) + Count(s[1..], name)
  }

  /** No two clips of the library share a name. */
  predicate NamesDistinct(s: seq<ClipState>)
  {
    forall i, j :: 0 <= i < j < |s| ==> s[i].name != s[j].name
  }

  /** The clip `UpdateAnimation` creates when none has the name yet. */
  function NewClip(name: string, frames: seq<Frame>, returnToIdle: bool): ClipState
  {
    ClipState(name, NewClipFps, if returnToIdle then Once else DefaultWrapMode, frames)
  }

  /**
   * What `UpdateAnimation` does to the library once frames were found: the
   * clip called `name` gets the frames; if there is none, a new clip is
   * appended.
   */
  function Upsert(s: seq<ClipState>, name: string, frames: seq<Frame>, returnToIdle: bool): seq<ClipState>
  {
    match Lookup(s, name)
    case None => s + [NewClip(name, frames, returnToIdle)]
    case Some(i) => s[i := s[i].(frames := frames)]
  }

  /** What the single-clip `SetAnimationFPS` does to a library it can reach. */
  function SetFps(s: seq<ClipState>, name: Option<string>, fps: int): seq<ClipState>
  {
    if name.None? || name.value == "" then s
    else match Lookup(s, name.value)
      case None => s
      case Some(i) => s[i := s[i].(fps := fps)]
  }

  /** `SetFps` applied for each of the first `n` names in turn, first to last. */
  function SetFpsFirst(s: seq<ClipState>, names: seq<Option<string>>, n: nat, fps: int): seq<ClipState>
    requires n <= |names|
  {
    if n == 0 then s
    else SetFps(SetFpsFirst(s, names, n - 1, fps), names[n - 1], fps)
  }

  // ---------------------------------------------------------------------------
  // Upsert

  /** Creating: the library grows by one, old clips keep their index, the new clip is last. */
  lemma UpsertCreates(s: seq<ClipState>, name: string, frames: seq<Frame>, returnToIdle: bool)
    requires forall i :: 0 <= i < |s| ==> s[i].name != name
    ensures var r := Upsert(s, name, frames, returnToIdle);
      |r| == |s| + 1 && r[..|s|] == s &&
      r[|s|].name == name && r[|s|].fps == 15 && r[|s|].frames == frames &&
      (r[|s|].wrapMode == Once <==> returnToIdle) &&
      (!returnToIdle ==> r[|s|].wrapMode == DefaultWrapMode)
  {
  }

  /**
   * Updating: the length is unchanged and the only change is the frames of the
   * first clip with that name; its frame rate and wrap mode stay.
   */
  lemma UpsertUpdates(s: seq<ClipState>, name: string, frames: seq<Frame>, returnToIdle: bool, k: nat)
    requires k < |s| && s[k].name == name
    ensures var r := Upsert(s, name, frames, returnToIdle);
      |r| == |s| &&
      exists i :: 0 <= i < |s| && s[i].name == name &&
        r[i] == ClipState(s[i].name, s[i].fps, s[i].wrapMode, frames) &&
        forall j :: 0 <= j < |s| && j != i ==> r[j] == s[j]
  {
    var i := Lookup(s, name).value;
    assert Upsert(s, name, frames, returnToIdle)[i] == ClipState(s[i].name, s[i].fps, s[i].wrapMode, frames);
  }

  /** Upsert never renames or removes a clip: names are kept position by position. */
  lemma UpsertKeepsNames(s: seq<ClipState>, name: string, frames: seq<Frame>, returnToIdle: bool)
    ensures var r := Upsert(s, name, frames, returnToIdle);
      |s| <= |r| && forall i :: 0 <= i < |s| ==> r[i].name == s[i].name
  {
  }

  /** After an upsert there is a clip with that name, and the first one holds the frames. */
  lemma UpsertFinds(s: seq<ClipState>, name: string, frames: seq<Frame>, returnToIdle: bool)
    ensures var r := Upsert(s, name, frames, returnToIdle);
      Lookup(r, name).Some? && r[Lookup(r, name).value].frames == frames
  {
    var r := Upsert(s, name, frames, returnToIdle);
    match Lookup(s, name)
    case None =>
      assert r[|s|].name == name;
    case Some(i) =>
      LookupByNames(s, r, name);
  }

  /** The first clip called `name` is found at the same index in two libraries with the same names. */
  lemma LookupByNames(s: seq<ClipState>, t: seq<ClipState>, name: string)
    requires |s| == |t|
    requires forall i :: 0 <= i < |s| ==> s[i].name == t[i].name
    ensures Lookup(s, name) == Lookup(t, name)
  {
  }

  /**
   * Upserting the same frames twice is the same as once, whatever the second
   * call's `returnToIdle`: the wrap mode is decided only when the clip is made.
   */
  lemma UpsertIdempotent(s: seq<ClipState>, name: string, frames: seq<Frame>, returnToIdle: bool, again: bool)
    ensures Upsert(Upsert(s, name, frames, returnToIdle), name, frames, again)
         == Upsert(s, name, frames, returnToIdle)
  {
    var r := Upsert(s, name, frames, returnToIdle);
    UpsertFinds(s, name, frames, returnToIdle);
    var k := Lookup(r, name).value;
    assert r[k := r[k].(frames := frames)] == r;
  }

  /** Upsert changes nothing when the first clip with that name already holds those frames. */
  lemma UpsertUnchanged(s: seq<ClipState>, name: string, frames: seq<Frame>, returnToIdle: bool)
    requires Lookup(s, name).Some? && s[Lookup(s, name).value].frames == frames
    ensures Upsert(s, name, frames, returnToIdle) == s
  {
    var k := Lookup(s, name).value;
    assert s[k := s[k].(frames := frames)] == s;
  }

  lemma {:induction false} CountAppend(s: seq<ClipState>, c: ClipState, name: string)
    ensures Count(s + [c], name) == Count(s, name) + (if c.name == name then 1 else 0)
  {
    if s == [] {
      assert [c][1..] == [];
    } else {
      assert (s + [c])[1..] == s[1..] + [c];
      CountAppend(s[1..], c, name);
    }
  }

  lemma {:induction false} CountSameNames(s: seq<ClipState>, t: seq<ClipState>, name: string)
    requires |s| == |t|
    requires forall i :: 0 <= i < |s| ==> s[i].name == t[i].name
    ensures Count(s, name) == Count(t, name)
  {
    if s != [] {
      CountSameNames(s[1..], t[1..], name);
    }
  }

  lemma {:induction false} CountZero(s: seq<ClipState>, name: string)
    ensures Count(s, name) == 0 <==> forall i :: 0 <= i < |s| ==> s[i].name != name
  {
    if s != [] {
      CountZero(s[1..], name);
      if Count(s, name) == 0 {
        forall i | 0 <= i < |s| ensures s[i].name != name {
          if i > 0 { assert s[i] == s[1..][i - 1]; }
        }
      } else if s[0].name != name {
        var i :| 0 <= i < |s[1..]| && s[1..][i].name == name;
        assert s[i + 1].name == name;
      }
    }
  }

  /**
   * Upsert never adds a second clip of a name: afterwards exactly as many clips
   * carry `name` as before, or one if there were none; other names are not touched.
   */
  lemma UpsertCount(s: seq<ClipState>, name: string, frames: seq<Frame>, returnToIdle: bool, other: string)
    ensures var r := Upsert(s, name, frames, returnToIdle);
      Count(r, name) == (if Count(s, name) == 0 then 1 else Count(s, name)) &&
      (other != name ==> Count(r, other) == Count(s, other))
  {
    var r := Upsert(s, name, frames, returnToIdle);
    CountZero(s, name);
    match Lookup(s, name)
    case None =>
      CountAppend(s, NewClip(name, frames, returnToIdle), name);
      CountAppend(s, NewClip(name, frames, returnToIdle), other);
    case Some(i) =>
      CountSameNames(s, r, name);
      CountSameNames(s, r, other);
  }

  /** Upsert keeps the names of a library distinct. */
  lemma UpsertKeepsDistinct(s: seq<ClipState>, name: string, frames: seq<Frame>, returnToIdle: bool)
    requires NamesDistinct(s)
    ensures NamesDistinct(Upsert(s, name, frames, returnToIdle))
  {
  }

  // ---------------------------------------------------------------------------
  // SetFps

  /**
   * On a library without duplicate names, the single-clip setter gives `fps`
   * to the clip carrying the (non-null, non-empty) name and leaves every other
   * clip, and everything but the frame rate of that one, as it was.
   */
  lemma SetFpsByName(s: seq<ClipState>, name: Option<string>, fps: int)
    requires NamesDistinct(s)
    ensures var r := SetFps(s, name, fps);
      |r| == |s| &&
      forall j :: 0 <= j < |s| ==>
        r[j] == if name == Some(s[j].name) && s[j].name != "" then s[j].(fps := fps) else s[j]
  {
    var r := SetFps(s, name, fps);
    if name.Some? && name.value != "" && Lookup(s, name.value).Some? {
      var i := Lookup(s, name.value).value;
      forall j | 0 <= j < |s| && j != i ensures name != Some(s[j].name) {
        assert s[i].name == name.value;
      }
    }
  }

  /** Setting frame rates changes only frame rates: names, wrap modes and frames stay. */
  lemma {:induction false} SetFpsOnlyFps(s: seq<ClipState>, names: seq<Option<string>>, n: nat, fps: int)
    requires n <= |names|
    ensures var r := SetFpsFirst(s, names, n, fps);
      |r| == |s| && forall i :: 0 <= i < |s| ==> r[i] == s[i].(fps := r[i].fps)
  {
    if n > 0 {
      SetFpsOnlyFps(s, names, n - 1, fps);
    }
  }

  /** A clip whose name is not among the first `n` names keeps its frame rate. */
  lemma {:induction false} SetFpsUntouched(s: seq<ClipState>, names: seq<Option<string>>, n: nat, fps: int, i: nat)
    requires n <= |names| && i < |s|
    requires forall k :: 0 <= k < n ==> names[k] != Some(s[i].name)
    ensures |SetFpsFirst(s, names, n, fps)| == |s| && SetFpsFirst(s, names, n, fps)[i].fps == s[i].fps
  {
    SetFpsOnlyFps(s, names, n, fps);
    if n > 0 {
      SetFpsUntouched(s, names, n - 1, fps, i);
      SetFpsOnlyFps(s, names, n - 1, fps);
    }
  }

  /**
   * In a library with distinct names, a clip whose non-empty name is among the
   * first `n` names (at position `k`) ends with frame rate `fps`.
   */
  lemma {:induction false} SetFpsHits(s: seq<ClipState>, names: seq<Option<string>>, n: nat, fps: int,
                                      i: nat, k: nat)
    requires NamesDistinct(s)
    requires n <= |names| && i < |s| && s[i].name != ""
    requires k < n && names[k] == Some(s[i].name)
    ensures |SetFpsFirst(s, names, n, fps)| == |s| && SetFpsFirst(s, names, n, fps)[i].fps == fps
  {
    SetFpsOnlyFps(s, names, n, fps);
    var t := SetFpsFirst(s, names, n - 1, fps);
    SetFpsOnlyFps(s, names, n - 1, fps);
    var last := names[n - 1];
    if last == Some(s[i].name) {
      assert t[i].name == s[i].name;
    } else {
      SetFpsHits(s, names, n - 1, fps, i, k);
      if last.Some? && last.value != "" && Lookup(t, last.value).Some? {
        var j := Lookup(t, last.value).value;
        assert t[j].name == s[j].name;
        assert j != i;
      }
    }
  }
}
