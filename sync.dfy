/**
 * What `UpdateAnimations`, `SetAnimationFPS(gun, fps)` and `SetupSprite` do to
 * a gun's clip library, stated on the value view of module ClipLibrary, and
 * the properties that follow from the fixed role lists.
 */
module Sync {

  import opened Wrappers
  import opened ClipLibrary
  import opened Roles

  /**
   * Where animation frames come from: (collection name, gun name, animation
   * name) to the frames of that animation, or None when there are none.
   */
  type FrameSource = map<(string, string, string), seq<Frame>>

  /** The frames the source holds for one animation of a gun; None when it has none. */
  function Frames(source: FrameSource, collectionName: string, gunName: string, anim: string): Option<seq<Frame>>
  {
    if (collectionName, gunName, anim) in source then Some(source[(collectionName, gunName, anim)]) else None
  }

  /** The frames the source has for role `r` of the gun. */
  function FramesFor(source: FrameSource, collectionName: string, gunName: string, r: Role): Option<seq<Frame>>
  {
    Frames(source, collectionName, gunName, Name(r))
  }

  /**
   * The source has frames for none of the sixteen animations of the gun, so
   * `UpdateAnimations` never reaches the clip library.
   */
  predicate NoFrames(source: FrameSource, collectionName: string, gunName: string)
  {
    Frames(source, collectionName, gunName, "idle").None?
    && Frames(source, collectionName, gunName, "dodge").None?
    && Frames(source, collectionName, gunName, "intro").None?
    && Frames(source, collectionName, gunName, "empty").None?
    && Frames(source, collectionName, gunName, "fire").None?
    && Frames(source, collectionName, gunName, "reload").None?
    && Frames(source, collectionName, gunName, "charge").None?
    && Frames(source, collectionName, gunName, "out_of_ammo").None?
    && Frames(source, collectionName, gunName, "discharge").None?
    && Frames(source, collectionName, gunName, "final_fire").None?
    && Frames(source, collectionName, gunName, "empty_reload").None?
    && Frames(source, collectionName, gunName, "critical_fire").None?
    && Frames(source, collectionName, gunName, "enemy_pre_fire").None?
    && Frames(source, collectionName, gunName, "alternate_shoot").None?
    && Frames(source, collectionName, gunName, "alternate_reload").None?
    && Frames(source, collectionName, gunName, "alternate_idle").None?
  }

  /** What one `UpdateAnimation` call does to the library, given the frames it found. */
  function UpdateAnimationView(s: seq<ClipState>, gunName: string, anim: string,
                               frames: Option<seq<Frame>>, returnToIdle: bool): seq<ClipState>
  {
    if frames.None? then s else Upsert(s, ClipName(gunName, anim), frames.value, returnToIdle)
  }

  /** What one `UpdateAnimation` call returns, given the frames it found. */
  function UpdateAnimationResult(gunName: string, anim: string, frames: Option<seq<Frame>>): Option<string>
  {
    if frames.None? then None else Some(ClipName(gunName, anim))
  }

  /** The library after `UpdateAnimation` has run for each of the first `n` roles, first to last. */
  function SyncFirst(s: seq<ClipState>, roles: seq<Role>, n: nat, source: FrameSource,
                     collectionName: string, gunName: string): seq<ClipState>
    requires n <= |roles|
  {
    if n == 0 then s
    else
      var r := roles[n - 1];
      UpdateAnimationView(SyncFirst(s, roles, n - 1, source, collectionName, gunName),
                          gunName, Name(r), FramesFor(source, collectionName, gunName, r), ReturnsToIdle(r))
  }

  /** The library after `UpdateAnimations`: every role of `SyncOrder` synchronised, first to last. */
  function SyncAll(s: seq<ClipState>, source: FrameSource, collectionName: string, gunName: string): seq<ClipState>
  {
    SyncFirst(s, SyncOrder, 16, source, collectionName, gunName)
  }

  /**
   * The sixteen `UpdateAnimation` calls of `UpdateAnimations` written out,
   * with the animation names and flags the program passes.
   */
  function UpdateAnimationsCalls(s: seq<ClipState>, source: FrameSource, collectionName: string, gunName: string): seq<ClipState>
  {
    var t1 := UpdateAnimationView(s, gunName, "idle", Frames(source, collectionName, gunName, "idle"), false);
    var t2 := UpdateAnimationView(t1, gunName, "dodge", Frames(source, collectionName, gunName, "dodge"), false);
    var t3 := UpdateAnimationView(t2, gunName, "intro", Frames(source, collectionName, gunName, "intro"), true);
    var t4 := UpdateAnimationView(t3, gunName, "empty", Frames(source, collectionName, gunName, "empty"), false);
    var t5 := UpdateAnimationView(t4, gunName, "fire", Frames(source, collectionName, gunName, "fire"), true);
    var t6 := UpdateAnimationView(t5, gunName, "reload", Frames(source, collectionName, gunName, "reload"), true);
    var t7 := UpdateAnimationView(t6, gunName, "charge", Frames(source, collectionName, gunName, "charge"), false);
    var t8 := UpdateAnimationView(t7, gunName, "out_of_ammo", Frames(source, collectionName, gunName, "out_of_ammo"), false);
    var t9 := UpdateAnimationView(t8, gunName, "discharge", Frames(source, collectionName, gunName, "discharge"), false);
    var t10 := UpdateAnimationView(t9, gunName, "final_fire", Frames(source, collectionName, gunName, "final_fire"), true);
    var t11 := UpdateAnimationView(t10, gunName, "empty_reload", Frames(source, collectionName, gunName, "empty_reload"), true);
    var t12 := UpdateAnimationView(t11, gunName, "critical_fire", Frames(source, collectionName, gunName, "critical_fire"), true);
    var t13 := UpdateAnimationView(t12, gunName, "enemy_pre_fire", Frames(source, collectionName, gunName, "enemy_pre_fire"), false);
    var t14 := UpdateAnimationView(t13, gunName, "alternate_shoot", Frames(source, collectionName, gunName, "alternate_shoot"), true);
    var t15 := UpdateAnimationView(t14, gunName, "alternate_reload", Frames(source, collectionName, gunName, "alternate_reload"), true);
    var t16 := UpdateAnimationView(t15, gunName, "alternate_idle", Frames(source, collectionName, gunName, "alternate_idle"), false);
    t16
  }

  /** `UpdateAnimations` visits exactly the roles of `SyncOrder`, in that order. */
  lemma UpdateAnimationsFollowsSyncOrder(s: seq<ClipState>, source: FrameSource, collectionName: string, gunName: string)
    ensures UpdateAnimationsCalls(s, source, collectionName, gunName) == SyncAll(s, source, collectionName, gunName)
  {
    assert SyncOrder[0] == Idle;
    assert SyncOrder[1] == Dodge;
    assert SyncOrder[2] == Intro;
    assert SyncOrder[3] == Empty;
    assert SyncOrder[4] == Fire;
    assert SyncOrder[5] == Reload;
    assert SyncOrder[6] == Charge;
    assert SyncOrder[7] == OutOfAmmo;
    assert SyncOrder[8] == Discharge;
    assert SyncOrder[9] == FinalFire;
    assert SyncOrder[10] == EmptyReload;
    assert SyncOrder[11] == CriticalFire;
    assert SyncOrder[12] == EnemyPreFire;
    assert SyncOrder[13] == AlternateShoot;
    assert SyncOrder[14] == AlternateReload;
    assert SyncOrder[15] == AlternateIdle;
    assert SyncFirst(s, SyncOrder, 1, source, collectionName, gunName)
        == UpdateAnimationView(SyncFirst(s, SyncOrder, 0, source, collectionName, gunName), gunName, "idle",
                               Frames(source, collectionName, gunName, "idle"), false);
    assert SyncFirst(s, SyncOrder, 2, source, collectionName, gunName)
        == UpdateAnimationView(SyncFirst(s, SyncOrder, 1, source, collectionName, gunName), gunName, "dodge",
                               Frames(source, collectionName, gunName, "dodge"), false);
    assert SyncFirst(s, SyncOrder, 3, source, collectionName, gunName)
        == UpdateAnimationView(SyncFirst(s, SyncOrder, 2, source, collectionName, gunName), gunName, "intro",
                               Frames(source, collectionName, gunName, "intro"), true);
    assert SyncFirst(s, SyncOrder, 4, source, collectionName, gunName)
        == UpdateAnimationView(SyncFirst(s, SyncOrder, 3, source, collectionName, gunName), gunName, "empty",
                               Frames(source, collectionName, gunName, "empty"), false);
    assert SyncFirst(s, SyncOrder, 5, source, collectionName, gunName)
        == UpdateAnimationView(SyncFirst(s, SyncOrder, 4, source, collectionName, gunName), gunName, "fire",
                               Frames(source, collectionName, gunName, "fire"), true);
    assert SyncFirst(s, SyncOrder, 6, source, collectionName, gunName)
        == UpdateAnimationView(SyncFirst(s, SyncOrder, 5, source, collectionName, gunName), gunName, "reload",
                               Frames(source, collectionName, gunName, "reload"), true);
    assert SyncFirst(s, SyncOrder, 7, source, collectionName, gunName)
        == UpdateAnimationView(SyncFirst(s, SyncOrder, 6, source, collectionName, gunName), gunName, "charge",
                               Frames(source, collectionName, gunName, "charge"), false);
    assert SyncFirst(s, SyncOrder, 8, source, collectionName, gunName)
        == UpdateAnimationView(SyncFirst(s, SyncOrder, 7, source, collectionName, gunName), gunName, "out_of_ammo",
                               Frames(source, collectionName, gunName, "out_of_ammo"), false);
    assert SyncFirst(s, SyncOrder, 9, source, collectionName, gunName)
        == UpdateAnimationView(SyncFirst(s, SyncOrder, 8, source, collectionName, gunName), gunName, "discharge",
                               Frames(source, collectionName, gunName, "discharge"), false);
    assert SyncFirst(s, SyncOrder, 10, source, collectionName, gunName)
        == UpdateAnimationView(SyncFirst(s, SyncOrder, 9, source, collectionName, gunName), gunName, "final_fire",
                               Frames(source, collectionName, gunName, "final_fire"), true);
    assert SyncFirst(s, SyncOrder, 11, source, collectionName, gunName)
        == UpdateAnimationView(SyncFirst(s, SyncOrder, 10, source, collectionName, gunName), gunName, "empty_reload",
                               Frames(source, collectionName, gunName, "empty_reload"), true);
    assert SyncFirst(s, SyncOrder, 12, source, collectionName, gunName)
        == UpdateAnimationView(SyncFirst(s, SyncOrder, 11, source, collectionName, gunName), gunName, "critical_fire",
                               Frames(source, collectionName, gunName, "critical_fire"), true);
    assert SyncFirst(s, SyncOrder, 13, source, collectionName, gunName)
        == UpdateAnimationView(SyncFirst(s, SyncOrder, 12, source, collectionName, gunName), gunName, "enemy_pre_fire",
                               Frames(source, collectionName, gunName, "enemy_pre_fire"), false);
    assert SyncFirst(s, SyncOrder, 14, source, collectionName, gunName)
        == UpdateAnimationView(SyncFirst(s, SyncOrder, 13, source, collectionName, gunName), gunName, "alternate_shoot",
                               Frames(source, collectionName, gunName, "alternate_shoot"), true);
    assert SyncFirst(s, SyncOrder, 15, source, collectionName, gunName)
        == UpdateAnimationView(SyncFirst(s, SyncOrder, 14, source, collectionName, gunName), gunName, "alternate_reload",
                               Frames(source, collectionName, gunName, "alternate_reload"), true);
    assert SyncFirst(s, SyncOrder, 16, source, collectionName, gunName)
        == UpdateAnimationView(SyncFirst(s, SyncOrder, 15, source, collectionName, gunName), gunName, "alternate_idle",
                               Frames(source, collectionName, gunName, "alternate_idle"), false);
  }

  /**
   * The animation-name fields after `UpdateAnimation` has run for each of the
   * first `n` roles, starting from `base`: each visited role's field holds
   * what its call returned.
   */
  function FieldsAfter(base: AnimationNames, roles: seq<Role>, n: nat, source: FrameSource,
                       collectionName: string, gunName: string): AnimationNames
    requires n <= |roles|
  {
    if n == 0 then base
    else
      var r := roles[n - 1];
      FieldsAfter(base, roles, n - 1, source, collectionName, gunName)
        .With(r, UpdateAnimationResult(gunName, Name(r), FramesFor(source, collectionName, gunName, r)))
  }

  /** Without frames for any animation, `UpdateAnimations` leaves the library as it was. */
  lemma NoFramesSyncsNothing(s: seq<ClipState>, source: FrameSource, collectionName: string, gunName: string)
    requires NoFrames(source, collectionName, gunName)
    ensures SyncAll(s, source, collectionName, gunName) == s
  {
    UpdateAnimationsFollowsSyncOrder(s, source, collectionName, gunName);
  }

  /** The animation-name fields after `UpdateAnimations`. */
  function AnimationsAfterSync(source: FrameSource, collectionName: string, gunName: string): AnimationNames
  {
    FieldsAfter(NoAnimations, SyncOrder, 16, source, collectionName, gunName)
  }

  /** The sixteen field assignments of `UpdateAnimations` written out, applied to the fields `base`. */
  function UpdateAnimationsFields(base: AnimationNames, source: FrameSource, collectionName: string,
                                  gunName: string): AnimationNames
  {
    base
      .(idleAnimation := UpdateAnimationResult(gunName, "idle", Frames(source, collectionName, gunName, "idle")))
      .(dodgeAnimation := UpdateAnimationResult(gunName, "dodge", Frames(source, collectionName, gunName, "dodge")))
      .(introAnimation := UpdateAnimationResult(gunName, "intro", Frames(source, collectionName, gunName, "intro")))
      .(emptyAnimation := UpdateAnimationResult(gunName, "empty", Frames(source, collectionName, gunName, "empty")))
      .(shootAnimation := UpdateAnimationResult(gunName, "fire", Frames(source, collectionName, gunName, "fire")))
      .(reloadAnimation := UpdateAnimationResult(gunName, "reload", Frames(source, collectionName, gunName, "reload")))
      .(chargeAnimation := UpdateAnimationResult(gunName, "charge", Frames(source, collectionName, gunName, "charge")))
      .(outOfAmmoAnimation := UpdateAnimationResult(gunName, "out_of_ammo", Frames(source, collectionName, gunName, "out_of_ammo")))
      .(dischargeAnimation := UpdateAnimationResult(gunName, "discharge", Frames(source, collectionName, gunName, "discharge")))
      .(finalShootAnimation := UpdateAnimationResult(gunName, "final_fire", Frames(source, collectionName, gunName, "final_fire")))
      .(emptyReloadAnimation := UpdateAnimationResult(gunName, "empty_reload", Frames(source, collectionName, gunName, "empty_reload")))
      .(criticalFireAnimation := UpdateAnimationResult(gunName, "critical_fire", Frames(source, collectionName, gunName, "critical_fire")))
      .(enemyPreFireAnimation := UpdateAnimationResult(gunName, "enemy_pre_fire", Frames(source, collectionName, gunName, "enemy_pre_fire")))
      .(alternateShootAnimation := UpdateAnimationResult(gunName, "alternate_shoot", Frames(source, collectionName, gunName, "alternate_shoot")))
      .(alternateReloadAnimation := UpdateAnimationResult(gunName, "alternate_reload", Frames(source, collectionName, gunName, "alternate_reload")))
      .(alternateIdleAnimation := UpdateAnimationResult(gunName, "alternate_idle", Frames(source, collectionName, gunName, "alternate_idle")))
  }

  /**
   * `UpdateAnimations` assigns the field of every role of `SyncOrder`, so the
   * fields it leaves do not depend on the ones it found.
   */
  lemma UpdateAnimationsFieldsFollowSyncOrder(base: AnimationNames, source: FrameSource,
                                              collectionName: string, gunName: string)
    ensures UpdateAnimationsFields(base, source, collectionName, gunName)
         == AnimationsAfterSync(source, collectionName, gunName)
  {
    var a := UpdateAnimationsFields(base, source, collectionName, gunName);
    var b := AnimationsAfterSync(source, collectionName, gunName);
    forall r ensures a.Get(r) == b.Get(r) {
      UpdateAnimationsFieldsGet(base, source, collectionName, gunName, r);
      AnimationsAfterSyncGet(source, collectionName, gunName, r);
    }
    FieldsDetermine(a, b);
  }

  /** The written-out assignments give every role's field what its `UpdateAnimation` call returned. */
  lemma UpdateAnimationsFieldsGet(base: AnimationNames, source: FrameSource, collectionName: string,
                                  gunName: string, r: Role)
    ensures UpdateAnimationsFields(base, source, collectionName, gunName).Get(r)
         == UpdateAnimationResult(gunName, Name(r), FramesFor(source, collectionName, gunName, r))
  {
  }

  /**
   * After the first `n` roles, the field of a visited role holds its clip name
   * or None, and the field of any other role is still that of `base`.
   */
  lemma {:induction false} FieldsAfterGet(base: AnimationNames, roles: seq<Role>, n: nat, source: FrameSource,
                                         collectionName: string, gunName: string, r: Role)
    requires n <= |roles|
    ensures FieldsAfter(base, roles, n, source, collectionName, gunName).Get(r)
         == if r in roles[..n] then UpdateAnimationResult(gunName, Name(r), FramesFor(source, collectionName, gunName, r))
            else base.Get(r)
  {
    if n > 0 {
      FieldsAfterGet(base, roles, n - 1, source, collectionName, gunName, r);
      assert roles[..n] == roles[..n - 1] + [roles[n - 1]];
    }
  }

  /**
   * After `UpdateAnimations` the field of role `r` holds the clip name
   * `<gun name>_<role name>` when the source has frames for the role, and null
   * when it has none.
   */
  lemma AnimationsAfterSyncGet(source: FrameSource, collectionName: string, gunName: string, r: Role)
    ensures AnimationsAfterSync(source, collectionName, gunName).Get(r)
         == if FramesFor(source, collectionName, gunName, r).Some? then Some(ClipName(gunName, Name(r))) else None
  {
    SyncOrderIsComplete();
    assert SyncOrder[..16] == SyncOrder;
    FieldsAfterGet(NoAnimations, SyncOrder, 16, source, collectionName, gunName, r);
  }

  /**
   * The library after `SetAnimationFPS(gun, fps)` on a gun whose animation
   * fields are `a`: the single-clip setter applied to the field of each role
   * of `FpsOrder`, first to last.
   */
  function SetAnimationFpsView(s: seq<ClipState>, a: AnimationNames, fps: int): seq<ClipState>
  {
    SetFpsFirst(s, a.Fields(FpsOrder), 14, fps)
  }

  /** The fourteen single-clip calls of `SetAnimationFPS(gun, fps)` written out, field by field. */
  function SetAnimationFpsCalls(s: seq<ClipState>, a: AnimationNames, fps: int): seq<ClipState>
  {
    SetFps(SetFps(SetFps(SetFps(SetFps(SetFps(SetFps(SetFps(SetFps(SetFps(SetFps(SetFps(SetFps(SetFps(s,
      a.idleAnimation, fps),
      a.introAnimation, fps),
      a.emptyAnimation, fps),
      a.shootAnimation, fps),
      a.reloadAnimation, fps),
      a.chargeAnimation, fps),
      a.outOfAmmoAnimation, fps),
      a.dischargeAnimation, fps),
      a.finalShootAnimation, fps),
      a.emptyReloadAnimation, fps),
      a.criticalFireAnimation, fps),
      a.enemyPreFireAnimation, fps),
      a.alternateShootAnimation, fps),
      a.alternateReloadAnimation, fps)
  }

  /** `SetAnimationFPS(gun, fps)` visits exactly the fields of `FpsOrder`, in that order. */
  lemma SetAnimationFpsFollowsFpsOrder(s: seq<ClipState>, a: AnimationNames, fps: int)
    ensures SetAnimationFpsCalls(s, a, fps) == SetAnimationFpsView(s, a, fps)
  {
    var names := a.Fields(FpsOrder);
    assert names[0] == a.idleAnimation;
    assert names[1] == a.introAnimation;
    assert names[2] == a.emptyAnimation;
    assert names[3] == a.shootAnimation;
    assert names[4] == a.reloadAnimation;
    assert names[5] == a.chargeAnimation;
    assert names[6] == a.outOfAmmoAnimation;
    assert names[7] == a.dischargeAnimation;
    assert names[8] == a.finalShootAnimation;
    assert names[9] == a.emptyReloadAnimation;
    assert names[10] == a.criticalFireAnimation;
    assert names[11] == a.enemyPreFireAnimation;
    assert names[12] == a.alternateShootAnimation;
    assert names[13] == a.alternateReloadAnimation;
    assert SetFpsFirst(s, names, 1, fps) == SetFps(SetFpsFirst(s, names, 0, fps), a.idleAnimation, fps);
    assert SetFpsFirst(s, names, 2, fps) == SetFps(SetFpsFirst(s, names, 1, fps), a.introAnimation, fps);
    assert SetFpsFirst(s, names, 3, fps) == SetFps(SetFpsFirst(s, names, 2, fps), a.emptyAnimation, fps);
    assert SetFpsFirst(s, names, 4, fps) == SetFps(SetFpsFirst(s, names, 3, fps), a.shootAnimation, fps);
    assert SetFpsFirst(s, names, 5, fps) == SetFps(SetFpsFirst(s, names, 4, fps), a.reloadAnimation, fps);
    assert SetFpsFirst(s, names, 6, fps) == SetFps(SetFpsFirst(s, names, 5, fps), a.chargeAnimation, fps);
    assert SetFpsFirst(s, names, 7, fps) == SetFps(SetFpsFirst(s, names, 6, fps), a.outOfAmmoAnimation, fps);
    assert SetFpsFirst(s, names, 8, fps) == SetFps(SetFpsFirst(s, names, 7, fps), a.dischargeAnimation, fps);
    assert SetFpsFirst(s, names, 9, fps) == SetFps(SetFpsFirst(s, names, 8, fps), a.finalShootAnimation, fps);
    assert SetFpsFirst(s, names, 10, fps) == SetFps(SetFpsFirst(s, names, 9, fps), a.emptyReloadAnimation, fps);
    assert SetFpsFirst(s, names, 11, fps) == SetFps(SetFpsFirst(s, names, 10, fps), a.criticalFireAnimation, fps);
    assert SetFpsFirst(s, names, 12, fps) == SetFps(SetFpsFirst(s, names, 11, fps), a.enemyPreFireAnimation, fps);
    assert SetFpsFirst(s, names, 13, fps) == SetFps(SetFpsFirst(s, names, 12, fps), a.alternateShootAnimation, fps);
    assert SetFpsFirst(s, names, 14, fps) == SetFps(SetFpsFirst(s, names, 13, fps), a.alternateReloadAnimation, fps);
  }

  /** The library after `SetupSprite`: all roles synchronised, then frame rates set when `fps != 0`. */
  function SetupSpriteView(s: seq<ClipState>, source: FrameSource, collectionName: string,
                           gunName: string, fps: int): seq<ClipState>
  {
    if fps != 0 then
      SetAnimationFpsView(SyncAll(s, source, collectionName, gunName), AnimationsAfterSync(source, collectionName, gunName), fps)
    else
      SyncAll(s, source, collectionName, gunName)
  }

  // ---------------------------------------------------------------------------

  /** An upsert under another name leaves the first clip called `other` where and as it was. */
  lemma UpsertOther(s: seq<ClipState>, name: string, frames: seq<Frame>, returnToIdle: bool, other: string)
    requires name != other && Lookup(s, other).Some?
    ensures var r := Upsert(s, name, frames, returnToIdle);
      Lookup(r, other) == Lookup(s, other) && r[Lookup(s, other).value] == s[Lookup(s, other).value]
  {
    var k := Lookup(s, other).value;
    var r := Upsert(s, name, frames, returnToIdle);
    if Lookup(s, name).None? {
      AppendKeepsLookup(s, NewClip(name, frames, returnToIdle), other);
    } else {
      var i := Lookup(s, name).value;
      assert r == s[i := s[i].(frames := frames)];
      LookupByNames(s, r, other);
    }
  }

  /** Appending a clip does not move the first clip called `other`. */
  lemma AppendKeepsLookup(s: seq<ClipState>, c: ClipState, other: string)
    requires Lookup(s, other).Some?
    ensures Lookup(s + [c], other) == Lookup(s, other)
  {
    var k := Lookup(s, other).value;
    var r := s + [c];
    assert r[k] == s[k];
    var j := Lookup(r, other).value;
    assert j <= k;
    assert r[j] == s[j];
  }

  /** Synchronising keeps the names of a library distinct. */
  lemma {:induction false} SyncKeepsDistinct(s: seq<ClipState>, roles: seq<Role>, n: nat, source: FrameSource,
                                             collectionName: string, gunName: string)
    requires n <= |roles| && NamesDistinct(s)
    ensures NamesDistinct(SyncFirst(s, roles, n, source, collectionName, gunName))
  {
    if n > 0 {
      var r := roles[n - 1];
      var t := SyncFirst(s, roles, n - 1, source, collectionName, gunName);
      SyncKeepsDistinct(s, roles, n - 1, source, collectionName, gunName);
      var frames := FramesFor(source, collectionName, gunName, r);
      if frames.Some? {
        UpsertKeepsDistinct(t, ClipName(gunName, Name(r)), frames.value, ReturnsToIdle(r));
      }
    }
  }

  /**
   * After synchronising the first `n` roles of a list without repeats, every
   * one of them that has frames (role `roles[j]`) has a clip under its derived
   * name, and the first such clip holds exactly that role's frames.
   */
  lemma {:induction false} SyncHasClip(s: seq<ClipState>, roles: seq<Role>, n: nat, source: FrameSource,
                                       collectionName: string, gunName: string, j: nat)
    requires n <= |roles| && forall a, b :: 0 <= a < b < n ==> roles[a] != roles[b]
    requires j < n && FramesFor(source, collectionName, gunName, roles[j]).Some?
    ensures var t := SyncFirst(s, roles, n, source, collectionName, gunName);
      var k := Lookup(t, ClipName(gunName, Name(roles[j])));
      k.Some? && t[k.value].frames == FramesFor(source, collectionName, gunName, roles[j]).value
  {
    var r := roles[j];
    var last := roles[n - 1];
    var t0 := SyncFirst(s, roles, n - 1, source, collectionName, gunName);
    var frames := FramesFor(source, collectionName, gunName, last);
    if j == n - 1 {
      UpsertFinds(t0, ClipName(gunName, Name(r)), frames.value, ReturnsToIdle(r));
    } else {
      SyncHasClip(s, roles, n - 1, source, collectionName, gunName, j);
      if frames.Some? {
        NameInjective(last, r);
        ClipNameInjective(gunName, Name(last), Name(r));
        UpsertOther(t0, ClipName(gunName, Name(last)), frames.value, ReturnsToIdle(last),
                    ClipName(gunName, Name(r)));
      }
    }
  }

  /** Synchronising roles whose clips already hold their frames changes nothing. */
  lemma {:induction false} SyncFixed(t: seq<ClipState>, roles: seq<Role>, n: nat, source: FrameSource,
                                     collectionName: string, gunName: string)
    requires n <= |roles|
    requires forall j :: 0 <= j < n && FramesFor(source, collectionName, gunName, roles[j]).Some? ==>
      var k := Lookup(t, ClipName(gunName, Name(roles[j])));
      k.Some? && t[k.value].frames == FramesFor(source, collectionName, gunName, roles[j]).value
    ensures SyncFirst(t, roles, n, source, collectionName, gunName) == t
  {
    if n > 0 {
      var last := roles[n - 1];
      SyncFixed(t, roles, n - 1, source, collectionName, gunName);
      var frames := FramesFor(source, collectionName, gunName, last);
      if frames.Some? {
        UpsertUnchanged(t, ClipName(gunName, Name(last)), frames.value, ReturnsToIdle(last));
      }
    }
  }

  /**
   * Running `UpdateAnimations` a second time with the same frames leaves the
   * library as the first run left it: no clip is duplicated and none changes.
   */
  lemma SyncIdempotent(s: seq<ClipState>, source: FrameSource, collectionName: string, gunName: string)
    ensures var t := SyncAll(s, source, collectionName, gunName);
      SyncAll(t, source, collectionName, gunName) == t
  {
    var t := SyncAll(s, source, collectionName, gunName);
    SyncOrderIsComplete();
    forall j | 0 <= j < |SyncOrder| && FramesFor(source, collectionName, gunName, SyncOrder[j]).Some?
      ensures var k := Lookup(t, ClipName(gunName, Name(SyncOrder[j])));
        k.Some? && t[k.value].frames == FramesFor(source, collectionName, gunName, SyncOrder[j]).value
    {
      SyncHasClip(s, SyncOrder, |SyncOrder|, source, collectionName, gunName, j);
    }
    SyncFixed(t, SyncOrder, |SyncOrder|, source, collectionName, gunName);
  }

  /** Every field of `a` that is set holds the clip name of its own role. */
  predicate FieldsNameOwnClips(a: AnimationNames, gunName: string)
  {
    forall r :: a.Get(r).Some? ==> a.Get(r) == Some(ClipName(gunName, Name(r)))
  }

  /** After `UpdateAnimations` every set field holds the clip name of its own role. */
  lemma SyncedFieldsNameOwnClips(source: FrameSource, collectionName: string, gunName: string)
    ensures FieldsNameOwnClips(AnimationsAfterSync(source, collectionName, gunName), gunName)
  {
    forall r {
      AnimationsAfterSyncGet(source, collectionName, gunName, r);
    }
  }

  /**
   * When every set field names its own role's clip, the clip of a role
   * outside the frame-rate list (dodge, alternate idle) is never among the
   * names `SetAnimationFPS(gun, fps)` visits.
   */
  lemma OmittedRoleNotVisited(a: AnimationNames, gunName: string, r: Role)
    requires FieldsNameOwnClips(a, gunName) && r !in FpsOrder
    ensures Some(ClipName(gunName, Name(r))) !in a.Fields(FpsOrder)
  {
    var fs := a.Fields(FpsOrder);
    forall k | 0 <= k < |fs| ensures fs[k] != Some(ClipName(gunName, Name(r))) {
      if fs[k].Some? {
        ClipNameInjective(gunName, Name(FpsOrder[k]), Name(r));
        NameInjective(FpsOrder[k], r);
      }
    }
  }

  /** `SetAnimationFPS(gun, fps)` changes only frame rates, and not that of a clip no visited field names. */
  lemma SetAnimationFpsKeeps(t: seq<ClipState>, a: AnimationNames, fps: int, i: nat)
    requires i < |t| && Some(t[i].name) !in a.Fields(FpsOrder)
    ensures var u := SetAnimationFpsView(t, a, fps);
      |u| == |t| && u[i] == t[i]
  {
    var names := a.Fields(FpsOrder);
    FpsOrderOmitsDodgeAndAlternateIdle();
    SetFpsUntouched(t, names, 14, fps, i);
    SetFpsOnlyFps(t, names, 14, fps);
  }

  /**
   * On a library without duplicate names, `SetAnimationFPS(gun, fps)` gives
   * `fps` to a clip that a visited field names, and changes nothing else of it.
   */
  lemma SetAnimationFpsHits(t: seq<ClipState>, a: AnimationNames, fps: int, i: nat, r: Role)
    requires NamesDistinct(t) && i < |t| && t[i].name != ""
    requires r in FpsOrder && a.Get(r) == Some(t[i].name)
    ensures var u := SetAnimationFpsView(t, a, fps);
      |u| == |t| && u[i].fps == fps && u[i].frames == t[i].frames
  {
    var names := a.Fields(FpsOrder);
    FpsOrderOmitsDodgeAndAlternateIdle();
    var m :| 0 <= m < |FpsOrder| && FpsOrder[m] == r;
    SetFpsHits(t, names, 14, fps, i, m);
    SetFpsOnlyFps(t, names, 14, fps);
  }

  /**
   * The frame-rate step of `SetupSprite` leaves the dodge and alternate-idle
   * clips of the synchronised library `t` exactly as they are: the fields the
   * sync filled never name them in the visited roles.
   */
  lemma SetupSpriteKeepsOmittedFps(t: seq<ClipState>, source: FrameSource, collectionName: string,
                                   gunName: string, fps: int, r: Role, i: nat)
    requires r == Dodge || r == AlternateIdle
    requires i < |t| && t[i].name == ClipName(gunName, Name(r))
    ensures var u := SetAnimationFpsView(t, AnimationsAfterSync(source, collectionName, gunName), fps);
      |u| == |t| && u[i] == t[i]
  {
    var a := AnimationsAfterSync(source, collectionName, gunName);
    assert r !in FpsOrder;
    SyncedFieldsNameOwnClips(source, collectionName, gunName);
    OmittedRoleNotVisited(a, gunName, r);
    SetAnimationFpsKeeps(t, a, fps, i);
  }

  /**
   * `SetupSprite` with a non-zero frame rate, on a library without duplicate
   * names, gives `fps` to the clip of every listed role that has frames.
   */
  lemma SetupSpriteSetsListedFps(s: seq<ClipState>, source: FrameSource, collectionName: string,
                                 gunName: string, fps: int, r: Role)
    requires NamesDistinct(s) && fps != 0
    requires r in FpsOrder && FramesFor(source, collectionName, gunName, r).Some?
    ensures var t := SyncAll(s, source, collectionName, gunName);
      var u := SetupSpriteView(s, source, collectionName, gunName, fps);
      var k := Lookup(t, ClipName(gunName, Name(r)));
      k.Some? && |u| == |t| && u[k.value].fps == fps && u[k.value].frames == t[k.value].frames
  {
    var t := SyncAll(s, source, collectionName, gunName);
    SyncOrderIsComplete();
    assert r in SyncOrder;
    var j :| 0 <= j < |SyncOrder| && SyncOrder[j] == r;
    SyncHasClip(s, SyncOrder, |SyncOrder|, source, collectionName, gunName, j);
    SyncKeepsDistinct(s, SyncOrder, |SyncOrder|, source, collectionName, gunName);
    var k := Lookup(t, ClipName(gunName, Name(r))).value;
    AnimationsAfterSyncGet(source, collectionName, gunName, r);
    SetAnimationFpsHits(t, AnimationsAfterSync(source, collectionName, gunName), fps, k, r);
  }
}
