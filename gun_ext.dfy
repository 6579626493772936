/**
 * The gun extensions: keeping a gun's animation clips in step with its sprite
 * frames, setting clip frame rates, and composing its projectiles and
 * projectile modules. Each method is the extension method of the same name,
 * with the gun as its first parameter.
 */
module GunExt {

  import opened Wrappers
  import opened ClipLibrary
  import opened Roles
  import opened Sync
  import opened Host

  /**
   * Gives the gun's clip `<gun name>_<name>` the frames the source has for this
   * animation, creating the clip (frame rate 15, played once when
   * `returnToIdle`) when the library has none by that name. Returns the clip
   * name, or None without touching anything when there are no frames.
   */
  method UpdateAnimation(gun: Gun, name: string, collection: Collection, source: FrameSource,
                         returnToIdle: bool) returns (clipName: Option<string>)
    requires Frames(source, collection.name, gun.name, name).Some? ==> gun.HasLibrary()
    modifies gun.LibraryRepr()
    ensures clipName == UpdateAnimationResult(gun.name, name, Frames(source, collection.name, gun.name, name))
    ensures gun.animations == old(gun.animations)
    ensures gun.ClipView()
         == UpdateAnimationView(old(gun.ClipView()), gun.name, name,
                                Frames(source, collection.name, gun.name, name), returnToIdle)
  {
    var frames := Frames(source, collection.name, gun.name, name);
    if frames.None? {
      return None;
    }
    clipName := Some(gun.name + "_" + name);
    var library := gun.spriteAnimator.library;
    var slot := library.GetClipByName(clipName.value);
    if slot.None? {
      var clip := ClipState(clipName.value, NewClipFps, DefaultWrapMode, []);
      if returnToIdle {
        clip := clip.(wrapMode := Once);
      }
      library.clips := library.clips + [clip];
      slot := Some(|library.clips| - 1);
    }
    var i := slot.value;
    library.clips := library.clips[i := library.clips[i].(frames := frames.value)];
  }

  /**
   * Synchronises all sixteen animation roles of the gun, in the order of
   * `SyncOrder`, and stores each role's clip name (or None) in its field.
   */
  method UpdateAnimations(gun: Gun, collection: Collection, source: FrameSource)
    requires gun.HasLibrary() || NoFrames(source, collection.name, gun.name)
    modifies gun`animations, gun.LibraryRepr()
    ensures gun.animations == AnimationsAfterSync(source, collection.name, gun.name)
    ensures gun.ClipView() == SyncAll(old(gun.ClipView()), source, collection.name, gun.name)
  {
    ghost var before := gun.ClipView();
    ghost var found := gun.animations;
    var clipName := UpdateAnimation(gun, "idle", collection, source, false);
    gun.animations := gun.animations.(idleAnimation := clipName);
    clipName := UpdateAnimation(gun, "dodge", collection, source, false);
    gun.animations := gun.animations.(dodgeAnimation := clipName);
    clipName := UpdateAnimation(gun, "intro", collection, source, true);
    gun.animations := gun.animations.(introAnimation := clipName);
    clipName := UpdateAnimation(gun, "empty", collection, source, false);
    gun.animations := gun.animations.(emptyAnimation := clipName);
    clipName := UpdateAnimation(gun, "fire", collection, source, true);
    gun.animations := gun.animations.(shootAnimation := clipName);
    clipName := UpdateAnimation(gun, "reload", collection, source, true);
    gun.animations := gun.animations.(reloadAnimation := clipName);
    clipName := UpdateAnimation(gun, "charge", collection, source, false);
    gun.animations := gun.animations.(chargeAnimation := clipName);
    clipName := UpdateAnimation(gun, "out_of_ammo", collection, source, false);
    gun.animations := gun.animations.(outOfAmmoAnimation := clipName);
    clipName := UpdateAnimation(gun, "discharge", collection, source, false);
    gun.animations := gun.animations.(dischargeAnimation := clipName);
    clipName := UpdateAnimation(gun, "final_fire", collection, source, true);
    gun.animations := gun.animations.(finalShootAnimation := clipName);
    clipName := UpdateAnimation(gun, "empty_reload", collection, source, true);
    gun.animations := gun.animations.(emptyReloadAnimation := clipName);
    clipName := UpdateAnimation(gun, "critical_fire", collection, source, true);
    gun.animations := gun.animations.(criticalFireAnimation := clipName);
    clipName := UpdateAnimation(gun, "enemy_pre_fire", collection, source, false);
    gun.animations := gun.animations.(enemyPreFireAnimation := clipName);
    clipName := UpdateAnimation(gun, "alternate_shoot", collection, source, true);
    gun.animations := gun.animations.(alternateShootAnimation := clipName);
    clipName := UpdateAnimation(gun, "alternate_reload", collection, source, true);
    gun.animations := gun.animations.(alternateReloadAnimation := clipName);
    clipName := UpdateAnimation(gun, "alternate_idle", collection, source, false);
    gun.animations := gun.animations.(alternateIdleAnimation := clipName);
    UpdateAnimationsFollowsSyncOrder(before, source, collection.name, gun.name);
    UpdateAnimationsFieldsFollowSyncOrder(found, source, collection.name, gun.name);
  }

  /**
   * Sets the frame rate of the clip called `name`. Does nothing when the name
   * is null or empty, the gun, its animator or its library is missing, or no
   * clip has that name.
   */
  method SetAnimationFPSByName(gun: Gun?, name: Option<string>, fps: int)
    modifies if gun != null then gun.LibraryRepr() else {}
    ensures gun != null ==> gun.ClipView() == SetFps(old(gun.ClipView()), name, fps)
  {
    if name.None? || name.value == "" || gun == null || gun.spriteAnimator == null
       || gun.spriteAnimator.library == null {
      return;
    }
    var library := gun.spriteAnimator.library;
    var slot := library.GetClipByName(name.value);
    if slot.None? {
      return;
    }
    var i := slot.value;
    library.clips := library.clips[i := library.clips[i].(fps := fps)];
  }

  /**
   * Sets the frame rate of the clips named by fourteen of the gun's role
   * fields, in the order of `FpsOrder`; the dodge and alternate-idle fields
   * are not visited.
   */
  method SetAnimationFPS(gun: Gun, fps: int)
    modifies gun.LibraryRepr()
    ensures gun.ClipView() == SetAnimationFpsView(old(gun.ClipView()), gun.animations, fps)
  {
    ghost var before := gun.ClipView();
    SetAnimationFPSByName(gun, gun.animations.idleAnimation, fps);
    SetAnimationFPSByName(gun, gun.animations.introAnimation, fps);
    SetAnimationFPSByName(gun, gun.animations.emptyAnimation, fps);
    SetAnimationFPSByName(gun, gun.animations.shootAnimation, fps);
    SetAnimationFPSByName(gun, gun.animations.reloadAnimation, fps);
    SetAnimationFPSByName(gun, gun.animations.chargeAnimation, fps);
    SetAnimationFPSByName(gun, gun.animations.outOfAmmoAnimation, fps);
    SetAnimationFPSByName(gun, gun.animations.dischargeAnimation, fps);
    SetAnimationFPSByName(gun, gun.animations.finalShootAnimation, fps);
    SetAnimationFPSByName(gun, gun.animations.emptyReloadAnimation, fps);
    SetAnimationFPSByName(gun, gun.animations.criticalFireAnimation, fps);
    SetAnimationFPSByName(gun, gun.animations.enemyPreFireAnimation, fps);
    SetAnimationFPSByName(gun, gun.animations.alternateShootAnimation, fps);
    SetAnimationFPSByName(gun, gun.animations.alternateReloadAnimation, fps);
    SetAnimationFpsFollowsFpsOrder(before, gun.animations, fps);
  }

  /**
   * Appends the first projectile of `other`'s default module to `gun`'s
   * default module, sharing the object, and returns it; returns null and
   * appends nothing when that list is empty or starts with null.
   */
  method AddProjectileFrom(gun: Gun, other: Gun) returns (p: Projectile?)
    modifies gun.defaultModule.projectiles
    ensures p == (if |old(other.defaultModule.projectiles.items)| == 0 then null
                  else old(other.defaultModule.projectiles.items[0]))
    ensures gun.defaultModule.projectiles.items
         == if p == null then old(gun.defaultModule.projectiles.items)
            else old(gun.defaultModule.projectiles.items) + [p]
  {
    if |other.defaultModule.projectiles.items| == 0 {
      return null;
    }
    var first := other.defaultModule.projectiles.items[0];
    if first == null {
      return null;
    }
    p := AddProjectile(gun, first);
  }

  /** Appends `projectile` to the gun's default module and returns it. */
  method AddProjectile(gun: Gun, projectile: Projectile?) returns (p: Projectile?)
    modifies gun.defaultModule.projectiles
    ensures p == projectile
    ensures gun.defaultModule.projectiles.items == old(gun.defaultModule.projectiles.items) + [projectile]
  {
    gun.defaultModule.projectiles.Add(projectile);
    return projectile;
  }

  /**
   * Appends to `gun`'s volley a clone of `other`'s default module whose two
   * lists are new list objects with the same elements as the source's.
   */
  method AddProjectileModuleFrom(gun: Gun, other: Gun) returns (m: ProjectileModule)
    modifies gun.volley.projectiles
    ensures fresh(m) && fresh(m.projectiles) && fresh(m.chargeProjectiles)
    ensures m.projectiles.items == old(other.defaultModule.projectiles.items)
    ensures m.chargeProjectiles.items == old(other.defaultModule.chargeProjectiles.items)
    ensures gun.volley.projectiles.items == old(gun.volley.projectiles.items) + [m]
  {
    var source := other.defaultModule;
    var clone := new ProjectileModule.CreateClone(source);
    clone.chargeProjectiles := new List(source.chargeProjectiles.items);
    clone.projectiles := new List(source.projectiles.items);
    m := AddProjectileModule(gun, clone);
  }

  /** Appends `projectileModule` to the gun's volley and returns it. */
  method AddProjectileModule(gun: Gun, projectileModule: ProjectileModule) returns (m: ProjectileModule)
    modifies gun.volley.projectiles
    ensures m == projectileModule
    ensures gun.volley.projectiles.items == old(gun.volley.projectiles.items) + [projectileModule]
  {
    gun.volley.projectiles.Add(projectileModule);
    return projectileModule;
  }

  /**
   * Sets up the gun's sprites: optionally renames its catalog sprite, then
   * synchronises its animations, then resolves its default sprite id from the
   * (possibly new) catalog sprite name, and last sets the frame rate of the
   * listed clips when `fps` is not 0.
   */
  method SetupSprite(gun: Gun, collection: Collection, source: FrameSource,
                     defaultSprite: Option<string>, fps: int)
    requires gun.HasLibrary() || NoFrames(source, collection.name, gun.name)
    modifies gun`ammonomiconSprite, gun`defaultSpriteId, gun`animations, gun.LibraryRepr()
    ensures gun.ammonomiconSprite == if defaultSprite.Some? then defaultSprite.value else old(gun.ammonomiconSprite)
    ensures gun.defaultSpriteId == collection.spriteIdByName(gun.ammonomiconSprite)
    ensures gun.animations == AnimationsAfterSync(source, collection.name, gun.name)
    ensures gun.ClipView() == SetupSpriteView(old(gun.ClipView()), source, collection.name, gun.name, fps)
  {
    if defaultSprite.Some? {
      gun.ammonomiconSprite := defaultSprite.value;
    }
    UpdateAnimations(gun, collection, source);
    gun.defaultSpriteId := collection.spriteIdByName(gun.ammonomiconSprite);
    if fps != 0 {
      SetAnimationFPS(gun, fps);
    }
  }
}
