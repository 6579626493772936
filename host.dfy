/**
 * The host-engine objects the gun extensions read and update in place: clips
 * and their library, the sprite animator, the gun, and the projectile modules
 * with their lists. Only the fields the extensions touch are modelled.
 */
module Host {

  import opened Wrappers
  import opened ClipLibrary
  import opened Roles

  /** A sprite collection: its name and the host's lookup from sprite name to sprite id. */
  datatype Collection = Collection(name: string, spriteIdByName: string -> int)

  /**
   * A clip library (tk2dSpriteAnimation). Its clip array is grown by
   * replacing it with a longer copy, so the field is reassigned as a whole;
   * each slot holds the clip's state.
   */
  class AnimationLibrary {
    var clips: seq<ClipState>

    constructor (clips: seq<ClipState>)
      ensures this.clips == clips
    {
      this.clips := clips;
    }

    /**
     * The slot of the clip called `name` that a front-to-back scan finds
     * first, or None. The slot stands for the clip reference the host returns.
     */
    method GetClipByName(name: string) returns (slot: Option<nat>)
      ensures slot == Lookup(clips, name)
    {
      var i := 0;
      while i < |clips|
        invariant 0 <= i <= |clips|
        invariant forall j :: 0 <= j < i ==> clips[j].name != name
      {
        if clips[i].name == name {
          return Some(i);
        }
        i := i + 1;
      }
      return None;
    }
  }

  /** A gun's sprite animator: it owns the clip library, which may be missing. */
  class SpriteAnimator {
    const library: AnimationLibrary?

    constructor (library: AnimationLibrary?)
      ensures this.library == library
    {
      this.library := library;
    }
  }

  /** A projectile prototype; guns share them by reference. */
  class Projectile {
  }

  /** A charge-level projectile entry of a projectile module. */
  class ChargeProjectile {
  }

  /** A host `List<T>`: a growable list object that is shared by reference. */
  class List<T> {
    var items: seq<T>

    constructor (items: seq<T>)
      ensures this.items == items
    {
      this.items := items;
    }

    method Add(x: T)
      modifies this
      ensures items == old(items) + [x]
    {
      items := items + [x];
    }
  }

  /** A projectile module: what a gun fires, held in two lists. */
  class ProjectileModule {
    var projectiles: List<Projectile?>
    var chargeProjectiles: List<ChargeProjectile?>

    constructor (projectiles: List<Projectile?>, chargeProjectiles: List<ChargeProjectile?>)
      ensures this.projectiles == projectiles && this.chargeProjectiles == chargeProjectiles
    {
      this.projectiles := projectiles;
      this.chargeProjectiles := chargeProjectiles;
    }

    /** The host's clone: a new module object whose fields are copied member by member. */
    constructor CreateClone(source: ProjectileModule)
      ensures projectiles == source.projectiles && chargeProjectiles == source.chargeProjectiles
    {
      projectiles := source.projectiles;
      chargeProjectiles := source.chargeProjectiles;
    }
  }

  /** A gun's volley: its list of projectile modules. */
  class ProjectileVolley {
    var projectiles: List<ProjectileModule>

    constructor (projectiles: List<ProjectileModule>)
      ensures this.projectiles == projectiles
    {
      this.projectiles := projectiles;
    }
  }

  /** A gun, with the fields the extensions read and write. */
  class Gun {
    const name: string
    /** The animation-name fields (`idleAnimation`, `shootAnimation`, …). */
    var animations: AnimationNames
    const spriteAnimator: SpriteAnimator?
    var defaultModule: ProjectileModule
    var volley: ProjectileVolley
    /** The catalog (ammonomicon) sprite name of the gun's journal entry. */
    var ammonomiconSprite: string
    var defaultSpriteId: int

    constructor (name: string, spriteAnimator: SpriteAnimator?, defaultModule: ProjectileModule,
                 volley: ProjectileVolley, ammonomiconSprite: string)
      ensures this.name == name && this.spriteAnimator == spriteAnimator
      ensures this.defaultModule == defaultModule && this.volley == volley
      ensures this.ammonomiconSprite == ammonomiconSprite && defaultSpriteId == 0
      ensures animations == NoAnimations
    {
      this.name := name;
      this.spriteAnimator := spriteAnimator;
      this.defaultModule := defaultModule;
      this.volley := volley;
      this.ammonomiconSprite := ammonomiconSprite;
      defaultSpriteId := 0;
      animations := NoAnimations;
    }

    /** The gun has an animator and the animator has a library. */
    predicate HasLibrary()
    {
      spriteAnimator != null && spriteAnimator.library != null
    }

    function Lib(): AnimationLibrary
      requires HasLibrary()
    {
      spriteAnimator.library
    }

    /** The library object: what updating the gun's animations may change. */
    ghost function LibraryRepr(): set<object>
    {
      if HasLibrary() then {Lib()} else {}
    }

    /** The gun's clips; empty when it has no library. */
    ghost function ClipView(): seq<ClipState>
      reads LibraryRepr()
    {
      if HasLibrary() then Lib().clips else []
    }
  }
}
