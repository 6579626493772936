/**
 * The animation roles a gun has. Each role has a field on the gun, a name that
 * forms the second half of its clip's name, and a flag saying whether a newly
 * created clip for it plays once and returns to idle.
 */
module Roles {

  import opened Wrappers

  datatype Role =
    | Idle | Dodge | Intro | Empty | Fire | Reload | Charge | OutOfAmmo | Discharge
    | FinalFire | EmptyReload | CriticalFire | EnemyPreFire
    | AlternateShoot | AlternateReload | AlternateIdle

  /** The animation name passed to `UpdateAnimation` for a role. */
  function Name(r: Role): string
  {
    match r
    case Idle => "idle"
    case Dodge => "dodge"
    case Intro => "intro"
    case Empty => "empty"
    case Fire => "fire"
    case Reload => "reload"
    case Charge => "charge"
    case OutOfAmmo => "out_of_ammo"
    case Discharge => "discharge"
    case FinalFire => "final_fire"
    case EmptyReload => "empty_reload"
    case CriticalFire => "critical_fire"
    case EnemyPreFire => "enemy_pre_fire"
    case AlternateShoot => "alternate_shoot"
    case AlternateReload => "alternate_reload"
    case AlternateIdle => "alternate_idle"
  }

  /** The `returnToIdle` argument `UpdateAnimations` passes for a role. */
  predicate ReturnsToIdle(r: Role)
  {
    match r
    case Intro | Fire | Reload | FinalFire | EmptyReload | CriticalFire
      | AlternateShoot | AlternateReload => true
    case _ => false
  }

  /** The order in which `UpdateAnimations` synchronises the roles. */
  const SyncOrder: seq<Role> :=
    [Idle, Dodge, Intro, Empty, Fire, Reload, Charge, OutOfAmmo, Discharge,
     FinalFire, EmptyReload, CriticalFire, EnemyPreFire,
     AlternateShoot, AlternateReload, AlternateIdle]

  /** The order in which `SetAnimationFPS(gun, fps)` visits the role fields. */
  const FpsOrder: seq<Role> :=
    [Idle, Intro, Empty, Fire, Reload, Charge, OutOfAmmo, Discharge,
     FinalFire, EmptyReload, CriticalFire, EnemyPreFire,
     AlternateShoot, AlternateReload]

  /**
   * The gun's sixteen animation-name fields, one per role; None stands for a
   * null name. The gun holds them as one record so that a method can update
   * one field and leave the other fifteen as they were.
   */
  datatype AnimationNames = AnimationNames(
    idleAnimation: Option<string>,
    dodgeAnimation: Option<string>,
    introAnimation: Option<string>,
    emptyAnimation: Option<string>,
    shootAnimation: Option<string>,
    reloadAnimation: Option<string>,
    chargeAnimation: Option<string>,
    outOfAmmoAnimation: Option<string>,
    dischargeAnimation: Option<string>,
    finalShootAnimation: Option<string>,
    emptyReloadAnimation: Option<string>,
    criticalFireAnimation: Option<string>,
    enemyPreFireAnimation: Option<string>,
    alternateShootAnimation: Option<string>,
    alternateReloadAnimation: Option<string>,
    alternateIdleAnimation: Option<string>)
  {
    /** The field of role `r`. */
    function Get(r: Role): Option<string>
    {
      match r
      case Idle => idleAnimation
      case Dodge => dodgeAnimation
      case Intro => introAnimation
      case Empty => emptyAnimation
      case Fire => shootAnimation
      case Reload => reloadAnimation
      case Charge => chargeAnimation
      case OutOfAmmo => outOfAmmoAnimation
      case Discharge => dischargeAnimation
      case FinalFire => finalShootAnimation
      case EmptyReload => emptyReloadAnimation
      case CriticalFire => criticalFireAnimation
      case EnemyPreFire => enemyPreFireAnimation
      case AlternateShoot => alternateShootAnimation
      case AlternateReload => alternateReloadAnimation
      case AlternateIdle => alternateIdleAnimation
    }

    /** These fields with the field of role `r` set to `v`. */
    function With(r: Role, v: Option<string>): (b: AnimationNames)
      ensures b.Get(r) == v
      ensures forall q :: q != r ==> b.Get(q) == Get(q)
    {
      match r
      case Idle => this.(idleAnimation := v)
      case Dodge => this.(dodgeAnimation := v)
      case Intro => this.(introAnimation := v)
      case Empty => this.(emptyAnimation := v)
      case Fire => this.(shootAnimation := v)
      case Reload => this.(reloadAnimation := v)
      case Charge => this.(chargeAnimation := v)
      case OutOfAmmo => this.(outOfAmmoAnimation := v)
      case Discharge => this.(dischargeAnimation := v)
      case FinalFire => this.(finalShootAnimation := v)
      case EmptyReload => this.(emptyReloadAnimation := v)
      case CriticalFire => this.(criticalFireAnimation := v)
      case EnemyPreFire => this.(enemyPreFireAnimation := v)
      case AlternateShoot => this.(alternateShootAnimation := v)
      case AlternateReload => this.(alternateReloadAnimation := v)
      case AlternateIdle => this.(alternateIdleAnimation := v)
    }

    /** The fields of `roles`, in order. */
    function Fields(roles: seq<Role>): (fs: seq<Option<string>>)
      ensures |fs| == |roles| && forall k :: 0 <= k < |roles| ==> fs[k] == Get(roles[k])
    {
      if roles == [] then [] else [Get(roles[0])] + Fields(roles[1..])
    }
  }

  /** The fields of a gun that has no animations yet. */
  const NoAnimations := AnimationNames(None, None, None, None, None, None, None, None,
                                       None, None, None, None, None, None, None, None)

  /** Two sets of fields that agree on every role are equal. */
  lemma FieldsDetermine(a: AnimationNames, b: AnimationNames)
    requires forall r :: a.Get(r) == b.Get(r)
    ensures a == b
  {
    assert a.Get(Idle) == b.Get(Idle);
    assert a.Get(Dodge) == b.Get(Dodge);
    assert a.Get(Intro) == b.Get(Intro);
    assert a.Get(Empty) == b.Get(Empty);
    assert a.Get(Fire) == b.Get(Fire);
    assert a.Get(Reload) == b.Get(Reload);
    assert a.Get(Charge) == b.Get(Charge);
    assert a.Get(OutOfAmmo) == b.Get(OutOfAmmo);
    assert a.Get(Discharge) == b.Get(Discharge);
    assert a.Get(FinalFire) == b.Get(FinalFire);
    assert a.Get(EmptyReload) == b.Get(EmptyReload);
    assert a.Get(CriticalFire) == b.Get(CriticalFire);
    assert a.Get(EnemyPreFire) == b.Get(EnemyPreFire);
    assert a.Get(AlternateShoot) == b.Get(AlternateShoot);
    assert a.Get(AlternateReload) == b.Get(AlternateReload);
    assert a.Get(AlternateIdle) == b.Get(AlternateIdle);
  }

  /** Different roles have different names, so their clips have different names. */
  lemma NameInjective(a: Role, b: Role)
    ensures Name(a) == Name(b) ==> a == b
  {
  }

  /** `UpdateAnimations` visits every role exactly once. */
  lemma SyncOrderIsComplete()
    ensures |SyncOrder| == 16
    ensures forall r: Role :: r in SyncOrder
    ensures forall i, j :: 0 <= i < j < |SyncOrder| ==> SyncOrder[i] != SyncOrder[j]
  {
    forall r: Role ensures r in SyncOrder {
      var k := match r
        case Idle => 0 case Dodge => 1 case Intro => 2 case Empty => 3
        case Fire => 4 case Reload => 5 case Charge => 6 case OutOfAmmo => 7
        case Discharge => 8 case FinalFire => 9 case EmptyReload => 10
        case CriticalFire => 11 case EnemyPreFire => 12 case AlternateShoot => 13
        case AlternateReload => 14 case AlternateIdle => 15;
      assert SyncOrder[k] == r;
    }
  }

  /** The frame-rate setter visits every role except dodge and alternate idle, once each. */
  lemma FpsOrderOmitsDodgeAndAlternateIdle()
    ensures |FpsOrder| == 14
    ensures forall r: Role :: r in FpsOrder <==> r != Dodge && r != AlternateIdle
    ensures forall i, j :: 0 <= i < j < |FpsOrder| ==> FpsOrder[i] != FpsOrder[j]
  {
  }
}
