# GunExt: gun animation clips and projectile lists

This project models the gun extensions of ModTheGungeonAPI
(`ModTheGungeonAPI/ETGMod/Extensions/GunExt.cs`). These are the extension methods a mod
uses to give a `Gun` its sprite animations and projectiles:

- `UpdateAnimation` creates or refreshes one animation clip `<gun name>_<animation>` in
  the gun's clip library.
- `UpdateAnimations` does that for the sixteen animation roles of a gun and stores each
  clip name in its role field.
- The two `SetAnimationFPS` overloads set the frame rate of one named clip, or of the
  clips named by fourteen role fields: every role except dodge and alternate idle.
- `AddProjectile`, `AddProjectileFrom`, `AddProjectileModule` and
  `AddProjectileModuleFrom` append projectiles to a gun's default module and projectile
  modules to its volley.
- `SetupSprite` chains these steps: it sets the catalog sprite, syncs the animations,
  resolves the default sprite id, then sets the frame rates.

Layout:

- `wrappers.dfy`: `Option`, which stands for a C# reference that may be null.
- `roles.dfy` (module `Roles`): the sixteen roles, each with its animation name and its
  `returnToIdle` flag. It also holds the order `UpdateAnimations` visits them in, the
  fourteen roles `SetAnimationFPS(gun, fps)` visits, and the gun's role fields as one
  record (`AnimationNames`).
- `clip_library.dfy` (module `ClipLibrary`): the clip library seen as a value, a
  sequence of clips in array order. Each clip is its name, frame rate, wrap mode and
  frames.
  - `Upsert` is what `UpdateAnimation` does once frames are found.
  - `SetFps` is the single-clip frame-rate setter.
  - The lemmas say what both do to the library.
- `sync.dfy` (module `Sync`): the library and the role fields after `UpdateAnimations`,
  after `SetAnimationFPS(gun, fps)` and after `SetupSprite`. These states are stated
  twice:
  - once as the program's call sequence written out (`UpdateAnimationsCalls`,
    `UpdateAnimationsFields`, `SetAnimationFpsCalls`);
  - once as a fold over the role lists (`SyncAll`, `AnimationsAfterSync`,
    `SetAnimationFpsView`).

  Bridge lemmas prove the two forms equal. The fold forms carry the properties:
  idempotence, distinct names, which clips get which frame rate.
- `host.dfy` (module `Host`): the host-engine objects the extensions update in place:
  - the clip library (`tk2dSpriteAnimation`) and the sprite animator;
  - the gun;
  - projectile modules, the volley, and the host `List<T>`.
- `gun_ext.dfy` (module `GunExt`): the extension methods themselves, as methods on
  those objects.
  - The animation and frame-rate methods (`UpdateAnimation`, `UpdateAnimations`, both
    `SetAnimationFPS` overloads and `SetupSprite`) are proved against the value view
    of modules `Sync` and `ClipLibrary`.
  - The projectile methods state their effect directly on the items of the host
    lists.

The frames of an animation come from a `FrameSource`. It maps (collection name, gun
name, animation name) to that animation's frames. A triple missing from the map stands
for "no frames", which the program sees as a null frame array. The host's sprite-id
lookup is the function `Collection.spriteIdByName`.

## Model

| member | source | states |
|---|---|---|
| ClipLibrary.ClipName | ModTheGungeonAPI/ETGMod/Extensions/GunExt.cs:84 | The clip name is the gun name, an underscore, then the animation name, and nothing else |
| ClipLibrary.ClipNameInjective | ModTheGungeonAPI/ETGMod/Extensions/GunExt.cs:84 | Two animations of one gun get the same clip name only if they are the same animation |
| ClipLibrary.Lookup | ModTheGungeonAPI/ETGMod/Extensions/GunExt.cs:85 | The clip lookup finds the first clip with the name, or none exactly when no clip has it |
| ClipLibrary.UpsertCreates | ModTheGungeonAPI/ETGMod/Extensions/GunExt.cs:86-99 | With no clip of that name, the library grows by exactly one and every old clip keeps its index. The new last clip has the derived name, fps 15 and the given frames. Its wrap mode is Once iff returnToIdle, otherwise the host default |
| ClipLibrary.UpsertUpdates | ModTheGungeonAPI/ETGMod/Extensions/GunExt.cs:85-99 | With a clip of that name, the length is unchanged and only that clip's frames change. Its name, fps and wrap mode stay, and every other clip stays |
| ClipLibrary.UpsertKeepsNames | ModTheGungeonAPI/ETGMod/Extensions/GunExt.cs:85-99 | The upsert never removes or renames a clip |
| ClipLibrary.UpsertFinds | ModTheGungeonAPI/ETGMod/Extensions/GunExt.cs:84-99 | Afterwards the lookup of the clip name succeeds, and that clip holds the new frames |
| ClipLibrary.LookupByNames | ModTheGungeonAPI/ETGMod/Extensions/GunExt.cs:85 | Libraries with the same names position by position give the same lookup result |
| ClipLibrary.UpsertIdempotent | ModTheGungeonAPI/ETGMod/Extensions/GunExt.cs:85-99 | A second upsert with the same frames changes nothing, whatever its returnToIdle |
| ClipLibrary.UpsertUnchanged | ModTheGungeonAPI/ETGMod/Extensions/GunExt.cs:85-99 | The upsert changes nothing when the found clip already holds those frames |
| ClipLibrary.UpsertCount | ModTheGungeonAPI/ETGMod/Extensions/GunExt.cs:85-97 | The upsert never adds a second clip of a name: the count of the name becomes 1 if it was 0, else it stays. Other names' counts are unchanged |
| ClipLibrary.UpsertKeepsDistinct | ModTheGungeonAPI/ETGMod/Extensions/GunExt.cs:85-97 | A library without duplicate names keeps none after an upsert |
| ClipLibrary.SetFpsByName | ModTheGungeonAPI/ETGMod/Extensions/GunExt.cs:132-145 | On distinct names, the clip named by a non-null, non-empty name gets the fps and nothing else in the library changes. A null or empty name, or a name no clip has, changes nothing |
| ClipLibrary.SetFpsOnlyFps | ModTheGungeonAPI/ETGMod/Extensions/GunExt.cs:111-124 | A run of frame-rate calls changes only frame rates: length, names, wrap modes and frames stay |
| ClipLibrary.SetFpsUntouched | ModTheGungeonAPI/ETGMod/Extensions/GunExt.cs:111-124 | A clip whose name is passed to none of the calls keeps its frame rate |
| ClipLibrary.SetFpsHits | ModTheGungeonAPI/ETGMod/Extensions/GunExt.cs:111-124 | On distinct names, a clip whose non-empty name is passed to one of the calls ends with that frame rate |
| Roles.AnimationNames.With | ModTheGungeonAPI/ETGMod/Extensions/GunExt.cs:49-64 | Assigning one role field sets that role and leaves the other fifteen as they were |
| Roles.AnimationNames.Fields | ModTheGungeonAPI/ETGMod/Extensions/GunExt.cs:111-124 | The fields of a role list, in the list's order, one per role |
| Roles.FieldsDetermine | ModTheGungeonAPI/ETGMod/Extensions/GunExt.cs:49-64 | The sixteen role fields are the whole of the record: agreeing on every role means equal |
| Roles.NameInjective | ModTheGungeonAPI/ETGMod/Extensions/GunExt.cs:49-64 | The sixteen animation names are pairwise different |
| Roles.SyncOrderIsComplete | ModTheGungeonAPI/ETGMod/Extensions/GunExt.cs:49-64 | `UpdateAnimations` visits every role, exactly once |
| Roles.FpsOrderOmitsDodgeAndAlternateIdle | ModTheGungeonAPI/ETGMod/Extensions/GunExt.cs:111-124 | The frame-rate list has 14 roles without repeats: a role is listed iff it is neither dodge nor alternate idle |
| Sync.UpdateAnimationsFollowsSyncOrder | ModTheGungeonAPI/ETGMod/Extensions/GunExt.cs:49-64 | The sixteen written-out calls, with their names and returnToIdle flags, equal syncing the role list in order |
| Sync.UpdateAnimationsFieldsGet | ModTheGungeonAPI/ETGMod/Extensions/GunExt.cs:49-64 | Each role field is assigned what the call for that role returned |
| Sync.UpdateAnimationsFieldsFollowSyncOrder | ModTheGungeonAPI/ETGMod/Extensions/GunExt.cs:49-64 | The fields after the sixteen assignments do not depend on the fields found before |
| Sync.FieldsAfterGet | ModTheGungeonAPI/ETGMod/Extensions/GunExt.cs:49-64 | After a prefix of the roles, a visited role's field holds its call's result and an unvisited one keeps its old value |
| Sync.AnimationsAfterSyncGet | ModTheGungeonAPI/ETGMod/Extensions/GunExt.cs:79-101 | After `UpdateAnimations`, a role's field is `<gun>_<role name>` when the role has frames, and null when it has none |
| Sync.SetAnimationFpsFollowsFpsOrder | ModTheGungeonAPI/ETGMod/Extensions/GunExt.cs:111-124 | The fourteen written-out frame-rate calls equal applying the setter to the fields of the frame-rate list, in order |
| Sync.UpsertOther | ModTheGungeonAPI/ETGMod/Extensions/GunExt.cs:84-99 | Upserting one name leaves the first clip of another name where and as it was |
| Sync.AppendKeepsLookup | ModTheGungeonAPI/ETGMod/Extensions/GunExt.cs:95-96 | Growing the array by one slot at the end does not move any clip the lookup finds |
| Sync.SyncKeepsDistinct | ModTheGungeonAPI/ETGMod/Extensions/GunExt.cs:49-64 | Syncing roles keeps a library free of duplicate names |
| Sync.SyncHasClip | ModTheGungeonAPI/ETGMod/Extensions/GunExt.cs:49-64 | After syncing distinct roles, every role with frames has a clip under its derived name holding exactly its frames |
| Sync.SyncFixed | ModTheGungeonAPI/ETGMod/Extensions/GunExt.cs:49-64 | Syncing roles whose clips already hold their frames changes nothing |
| Sync.NoFramesSyncsNothing | ModTheGungeonAPI/ETGMod/Extensions/GunExt.cs:79-82 | When the source has frames for none of the sixteen animations, `UpdateAnimations` leaves the library as it was |
| Sync.SyncIdempotent | ModTheGungeonAPI/ETGMod/Extensions/GunExt.cs:45-65 | Running `UpdateAnimations` again with the same frames leaves the library as the first run did: no duplicates, no changes |
| Sync.SyncedFieldsNameOwnClips | ModTheGungeonAPI/ETGMod/Extensions/GunExt.cs:49-64 | After `UpdateAnimations` every non-null role field names its own role's clip |
| Sync.OmittedRoleNotVisited | ModTheGungeonAPI/ETGMod/Extensions/GunExt.cs:111-124 | When each field names its own role's clip, the dodge and alternate-idle clips are never passed to the frame-rate setter |
| Sync.SetAnimationFpsKeeps | ModTheGungeonAPI/ETGMod/Extensions/GunExt.cs:109-125 | `SetAnimationFPS(gun, fps)` leaves unchanged a clip that none of the fourteen visited fields names, and keeps the length |
| Sync.SetAnimationFpsHits | ModTheGungeonAPI/ETGMod/Extensions/GunExt.cs:109-125 | On distinct names, a clip named by a visited role field gets the fps and keeps its frames |
| Sync.SetupSpriteKeepsOmittedFps | ModTheGungeonAPI/ETGMod/Extensions/GunExt.cs:238-244 | The frame-rate step of `SetupSprite` leaves the dodge and alternate-idle clips exactly as the sync left them |
| Sync.SetupSpriteSetsListedFps | ModTheGungeonAPI/ETGMod/Extensions/GunExt.cs:238-244 | With fps not 0 and distinct names, every listed role with frames ends with a clip carrying its frames at that fps |
| Host.AnimationLibrary.GetClipByName | ModTheGungeonAPI/ETGMod/Extensions/GunExt.cs:139 | The scan returns the slot of the first clip with the name, or none when no clip has it |
| Host.List.Add | ModTheGungeonAPI/ETGMod/Extensions/GunExt.cs:180 | `List.Add` appends exactly the one element |
| Host.ProjectileModule.CreateClone | ModTheGungeonAPI/ETGMod/Extensions/GunExt.cs:204 | The clone is a new module that starts with the source's list references |
| GunExt.UpdateAnimation | ModTheGungeonAPI/ETGMod/Extensions/GunExt.cs:75-102 | With no frames: returns null and leaves the library unchanged. Otherwise: returns `<gun>_<name>` and the library becomes the upsert of that clip. The library is needed only when frames exist |
| GunExt.UpdateAnimations | ModTheGungeonAPI/ETGMod/Extensions/GunExt.cs:45-65 | The library becomes the sync of all sixteen roles in the program's order. Each role field holds its call's result, null for a role with no frames. A gun with no animator or library is accepted when no role has frames |
| GunExt.SetAnimationFPSByName | ModTheGungeonAPI/ETGMod/Extensions/GunExt.cs:132-145 | A null or empty name, a null gun, animator or library, or a missing clip changes nothing. Otherwise only the found clip's fps changes |
| GunExt.SetAnimationFPS | ModTheGungeonAPI/ETGMod/Extensions/GunExt.cs:109-125 | The library becomes the single-clip setter applied to the fourteen listed role fields, in order; dodge and alternate idle are not passed |
| GunExt.AddProjectileFrom | ModTheGungeonAPI/ETGMod/Extensions/GunExt.cs:164-170 | An empty source list, or a null first entry, returns null and appends nothing. Otherwise that same projectile reference is appended and returned |
| GunExt.AddProjectile | ModTheGungeonAPI/ETGMod/Extensions/GunExt.cs:178-182 | Appends the projectile to the default module's list and returns it |
| GunExt.AddProjectileModuleFrom | ModTheGungeonAPI/ETGMod/Extensions/GunExt.cs:201-208 | Appends one new module to the volley and returns it. Its two lists are new list objects with the source module's elements |
| GunExt.AddProjectileModule | ModTheGungeonAPI/ETGMod/Extensions/GunExt.cs:216-220 | Appends the module to the volley's list and returns it |
| GunExt.SetupSprite | ModTheGungeonAPI/ETGMod/Extensions/GunExt.cs:229-245 | The catalog sprite becomes `defaultSprite` when one is given, before the default sprite id is resolved from it. Animations are synced. Frame rates are set only when fps is not 0. A gun with no animator or library is accepted when no role has frames |

## Left out

- Clips are values in the library's sequence, not shared clip objects. Writes to
  `clip.frames` and `clip.fps` are updates of a slot. Aliasing of one clip object by
  two arrays, or by a caller holding the reference `GetClipByName` returned, is not
  captured.
- `Array.Resize` plus the write into the new last slot is modelled as reassigning the
  library's `clips` sequence to the old one with the new clip appended.
- `GetClipByName` is a host method whose body is not part of this model. It is taken
  to return the first clip with the name, scanning from the front, so that the library
  view is deterministic.
- The sprite cache (`GunAnimationSpriteCache`, `UpdateCollection`,
  `TryGetAnimationFrames`) is not part of this model. The frames are a finite map from
  (collection, gun, animation) names, so no caching and no reading of sprite
  definitions is modelled.
- The sixteen animation-name fields of the gun are one record-valued field. Assigning
  one field is a record update that leaves the other fifteen as they were.
- The gun's name, its sprite animator and the animator's library are constant
  references. The extensions never reassign them.
- GunExt.UpdateAnimation: requires the gun to have an animator and a library when the
  source has frames for the animation. In that case the program dereferences a null
  animator or library and throws a `NullReferenceException`. The model does not
  describe that exception.
- The optional `collection` argument and its `WeaponCollection` default are not
  modelled. The collection is always passed.
- `GetSprite().SetSprite(...)` in `SetupSprite` is not modelled. Only the assignment of
  `DefaultSpriteID` from the collection's sprite-id lookup is kept.
- The journal chain `encounterTrackable.journalData.AmmonomiconSprite` is one gun field,
  `ammonomiconSprite`.
- `ProjectileModule.CreateClone` is a host method whose body is not part of this model.
  The clone is a new module object whose two list fields start as the source's lists.
  No other module field is modelled.
- `AddProjectileFrom(string)` and `AddProjectileModuleFrom(string)` are not modelled.
  They look a gun up in the host item database by name and cast it.
- `SetName`, `SetShortDescription` and `SetLongDescription` are not modelled. They
  only forward a string to the host string database.
- Frame rates are unbounded integers. C# `int` range is not modelled, since the code
  only stores the value.
