# DGRG_2 gameplay state machines in Dafny

A model of three sequential pieces of the DGRG_2 role-playing game's
gameplay code, with proofs of what they promise:

- **The interactable component** (`UInteractable`): one lock flag,
  `m_bUnlocked`, true on construction; `Interact` broadcasts Interact or
  CantInteract according to it; `SetLock`, `SetUnlock`, `SetFocusIn` and
  `SetFocusOut` each broadcast one event.
- **The player character's focus and attack-target selection**
  (`APlayerCharacter`): every tick a line trace decides the interact object
  `m_InteractObj` and a box trace decides the attack target
  `m_CurrentAttackTarget`, with ordered broadcasts and render-focus effects;
  movement input is dropped while attacking.
- **The item manager's loot drop** (`UItemManager`): the item-type dispatch
  table, the drop roll, equipment tier rolling, and the protocol that sets
  the monster's level and tier-roll ratio, makes `GoldRoll` gold-drop attempts (each drops a gold actor only when the navigation query finds a point) and
  the monster's items up to the first failed roll, then resets the level to
  1 and the ratio to the default.

Engine calls are inputs or abstract effects. A line or box trace is a
parameter (`InteractTrace`, `MonsterTrace`). Random draws and navigation
queries are parameters, given as functions from the attempt's index to the
engine's answer. Every delegate broadcast of the component and of the
player, and every render-focus or movement-input effect, is one entry of a
shared append-only log (`Events.EventLog`). The component and the player
both write to it, so the order across the two is visible. The item manager's
navigation queries and spawned drop actors go into its own log, `drops`.

Files: `basics.dfy` (counting, `Option`), `events.dfy` (the event
vocabulary and the log), `interactable.dfy`, `player.dfy`, `items.dfy`.
Each class sits next to pure functions that say what one call does and
what a run of calls does. The methods' `ensures` tie the new state to those
functions, and the lemmas prove the properties about them.
`Player.LockedThenUnlockedScenario` is a client of both classes. A locked
component becomes the interact object without being announced, and
interacting with it broadcasts CantInteract. After SetUnlock, the next tick
announces it and interacting broadcasts Interact.

## Model

| member | source | states |
|---|---|---|
| `Interactables.Interactable.constructor` | DGRG_2/Interactable.cpp:6-10 | a new component is unlocked |
| `Interactables.Interactable.Interact` | DGRG_2/Interactable.cpp:13-21 | locked: exactly one CantInteract(actor) is appended; unlocked: exactly one Interact(actor); the lock flag is unchanged either way |
| `Interactables.Interactable.SetLock` | DGRG_2/Interactable.cpp:23-27 | afterwards locked, with exactly one Locked event appended, whatever the previous state (no guard) |
| `Interactables.Interactable.SetUnlock` | DGRG_2/Interactable.cpp:29-33 | afterwards unlocked, with exactly one Unlocked event appended |
| `Interactables.Interactable.SetFocusIn` | DGRG_2/Interactable.cpp:35-38 | appends only FocusIn; the lock flag is unchanged |
| `Interactables.Interactable.SetFocusOut` | DGRG_2/Interactable.cpp:40-43 | appends only FocusOut; the lock flag is unchanged |
| `Interactables.UnlockedAfter` | DGRG_2/Interactable.cpp:23-33 | only SetLock and SetUnlock change the flag (to false and true); every other call keeps it |
| `Interactables.Emitted` | DGRG_2/Interactable.cpp:13-43 | each call broadcasts one event of its own kind; an Interact broadcasts Interact iff unlocked and CantInteract iff locked |
| `Interactables.RunEvents` | DGRG_2/Interactable.cpp:13-43 | a run of calls broadcasts exactly as many events as there are calls |
| `Interactables.RunUnlockedIsLastSetting` | DGRG_2/Interactable.cpp:13-33 | after any run of calls, the lock state is the one the last SetLock or SetUnlock left, or the initial one if there was none |
| `Interactables.RunEventsAt` | DGRG_2/Interactable.cpp:13-43 | the i-th event of a run is the one the i-th call broadcasts in the state the earlier calls left |
| `Interactables.InteractOutcomeOnFresh` | DGRG_2/Interactable.cpp:6-21 | on a new component, an Interact broadcasts Interact iff the last lock call before it (if any) was SetUnlock |
| `Player.MovementEvents` | DGRG_2/Actor/PlayerCharacter.cpp:60-96 | no movement input while attacking, without a controller, or for a zero value; otherwise exactly one input on the given axis with that value |
| `Player.PlayerCharacter.MoveForward` | DGRG_2/Actor/PlayerCharacter.cpp:60-76 | appends exactly MovementEvents for the forward axis |
| `Player.PlayerCharacter.MoveRight` | DGRG_2/Actor/PlayerCharacter.cpp:78-96 | appends exactly MovementEvents for the right axis |
| `Player.PlayerCharacter.constructor` | DGRG_2/Actor/PlayerCharacter.cpp:41-42 | no interact object and no attack target at start |
| `Player.PlayerCharacter.SetNullInteract` | DGRG_2/Actor/PlayerCharacter.cpp:105-108 | clears the interact object and nothing else |
| `Player.InteractCheckEvents` | DGRG_2/Actor/PlayerCharacter.cpp:144-148 | a previous interact object is taken out of focus first: render off, then its FocusOut |
| `Player.InteractCheckAnnouncements` | DGRG_2/Actor/PlayerCharacter.cpp:153-174 | exactly one FailFoundInteract iff nothing interactable was hit; exactly one FoundInteract, then render on and FocusIn, iff an unlocked one was hit; a locked hit emits nothing beyond the focus-off |
| `Player.SteadyFocusIsRenewed` | DGRG_2/Actor/PlayerCharacter.cpp:144-169 | looking at the same unlocked object on consecutive ticks takes its focus off and puts it back on every tick |
| `Player.PlayerCharacter.TryCheckInteractable` | DGRG_2/Actor/PlayerCharacter.cpp:131-175 | the interact object becomes the hit component, even a locked one, or null; the log grows by exactly InteractCheckEvents; the attack target is untouched |
| `Player.PlayerCharacter.InteractWithTarget` | DGRG_2/Actor/PlayerCharacter.cpp:212-221 | returns true iff an interact object is held, and only then calls its Interact with the player as actor |
| `Player.SetTargetEvents` | DGRG_2/Actor/PlayerCharacter.cpp:237-249 | the old target, if any, is ended (render off, FoundEndMonster) before FoundMonster and render-on of the new one |
| `Player.PlayerCharacter.SetNullAttackTarget` | DGRG_2/Actor/PlayerCharacter.cpp:227-235 | afterwards no target; render off and FoundEndMonster(old) only if there was one, so a second call is a no-op |
| `Player.PlayerCharacter.SetAttackTarget` | DGRG_2/Actor/PlayerCharacter.cpp:237-249 | the target becomes the given monster; the log grows by SetTargetEvents of the old target |
| `Player.PlayerCharacter.GetAttackTarget` | DGRG_2/Actor/PlayerCharacter.cpp:251-254 | returns the current attack target |
| `Player.TargetCheck` | DGRG_2/Actor/PlayerCharacter.cpp:177-210 | hitting the current target changes and emits nothing; hitting another monster makes it the target; a miss clears the target, with one FoundEndMonster only if there was one; a hit on a non-monster (a null cast) changes and emits nothing, the corrected behaviour of the Findings row; events are emitted iff the target changes |
| `Player.PlayerCharacter.TryCheckTargetMonster` | DGRG_2/Actor/PlayerCharacter.cpp:177-210 | the new target and the appended events are TargetCheck's |
| `Player.PlayerCharacter.Tick` | DGRG_2/Actor/PlayerCharacter.cpp:110-115 | the interaction check's events come before the monster check's; the attacking flag is unchanged |
| `Player.TargetCheckBalance` | DGRG_2/Actor/PlayerCharacter.cpp:196-249 | one tick keeps the FoundMonster count plus the old target equal to the FoundEndMonster count plus the new target |
| `Player.TargetRunBalance` | DGRG_2/Actor/PlayerCharacter.cpp:177-249 | over any run of ticks, every FoundMonster is matched by a FoundEndMonster except the one for the target still held |
| `Player.RepeatedTraceIsSilent` | DGRG_2/Actor/PlayerCharacter.cpp:196-209 | seeing the same trace result on the next tick emits nothing and keeps the target |
| `Player.TargetCheckAsWritten` | DGRG_2/Actor/PlayerCharacter.cpp:194-201 | as written, the check fails by null dereference exactly when a non-monster is hit while a target is set; otherwise it agrees with TargetCheck |
| `Player.NonMonsterHitDereferencesNull` | DGRG_2/Actor/PlayerCharacter.cpp:237-248 | the input that reaches SetRenderFocusOn with a null target |
| `Items.Dispatch` | DGRG_2/Manager/ItemManager.cpp:17-21 | EQUIP goes to the equipment constructor and MATERIAL to the material one; NORMAL, ENCHANT and GEM (and only they) go to the normal one |
| `Items.NewItem` | DGRG_2/Manager/ItemManager.cpp:78-108 | the created item keeps its row; it is equipment iff the type is EQUIP, and then it carries the drawn tier, the current ratio and the current level |
| `Items.ItemDropRoll` | DGRG_2/Manager/ItemManager.cpp:32-42 | true iff the drawn value is at most the entry's chance; false iff the chance is below it |
| `Items.Int32` | DGRG_2/Manager/ItemManager.cpp:173 | the scaled gold amount is the product wrapped to a signed 32-bit int; it is the product itself whenever that fits |
| `Items.AttemptCounts` | DGRG_2/Manager/ItemManager.cpp:204-230 | one drop attempt asks one navigation query and drops its actor exactly when the query found a point |
| `Items.GoldDropsQueries` | DGRG_2/Manager/ItemManager.cpp:174-179 | n gold attempts ask exactly n navigation queries |
| `Items.GoldDropsDropped` | DGRG_2/Manager/ItemManager.cpp:174-179 | n gold attempts drop one gold actor per successful query and no item |
| `Items.GoldDropsContents` | DGRG_2/Manager/ItemManager.cpp:168-181 | every entry of the gold attempts is a query or a gold actor with the scaled amount |
| `Items.GoldDropsFacts` | DGRG_2/Manager/ItemManager.cpp:168-181 | n gold attempts ask exactly n navigation queries and drop one gold actor per success, each with the same amount, and no item |
| `Items.FirstFailure` | DGRG_2/Manager/ItemManager.cpp:187-198 | the first index whose roll fails, or the list length: every earlier entry passes its roll |
| `Items.ItemDropsQueries` | DGRG_2/Manager/ItemManager.cpp:187-198 | processing k entries asks exactly k navigation queries |
| `Items.ItemDropsDropped` | DGRG_2/Manager/ItemManager.cpp:187-198 | processing k entries drops one item per successful query and no gold |
| `Items.ItemDropsContents` | DGRG_2/Manager/ItemManager.cpp:187-198 | every dropped item is the one created for one of those k entries |
| `Items.ItemDropsFacts` | DGRG_2/Manager/ItemManager.cpp:187-198 | processing k entries asks exactly k navigation queries, drops one item per successful query and no gold, and every dropped item is the one created for one of those k entries |
| `Items.EntriesAfterFailureIgnored` | DGRG_2/Manager/ItemManager.cpp:187-198 | entries after the first failed roll are never created or dropped: drop lists that agree up to that entry give the same drops and the same tier, whatever their lengths |
| `Items.TruncatedAfterFailure` | DGRG_2/Manager/ItemManager.cpp:187-198 | cutting the drop list just after the failed entry changes neither the drops nor the tier |
| `Items.SpawnDropsFacts` | DGRG_2/Manager/ItemManager.cpp:154-199 | every equipment item dropped for a monster has that monster's level and ratio; every gold actor carries level times the gold amount; queries = gold roll + entries that passed |
| `Items.SpawnDropsCounts` | DGRG_2/Manager/ItemManager.cpp:154-199 | a monster's loot holds one gold actor per successful gold query and one item per successful query among the entries that passed |
| `Items.ItemManager.constructor` | DGRG_2/Manager/ItemManager.cpp:14-22 | before Init the level is 0 and the roll and tier pointers are unset (start values assumed by the model; see Left out) |
| `Items.ItemManager.Init` | DGRG_2/Manager/ItemManager.cpp:24-30 | afterwards the roll pointer is the default ratio, the tier is NORMAL and the level is 1 |
| `Items.ItemManager.SetCurrentItemLevel` | DGRG_2/Manager/ItemManager.cpp:110-113 | sets the level and nothing else |
| `Items.ItemManager.SetItemTierRollPtr` | DGRG_2/Manager/ItemManager.cpp:115-118 | sets the roll pointer and nothing else |
| `Items.ItemManager.SetItemTierRollNull` | DGRG_2/Manager/ItemManager.cpp:149-152 | puts the roll pointer back to the default ratio |
| `Items.ItemManager.SetCurrentItemTier` | DGRG_2/Manager/ItemManager.cpp:138-141 | sets the current tier and nothing else |
| `Items.ItemManager.GetCurrentItemLevel` | DGRG_2/Manager/ItemManager.cpp:120-123 | returns the current level |
| `Items.ItemManager.GetCurrentItemTier` | DGRG_2/Manager/ItemManager.cpp:143-146 | returns the current tier |
| `Items.ItemManager.RollItemTier` | DGRG_2/Manager/ItemManager.cpp:130-136 | leaves the roll pointer at the given ratio and the current tier at the tier that ratio produced, and returns that tier |
| `Items.ItemManager.CreateNormalItem` | DGRG_2/Manager/ItemManager.cpp:78-83 | a normal item for the row |
| `Items.ItemManager.CreateEquipItem` | DGRG_2/Manager/ItemManager.cpp:85-96 | an equipment item with the tier drawn from the current ratio and stats for the current level; the pointer stays |
| `Items.ItemManager.CreateMaterialItem` | DGRG_2/Manager/ItemManager.cpp:98-103 | a material item for the row |
| `Items.ItemManager.PerformCreateItemFuncPtr` | DGRG_2/Manager/ItemManager.cpp:105-108 | creates NewItem through the dispatch table; only an equipment item changes the current tier |
| `Items.ItemManager.CreateItemInstance` | DGRG_2/Manager/ItemManager.cpp:125-128 | same as PerformCreateItemFuncPtr |
| `Items.ItemManager.CreateAndDropItemInRandomGround` | DGRG_2/Manager/ItemManager.cpp:201-215 | returns true iff the navigation query found a point, and spawns the item actor only then |
| `Items.ItemManager.CreateAndDropGoldInRandomGround` | DGRG_2/Manager/ItemManager.cpp:217-231 | returns true iff the navigation query found a point, and spawns the gold actor only then |
| `Items.ItemManager.DropGoldFromMonster` | DGRG_2/Manager/ItemManager.cpp:168-181 | makes exactly GoldRoll attempts, GoldRoll in [0, tier], each with the scaled amount |
| `Items.ItemManager.DropItemFromMonster` | DGRG_2/Manager/ItemManager.cpp:183-199 | processes entries in order up to the first failed roll; the drops and the tier are those of that prefix; needs a tier-roll pointer only if an equipment entry is reached |
| `Items.ItemManager.SpawnDropItemFromMonster` | DGRG_2/Manager/ItemManager.cpp:154-166 | drops gold, then items, at the monster's level and with its ratio; afterwards the level is 1 and the pointer is the default, whatever the monster |

## Left out

- The fog-of-war worker (`AFogOfWarWorker.h`): only its header exists, and its point is a background thread. It is not part of this model.
- `UInteractable`'s header holds declarations only. It supplies the fields and delegates modelled above.
- Engine queries (`LineTraceSingleByObjectType`, `BoxTraceSingle`, `GetRandomPointInNavigableRadius`, `FMath::RandRange`) are inputs. The trace start and end points and the random point found are not modelled.
- Engine effects are abstract log entries: `SetRenderCustomDepth` is `RenderFocus`, `AddMovementInput` is `MovementInput`, and `SpawnActor` plus `DropToGround` is one `DroppedItem` or `DroppedGold`. `NewObject` is the creation of a `StoredItem` value.
- Vector and rotator maths are floating point and not modelled: movement direction, facing in `TryAttack`, camera and movement constants in the constructor. So are `SetPortraitActor`, `SetupPlayerInputComponent`, `GetKill` and the `Super::` calls.
- Floating point: the drop roll's chance and its drawn value, and the `float Value` of `MoveForward` and `MoveRight`, are reals, with no rounding; NaN and signed zero are not modelled.
- `SetRandomItemStat`, `SetRandomOption`, `SetRandomTierRoll` and `GetItemTier` live in files that are not part of this model. An equipment item records the level and ratio its stats and tier came from; the random option is not modelled. The current tier is the tier enumeration's value, not the looked-up tier record.
- The data-table row lookup `GetRow` is not modelled: each drop entry holds its item row directly.
- Player.PlayerCharacter.TryCheckTargetMonster: on a box hit that is not a monster while a target is set it returns without doing anything, where the source calls `SetAttackTarget(nullptr)` (`PlayerCharacter.cpp:201`) and dereferences null at lines 248 and 274. It models the corrected behaviour of the Findings row; the as-written failure is `Player.TargetCheckAsWritten`.
- Player.PlayerCharacter.SetAttackTarget: it takes a non-null monster. With a null target the source dereferences null in `SetRenderFocusOn`, so that call is given no behaviour here (see Findings).
- The attacking flag `m_IsAttacking` belongs to the base character, which is not part of this model. The source's constructor never writes it; the model's constructor starting it at false is an assumption of this model, and nothing here sets it.
- `GetRandomNavPoint`, `CreateDropItemActor` and `CreateDropGoldActor` are folded into the two `CreateAndDrop*InRandomGround` methods, as one navigation answer and one drop entry.
- Items.ItemManager.GetCurrentItemTier: requires a current tier. Before `Init` the source's `*m_CurrentItemTier` dereferences a null pointer (`ItemManager.cpp:145`); that undefined behaviour is not modelled.
- Items.ItemManager.RollItemTier, Items.ItemManager.CreateEquipItem, Items.ItemManager.PerformCreateItemFuncPtr and Items.ItemManager.CreateItemInstance: require a tier-roll ratio to be set (the last two only for an EQUIP row). Before `Init` the source's `m_CurrentItemTierRoll->SetRandomTierRoll()` dereferences a null pointer (`ItemManager.cpp:133`); that undefined behaviour is not modelled. Items.ItemManager.DropItemFromMonster requires the same only when an equipment entry is reached.
- Items.Int32: C++ leaves signed overflow undefined, and the operand types of the product are declared in headers that are not part of this model; two's-complement wrap-around is the reading modelled.
- Items.ItemManager.constructor: the source's constructors (`ItemManager.cpp:9-22`) write neither `m_CurrentItemLevel`, `m_CurrentItemTierRoll` nor `m_CurrentItemTier`, and the one at lines 9-12 does not fill `m_ItemSelect`. Level 0, unset pointers and an always-filled dispatch table are assumptions of this model.
- Components and the player share one event log: the model requires a focused component to broadcast into the player's log.

## Findings

| source | as written | input that shows it | evidently intended | confidence | as-written member | corrected member |
|---|---|---|---|---|---|---|
| DGRG_2/Actor/PlayerCharacter.cpp:194-201 | a box-trace hit on an actor that is not a monster casts to null. If that differs from the current target, it goes to `SetAttackTarget(nullptr)`, whose null guard is commented out, and `SetRenderFocusOn` dereferences null | a target is set and the box trace hits a non-monster actor | the commented-out guard at lines 239-242: a null target changes nothing | low (it only happens if the trace channel can return non-monsters); not executed | `Player.TargetCheckAsWritten`, `Player.NonMonsterHitDereferencesNull` | `Player.TargetCheck` |
