/** The observable outputs of the interactable component and of the player
    character: every delegate broadcast, and every engine effect that the two
    classes ask for, as one entry of a shared, append-only event log. */
module Events {

  /** An engine actor (the owner of a component, a monster, the player). */
  type ActorId = nat

  /** The two movement axes bound by the player's input component. */
  datatype Axis = Forward | Right

  datatype Event =
    // broadcasts of an interactable component, tagged with its owner
    | Interacted(component: ActorId, actor: ActorId)        // OnInteractBP
    | CantInteract(component: ActorId, actor: ActorId)      // OnCantInteractBP
    | Locked(component: ActorId)                         // OnLockedBP
    | Unlocked(component: ActorId)                       // OnUnlockedBP
    | FocusIn(component: ActorId)                        // OnFocusInBP
    | FocusOut(component: ActorId)                       // OnFocusOutBP
    // broadcasts of the player character
    | FoundInteract                                      // OnFoundInteractBP
    | FailFoundInteract                                  // OnFailFoundInteractBP
    | FoundMonster(monster: ActorId)                     // OnFoundMonsterBP
    | FoundEndMonster(monster: ActorId)                  // OnFoundEndMonsterBP
    // engine effects requested by the player character
    | RenderFocus(actor: ActorId, on: bool)              // SetRenderCustomDepth on the actor's mesh
    | MovementInput(axis: Axis, value: real)             // AddMovementInput

  predicate IsFoundMonster(e: Event) { e.FoundMonster? }
  predicate IsFoundEndMonster(e: Event) { e.FoundEndMonster? }
  predicate IsFoundInteract(e: Event) { e.FoundInteract? }
  predicate IsFailFoundInteract(e: Event) { e.FailFoundInteract? }

  /** The multicast delegates of one world, seen as a single log that every
      broadcast appends to, in the order in which the broadcasts happen. */
  class EventLog {
    var events: seq<Event>

    constructor ()
      ensures events == []
    {
      events := [];
    }

    method Broadcast(e: Event)
      modifies this
      ensures events == old(events) + [e]
    {
      events := events + [e];
    }
  }
}
