/** The interactable component: a two-state (locked / unlocked) machine whose
    every call broadcasts exactly one event. */
module Interactables {
  import opened Events

  /** The calls the component offers, as values, so that a sequence of them
      can be reasoned about. */
  datatype Call =
    | CallInteract(actor: ActorId)
    | CallSetLock
    | CallSetUnlock
    | CallSetFocusIn
    | CallSetFocusOut

  /** The lock flag after one call: only SetLock and SetUnlock write it. */
  function UnlockedAfter(unlocked: bool, c: Call): (u: bool)
    ensures c == CallSetLock ==> !u
    ensures c == CallSetUnlock ==> u
    ensures c != CallSetLock && c != CallSetUnlock ==> u == unlocked
  {
    match c
    case CallSetLock => false
    case CallSetUnlock => true
    case _ => unlocked
  }

  /** The one event a call broadcasts, given the lock flag before the call. */
  function Emitted(owner: ActorId, unlocked: bool, c: Call): (e: Event)
    ensures c.CallInteract? ==> (e == Interacted(owner, c.actor) <==> unlocked)
    ensures c.CallInteract? ==> (e == CantInteract(owner, c.actor) <==> !unlocked)
    ensures e.Interacted? || e.CantInteract? <==> c.CallInteract?
    ensures e.Locked? <==> c == CallSetLock
    ensures e.Unlocked? <==> c == CallSetUnlock
    ensures e.FocusIn? <==> c == CallSetFocusIn
    ensures e.FocusOut? <==> c == CallSetFocusOut
    ensures (e.Interacted? || e.CantInteract? || e.Locked? || e.Unlocked? || e.FocusIn? || e.FocusOut?) && e.component == owner
  {
    match c
    case CallInteract(actor) => if unlocked then Interacted(owner, actor) else CantInteract(owner, actor)
    case CallSetLock => Locked(owner)
    case CallSetUnlock => Unlocked(owner)
    case CallSetFocusIn => FocusIn(owner)
    case CallSetFocusOut => FocusOut(owner)
  }

  /** The lock flag after a sequence of calls, applied front to back. */
  function RunUnlocked(unlocked: bool, calls: seq<Call>): bool
    decreases |calls|
  {
    if calls == [] then unlocked else RunUnlocked(UnlockedAfter(unlocked, calls[0]), calls[1..])
  }

  /** The events a sequence of calls broadcasts, in order. */
  function RunEvents(owner: ActorId, unlocked: bool, calls: seq<Call>): (es: seq<Event>)
    ensures |es| == |calls|
    decreases |calls|
  {
    if calls == [] then []
    else [Emitted(owner, unlocked, calls[0])] + RunEvents(owner, UnlockedAfter(unlocked, calls[0]), calls[1..])
  }

  /** Reference definition of the lock state: the last SetLock or SetUnlock
      decides it, and without one the initial value stays. */
  function LastSetting(calls: seq<Call>, initial: bool): bool
  {
    if calls == [] then initial
    else if calls[|calls| - 1] == CallSetLock then false
    else if calls[|calls| - 1] == CallSetUnlock then true
    else LastSetting(calls[..|calls| - 1], initial)
  }

  lemma {:induction false} RunUnlockedSnoc(unlocked: bool, calls: seq<Call>, c: Call)
    ensures RunUnlocked(unlocked, calls + [c]) == UnlockedAfter(RunUnlocked(unlocked, calls), c)
    decreases |calls|
  {
    if calls != [] {
      assert (calls + [c])[1..] == calls[1..] + [c];
      RunUnlockedSnoc(UnlockedAfter(unlocked, calls[0]), calls[1..], c);
    }
  }

  /** Whatever the calls, the lock state is the one the last SetLock or
      SetUnlock left; Interact and the focus calls never change it. */
  lemma {:induction false} RunUnlockedIsLastSetting(unlocked: bool, calls: seq<Call>)
    ensures RunUnlocked(unlocked, calls) == LastSetting(calls, unlocked)
  {
    if calls != [] {
      var front := calls[..|calls| - 1];
      assert calls == front + [calls[|calls| - 1]];
      RunUnlockedSnoc(unlocked, front, calls[|calls| - 1]);
      RunUnlockedIsLastSetting(unlocked, front);
    }
  }

  /** Each call broadcasts exactly one event, and the i-th event is the one
      the i-th call emits in the state the earlier calls left. */
  lemma {:induction false} RunEventsAt(owner: ActorId, unlocked: bool, calls: seq<Call>, i: nat)
    requires i < |calls|
    ensures RunEvents(owner, unlocked, calls)[i] == Emitted(owner, RunUnlocked(unlocked, calls[..i]), calls[i])
    decreases i
  {
    if i > 0 {
      var u := UnlockedAfter(unlocked, calls[0]);
      RunEventsAt(owner, u, calls[1..], i - 1);
      assert calls[1..][..i - 1] == calls[..i][1..];
    }
  }

  /** On a freshly constructed (unlocked) component, the i-th call, if it is
      an Interact, broadcasts Interact exactly when no SetLock came after the
      last SetUnlock before it, and CantInteract otherwise. */
  lemma InteractOutcomeOnFresh(owner: ActorId, calls: seq<Call>, i: nat)
    requires i < |calls| && calls[i].CallInteract?
    ensures RunEvents(owner, true, calls)[i] ==
            if LastSetting(calls[..i], true) then Interacted(owner, calls[i].actor)
            else CantInteract(owner, calls[i].actor)
  {
    RunEventsAt(owner, true, calls, i);
    RunUnlockedIsLastSetting(true, calls[..i]);
  }

  /** UInteractable: the component attached to an owner actor; its delegates
      broadcast into the world's event log. */
  class Interactable {
    const owner: ActorId
    const log: EventLog
    var unlocked: bool

    /** A new component is unlocked. */
    constructor (owner: ActorId, log: EventLog)
      ensures this.owner == owner && this.log == log
      ensures unlocked
    {
      this.owner := owner;
      this.log := log;
      unlocked := true;
    }

    method Interact(actor: ActorId)
      modifies log
      ensures unlocked == old(unlocked)
      ensures !unlocked ==> log.events == old(log.events) + [CantInteract(owner, actor)]
      ensures unlocked ==> log.events == old(log.events) + [Interacted(owner, actor)]
      ensures log.events == old(log.events) + [Emitted(owner, old(unlocked), CallInteract(actor))]
    {
      if !unlocked {
        log.Broadcast(CantInteract(owner, actor));
        return;
      }
      log.Broadcast(Interacted(owner, actor));
    }

    /** No guard: locking a locked component broadcasts Locked again. */
    method SetLock()
      modifies this, log
      ensures !unlocked
      ensures log.events == old(log.events) + [Locked(owner)]
      ensures unlocked == UnlockedAfter(old(unlocked), CallSetLock)
      ensures log.events == old(log.events) + [Emitted(owner, old(unlocked), CallSetLock)]
    {
      unlocked := false;
      log.Broadcast(Locked(owner));
    }

    method SetUnlock()
      modifies this, log
      ensures unlocked
      ensures log.events == old(log.events) + [Unlocked(owner)]
      ensures unlocked == UnlockedAfter(old(unlocked), CallSetUnlock)
      ensures log.events == old(log.events) + [Emitted(owner, old(unlocked), CallSetUnlock)]
    {
      unlocked := true;
      log.Broadcast(Unlocked(owner));
    }

    method SetFocusIn()
      modifies log
      ensures unlocked == old(unlocked)
      ensures log.events == old(log.events) + [FocusIn(owner)]
      ensures log.events == old(log.events) + [Emitted(owner, old(unlocked), CallSetFocusIn)]
    {
      log.Broadcast(FocusIn(owner));
    }

    method SetFocusOut()
      modifies log
      ensures unlocked == old(unlocked)
      ensures log.events == old(log.events) + [FocusOut(owner)]
      ensures log.events == old(log.events) + [Emitted(owner, old(unlocked), CallSetFocusOut)]
    {
      log.Broadcast(FocusOut(owner));
    }
  }
}
