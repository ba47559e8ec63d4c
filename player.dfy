/** The player character's per-tick focus and attack-target selection, and its
    movement guards. The engine's traces are inputs; every broadcast and every
    engine effect the character asks for is appended to the shared event log. */
module Player {
  import opened Counting
  import opened Wrappers
  import opened Events
  import opened Interactables

  /** Outcome of the forward line trace on the interaction channel. */
  datatype InteractTrace =
    | TraceMissed
    | HitWithoutInteractable                    // the hit actor has no Interactable component
    | HitInteractable(component: Interactable)  // the hit actor's Interactable component

  /** Outcome of the box trace on the monster channel: the hit actor cast to a
      monster, None when it is not one. */
  datatype MonsterTrace = BoxMissed | BoxHit(monster: Option<ActorId>)

  /** What a line trace shows the player: the component's owner and lock flag. */
  datatype Sighting = NoInteractable | Sighted(owner: ActorId, unlocked: bool)

  function SightingOf(trace: InteractTrace): Sighting
    reads if trace.HitInteractable? then {trace.component} else {}
  {
    if trace.HitInteractable? then Sighted(trace.component.owner, trace.component.unlocked)
    else NoInteractable
  }

  function OwnerOf(obj: Interactable?): Option<ActorId>
  {
    if obj == null then None else Some(obj.owner)
  }

  // ---------------------------------------------------------------- movement

  /** What MoveForward / MoveRight add: nothing while attacking, without a
      controller, or for a zero axis value. */
  function MovementEvents(attacking: bool, hasController: bool, axis: Axis, value: real): (es: seq<Event>)
    ensures attacking ==> es == []
    ensures es != [] <==> !attacking && hasController && value != 0.0
    ensures es == [] || es == [MovementInput(axis, value)]
  {
    if attacking then []
    else if hasController && value != 0.0 then [MovementInput(axis, value)]
    else []
  }

  // ------------------------------------------------------------- interaction

  /** Taking focus off the previous interactable: render off, then FocusOut. */
  function FocusOffEvents(prev: Option<ActorId>): seq<Event>
  {
    match prev
    case None => []
    case Some(owner) => [RenderFocus(owner, false), FocusOut(owner)]
  }

  /** The events of one TryCheckInteractable, given the owner of the previous
      interact object and what the trace showed. */
  function InteractCheckEvents(prev: Option<ActorId>, s: Sighting): (es: seq<Event>)
    ensures prev.Some? ==> |es| >= 2 && es[0] == RenderFocus(prev.value, false) && es[1] == FocusOut(prev.value)
    ensures es[..|FocusOffEvents(prev)|] == FocusOffEvents(prev)
  {
    FocusOffEvents(prev) +
    match s
    case NoInteractable => [FailFoundInteract]
    case Sighted(owner, unlocked) =>
      if unlocked then [FoundInteract, RenderFocus(owner, true), FocusIn(owner)] else []
  }

  /** Exactly one FailFoundInteract when nothing interactable was hit, exactly
      one FoundInteract (with render-on and FocusIn) when an unlocked one was
      hit, and neither for a locked one. */
  lemma InteractCheckAnnouncements(prev: Option<ActorId>, s: Sighting)
    ensures Count(InteractCheckEvents(prev, s), IsFailFoundInteract) == (if s.NoInteractable? then 1 else 0)
    ensures Count(InteractCheckEvents(prev, s), IsFoundInteract) == (if s.Sighted? && s.unlocked then 1 else 0)
    ensures s.Sighted? && s.unlocked ==>
              InteractCheckEvents(prev, s)[|FocusOffEvents(prev)|..] == [FoundInteract, RenderFocus(s.owner, true), FocusIn(s.owner)]
    ensures s.Sighted? && !s.unlocked ==> InteractCheckEvents(prev, s) == FocusOffEvents(prev)
  {
    var off := FocusOffEvents(prev);
    var rest := InteractCheckEvents(prev, s)[|off|..];
    assert InteractCheckEvents(prev, s) == off + rest;
    CountConcat(off, rest, IsFailFoundInteract);
    CountConcat(off, rest, IsFoundInteract);
    assert Count(off, IsFailFoundInteract) == 0 && Count(off, IsFoundInteract) == 0;
    if s.Sighted? && s.unlocked {
      assert rest[1..] == [RenderFocus(s.owner, true), FocusIn(s.owner)];
      assert rest[1..][1..] == [FocusIn(s.owner)];
    }
  }

  /** Looking at the same unlocked interactable tick after tick does not keep
      it focused: each tick takes the focus off and puts it on again. */
  lemma SteadyFocusIsRenewed(owner: ActorId)
    ensures InteractCheckEvents(Some(owner), Sighted(owner, true)) ==
            [RenderFocus(owner, false), FocusOut(owner), FoundInteract, RenderFocus(owner, true), FocusIn(owner)]
  {
  }

  // ---------------------------------------------------------- attack target

  /** SetNullAttackTarget's events: render off and FoundEndMonster for a
      current target, nothing without one. */
  function EndTargetEvents(target: Option<ActorId>): seq<Event>
  {
    match target
    case None => []
    case Some(m) => [RenderFocus(m, false), FoundEndMonster(m)]
  }

  /** SetAttackTarget's events: the old target ends first, then the new one
      is announced and rendered. */
  function SetTargetEvents(target: Option<ActorId>, monster: ActorId): (es: seq<Event>)
    ensures target.None? ==> es == [FoundMonster(monster), RenderFocus(monster, true)]
    ensures target.Some? ==> es == [RenderFocus(target.value, false), FoundEndMonster(target.value),
                                    FoundMonster(monster), RenderFocus(monster, true)]
  {
    EndTargetEvents(target) + [FoundMonster(monster), RenderFocus(monster, true)]
  }

  datatype Targeting = Targeting(target: Option<ActorId>, events: seq<Event>)

  /** The attack target and the events after one TryCheckTargetMonster. A hit
      on an actor that is not a monster changes nothing (the null guard
      SetAttackTarget's comment shows). */
  function TargetCheck(target: Option<ActorId>, trace: MonsterTrace): (r: Targeting)
    ensures trace.BoxHit? && trace.monster == target ==> r == Targeting(target, [])
    ensures trace.BoxHit? && trace.monster.Some? ==> r.target == trace.monster
    ensures trace == BoxHit(None) ==> r == Targeting(target, [])
    ensures trace.BoxHit? && trace.monster.Some? && trace.monster != target ==>
              r.events == SetTargetEvents(target, trace.monster.value)
    ensures trace.BoxMissed? ==> r.target == None
    ensures trace.BoxMissed? && target.None? ==> r.events == []
    ensures trace.BoxMissed? && target.Some? ==>
              r.events == [RenderFocus(target.value, false), FoundEndMonster(target.value)]
    ensures r.events != [] <==> r.target != target
  {
    match trace
    case BoxHit(Some(m)) =>
      if Some(m) == target then Targeting(target, []) else Targeting(Some(m), SetTargetEvents(target, m))
    case BoxHit(None) => Targeting(target, [])
    case BoxMissed => Targeting(None, EndTargetEvents(target))
  }

  function CountFound(es: seq<Event>): nat { Count(es, IsFoundMonster) }
  function CountEnded(es: seq<Event>): nat { Count(es, IsFoundEndMonster) }
  function Held(target: Option<ActorId>): nat { if target.Some? then 1 else 0 }

  /** One tick keeps FoundMonster and FoundEndMonster balanced against the
      target it leaves set. */
  lemma {:induction false} TargetCheckBalance(target: Option<ActorId>, trace: MonsterTrace)
    ensures CountFound(TargetCheck(target, trace).events) + Held(target) ==
            CountEnded(TargetCheck(target, trace).events) + Held(TargetCheck(target, trace).target)
  {
    var r := TargetCheck(target, trace);
    if trace.BoxHit? && trace.monster.Some? && trace.monster != target {
      var m := trace.monster.value;
      var tail := [FoundMonster(m), RenderFocus(m, true)];
      assert r.events == EndTargetEvents(target) + tail;
      CountConcat(EndTargetEvents(target), tail, IsFoundMonster);
      CountConcat(EndTargetEvents(target), tail, IsFoundEndMonster);
      assert tail[1..] == [RenderFocus(m, true)];
      if target.Some? {
        assert EndTargetEvents(target)[1..] == [FoundEndMonster(target.value)];
      }
    } else if trace.BoxMissed? && target.Some? {
      var end := [FoundEndMonster(target.value)];
      assert r.events == [RenderFocus(target.value, false)] + end;
      CountConcat([RenderFocus(target.value, false)], end, IsFoundMonster);
      CountConcat([RenderFocus(target.value, false)], end, IsFoundEndMonster);
    }
  }

  /** The attack target and the events after a run of ticks. */
  function TargetRun(target: Option<ActorId>, traces: seq<MonsterTrace>): Targeting
    decreases |traces|
  {
    if traces == [] then Targeting(target, [])
    else
      var first := TargetCheck(target, traces[0]);
      var rest := TargetRun(first.target, traces[1..]);
      Targeting(rest.target, first.events + rest.events)
  }

  /** Over any run of ticks, every FoundMonster is matched by a FoundEndMonster
      except for the target still held at the end: starting without a target,
      the two counts differ by exactly one while a target is set and are equal
      otherwise. */
  lemma {:induction false} TargetRunBalance(target: Option<ActorId>, traces: seq<MonsterTrace>)
    ensures CountFound(TargetRun(target, traces).events) + Held(target) ==
            CountEnded(TargetRun(target, traces).events) + Held(TargetRun(target, traces).target)
    decreases |traces|
  {
    if traces != [] {
      var first := TargetCheck(target, traces[0]);
      var rest := TargetRun(first.target, traces[1..]);
      TargetCheckBalance(target, traces[0]);
      TargetRunBalance(first.target, traces[1..]);
      CountConcat(first.events, rest.events, IsFoundMonster);
      CountConcat(first.events, rest.events, IsFoundEndMonster);
    }
  }

  /** Seeing the same thing on the next tick changes nothing and emits nothing. */
  lemma RepeatedTraceIsSilent(target: Option<ActorId>, trace: MonsterTrace)
    ensures TargetCheck(TargetCheck(target, trace).target, trace) == Targeting(TargetCheck(target, trace).target, [])
  {
  }

  /** The outcome of TryCheckTargetMonster as written: a box hit on an actor
      that is not a monster, while a target is set, reaches SetAttackTarget
      with a null target, whose guard is commented out, and SetRenderFocusOn
      then dereferences it. */
  datatype Outcome = NullDereference | Completed(result: Targeting)

  function TargetCheckAsWritten(target: Option<ActorId>, trace: MonsterTrace): (o: Outcome)
    ensures o.NullDereference? <==> trace == BoxHit(None) && target.Some?
    ensures o.Completed? ==> o.result == TargetCheck(target, trace)
  {
    match trace
    case BoxHit(hit) =>
      if hit == target then Completed(Targeting(target, []))
      else if hit.None? then NullDereference
      else Completed(Targeting(hit, SetTargetEvents(target, hit.value)))
    case BoxMissed => Completed(Targeting(None, EndTargetEvents(target)))
  }

  lemma NonMonsterHitDereferencesNull(m: ActorId)
    ensures TargetCheckAsWritten(Some(m), BoxHit(None)) == NullDereference
  {
  }

  // ------------------------------------------------------------- the class

  /** APlayerCharacter: the interact object and the attack target it holds,
      and the base character's attacking flag. */
  class PlayerCharacter {
    const self: ActorId
    const log: EventLog
    var attacking: bool
    var interactObj: Interactable?
    var attackTarget: Option<ActorId>

    /** The components the character focuses broadcast into its own log. */
    ghost predicate Valid()
      reads this
    {
      interactObj != null ==> interactObj.log == log
    }

    constructor (self: ActorId, log: EventLog)
      ensures Valid()
      ensures this.self == self && this.log == log
      ensures interactObj == null && attackTarget == None && !attacking
    {
      this.self := self;
      this.log := log;
      attacking := false;
      interactObj := null;
      attackTarget := None;
    }

    method MoveForward(value: real, hasController: bool)
      modifies log
      ensures log.events == old(log.events) + MovementEvents(attacking, hasController, Forward, value)
    {
      if attacking {
        return;
      }
      if hasController && value != 0.0 {
        log.Broadcast(MovementInput(Forward, value));
      }
    }

    method MoveRight(value: real, hasController: bool)
      modifies log
      ensures log.events == old(log.events) + MovementEvents(attacking, hasController, Right, value)
    {
      if attacking {
        return;
      }
      if hasController && value != 0.0 {
        log.Broadcast(MovementInput(Right, value));
      }
    }

    method SetNullInteract()
      modifies this
      ensures Valid()
      ensures interactObj == null
      ensures attackTarget == old(attackTarget) && attacking == old(attacking)
    {
      interactObj := null;
    }

    method TryCheckInteractable(trace: InteractTrace)
      requires Valid()
      requires trace.HitInteractable? ==> trace.component.log == log
      modifies this, log
      ensures Valid()
      ensures interactObj == if trace.HitInteractable? then trace.component else null
      ensures log.events == old(log.events) + InteractCheckEvents(OwnerOf(old(interactObj)), SightingOf(trace))
      ensures attackTarget == old(attackTarget) && attacking == old(attacking)
    {
      if interactObj != null {
        log.Broadcast(RenderFocus(interactObj.owner, false));
        interactObj.SetFocusOut();
      }
      ghost var afterOff := log.events;
      assert afterOff == old(log.events) + FocusOffEvents(OwnerOf(old(interactObj)));
      if trace.HitInteractable? {
        interactObj := trace.component;
        if !interactObj.unlocked {
          return;
        }
        log.Broadcast(FoundInteract);
        log.Broadcast(RenderFocus(interactObj.owner, true));
        interactObj.SetFocusIn();
        assert log.events == afterOff + [FoundInteract, RenderFocus(trace.component.owner, true), FocusIn(trace.component.owner)];
        return;
      }
      interactObj := null;
      log.Broadcast(FailFoundInteract);
    }

    /** Interact with the held object, if any; true exactly when one is held. */
    method InteractWithTarget() returns (interacted: bool)
      requires Valid()
      modifies log
      ensures interacted <==> interactObj != null
      ensures log.events == old(log.events) +
                if interacted then [Emitted(interactObj.owner, interactObj.unlocked, CallInteract(self))] else []
    {
      if interactObj != null {
        interactObj.Interact(self);
        return true;
      }
      return false;
    }

    method SetNullAttackTarget()
      modifies this, log
      ensures attackTarget == None
      ensures log.events == old(log.events) + EndTargetEvents(old(attackTarget))
      ensures interactObj == old(interactObj) && attacking == old(attacking)
    {
      if attackTarget.Some? {
        log.Broadcast(RenderFocus(attackTarget.value, false));
        log.Broadcast(FoundEndMonster(attackTarget.value));
        attackTarget := None;
      }
    }

    method SetAttackTarget(target: ActorId)
      modifies this, log
      ensures attackTarget == Some(target)
      ensures log.events == old(log.events) + SetTargetEvents(old(attackTarget), target)
      ensures interactObj == old(interactObj) && attacking == old(attacking)
    {
      SetNullAttackTarget();
      log.Broadcast(FoundMonster(target));
      attackTarget := Some(target);
      log.Broadcast(RenderFocus(target, true));
    }

    method GetAttackTarget() returns (target: Option<ActorId>)
      ensures target == attackTarget
    {
      return attackTarget;
    }

    method TryCheckTargetMonster(trace: MonsterTrace)
      modifies this, log
      ensures attackTarget == TargetCheck(old(attackTarget), trace).target
      ensures log.events == old(log.events) + TargetCheck(old(attackTarget), trace).events
      ensures interactObj == old(interactObj) && attacking == old(attacking)
    {
      if trace.BoxHit? {
        var monster := trace.monster;
        if monster == attackTarget {
          return;
        }
        if monster.None? {
          return;
        }
        SetAttackTarget(monster.value);
        return;
      }
      if attackTarget.None? {
        return;
      }
      SetNullAttackTarget();
    }

    /** One frame: the interaction trace first, then the monster trace. */
    method Tick(interactTrace: InteractTrace, monsterTrace: MonsterTrace)
      requires Valid()
      requires interactTrace.HitInteractable? ==> interactTrace.component.log == log
      modifies this, log
      ensures Valid()
      ensures attacking == old(attacking)
      ensures interactObj == if interactTrace.HitInteractable? then interactTrace.component else null
      ensures attackTarget == TargetCheck(old(attackTarget), monsterTrace).target
      ensures log.events == old(log.events)
                + InteractCheckEvents(OwnerOf(old(interactObj)), SightingOf(interactTrace))
                + TargetCheck(old(attackTarget), monsterTrace).events
    {
      TryCheckInteractable(interactTrace);
      TryCheckTargetMonster(monsterTrace);
    }
  }

  /** A client of the two classes: a locked component becomes the interact
      object without being announced, and interacting with it broadcasts
      CantInteract; once unlocked, the next tick announces it and interacting
      broadcasts Interact. */
  method LockedThenUnlockedScenario(self: ActorId, owner: ActorId)
  {
    var log := new EventLog();
    var door := new Interactable(owner, log);
    var player := new PlayerCharacter(self, log);
    door.SetLock();
    player.TryCheckInteractable(HitInteractable(door));
    assert player.interactObj == door && log.events == [Locked(owner)];
    var interacted := player.InteractWithTarget();
    assert interacted && log.events == [Locked(owner), CantInteract(owner, self)];
    door.SetUnlock();
    var before := log.events;
    player.TryCheckInteractable(HitInteractable(door));
    assert log.events == before + [RenderFocus(owner, false), FocusOut(owner),
                                   FoundInteract, RenderFocus(owner, true), FocusIn(owner)];
    before := log.events;
    interacted := player.InteractWithTarget();
    assert interacted && log.events == before + [Interacted(owner, self)];
  }
}
