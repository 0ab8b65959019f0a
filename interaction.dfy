/** The interaction policy of main.swift (`interact`): an actor far
    healthier than its target laughs at it; otherwise it attacks. */
module Interaction {
  import opened Items
  import opened Players

  /** The decision of `interact`: laugh exactly when the actor has more
      than 5 health over the target. */
  predicate Laughs(actorHp: int, targetHp: int): (b: bool)
    ensures b ==> actorHp > targetHp
  {
    actorHp - targetHp > 5
  }

  /** The value-level effect of `interact(actor, target)` on the target;
      the actor itself is never changed unless it is the target. */
  function InteractSpec(actor: PlayerState, target: PlayerState): (t: PlayerState)
    ensures t.name == target.name && t.inventory == target.inventory
    ensures t.hp == target.hp || t.mood == target.mood
  {
    if Laughs(actor.hp, target.hp) then LaughSpec(TargetIsWeak, target)
    else AttackSpec(actor.inventory, target)
  }

  /** What one interaction does to the target: its health is unchanged
      exactly when the actor laughs, and otherwise drops by the actor's
      weapon damage, one of 2, 4 and 5; laughing leaves it sad. Name and
      inventory never change. */
  lemma InteractOutcome(actor: PlayerState, target: PlayerState)
    ensures var t := InteractSpec(actor, target);
      && (t.hp == target.hp <==> Laughs(actor.hp, target.hp))
      && (Laughs(actor.hp, target.hp) ==> t.mood == Sad)
      && (!Laughs(actor.hp, target.hp) ==>
            t.hp == target.hp - AttackDamage(actor.inventory) && target.hp - t.hp in {2, 4, 5} && t.mood == target.mood)
      && t.name == target.name && t.inventory == target.inventory
  {
  }

  /** An interaction never raises the target's health. */
  lemma InteractNeverHeals(actor: PlayerState, target: PlayerState)
    ensures InteractSpec(actor, target).hp <= target.hp
  {
  }

  /** Two equally healthy unarmed players: the actor attacks with its
      hands and the target goes from 43 to 41. */
  lemma EvenFightScenario()
    ensures InteractSpec(PlayerState("A", 43, Happy, []), PlayerState("B", 43, Happy, [])).hp == 41
  {
  }

  /** A 50-health actor against a 10-health target laughs: no health
      changes and the target turns sad. */
  lemma MockingScenario()
    ensures InteractSpec(PlayerState("A", 50, Happy, []), PlayerState("B", 10, Happy, []))
         == PlayerState("B", 10, Sad, [])
  {
  }

  /** Holding a potion and a staff, the staff wins: 5 damage. */
  lemma StaffPriorityScenario()
    ensures InteractSpec(PlayerState("A", 43, Happy, [Potion, Staff]), PlayerState("B", 43, Happy, [])).hp == 38
  {
  }

  /** `interact(_:_:)`. Actor and target may be the same player; then the
      gap is 0 and the player attacks itself. */
  method Interact(actor: Player, target: Player)
    modifies target`hp, target`mood
    ensures target.State() == InteractSpec(old(actor.State()), old(target.State()))
    ensures actor != target ==> actor.State() == old(actor.State())
  {
    if actor.hp - target.hp > 5 {
      actor.Laugh(target, TargetIsWeak);
    } else {
      actor.Attack(target);
    }
  }
}
