/** A combatant of main.swift (class `Player`): its state, the weapon
    choice behind `attack`, the mood machine behind `laugh`, and the class
    whose methods update those fields in place. */
module Players {
  import opened Extensions
  import opened Items

  /** The value of a player's fields at one moment. */
  datatype PlayerState = PlayerState(name: string, hp: int, mood: Mood, inventory: seq<Item>)

  // ---------------------------------------------------------------------
  // Weapon choice and damage (the expressions inside `attack`)
  // ---------------------------------------------------------------------

  /** The weapon `attack` uses: Staff if held, else Potion if held, else
      bare hands (`None`). */
  function Weapon(inventory: seq<Item>): (w: Option<Item>)
    ensures w.Some? ==> w.value in inventory
    ensures w.None? <==> |inventory| == 0
    ensures Staff in inventory ==> w == Some(Staff)
  {
    // an inventory that holds anything holds one of the two items
    assert |inventory| > 0 ==> inventory[0] in inventory && (inventory[0] == Staff || inventory[0] == Potion);
    if Staff in inventory then Some(Staff)
    else if Potion in inventory then Some(Potion)
    else None
  }

  /** Damage dealt with a weapon: 5 with the staff, 4 with a potion,
      2 with bare hands. */
  function Damage(weapon: Option<Item>): (d: int)
    ensures 2 <= d <= 5
    ensures d == 2 <==> weapon.None?
    ensures d == 5 <==> weapon == Some(Staff)
  {
    match weapon
    case Some(Staff) => 5
    case Some(Potion) => 4
    case None => 2
  }

  /** The damage an attacker holding `inventory` deals. */
  function AttackDamage(inventory: seq<Item>): (d: int)
    ensures d in {2, 4, 5}
    ensures d == (if Staff in inventory then 5 else if Potion in inventory then 4 else 2)
  {
    Damage(Weapon(inventory))
  }

  /** What holding one item alone is worth in an attack. */
  function ItemDamage(item: Item): (d: int)
    ensures d > Damage(None)
  {
    Damage(Some(item))
  }

  /** A reference definition of the damage: the best the attacker can do
      with anything it holds, and never less than bare hands. */
  function StrongestDamage(inventory: seq<Item>): (d: int)
    ensures d >= Damage(None)
    ensures forall x :: x in inventory ==> ItemDamage(x) <= d
  {
    if inventory == [] then Damage(None)
    else
      var rest := StrongestDamage(inventory[1..]);
      if ItemDamage(inventory[0]) > rest then ItemDamage(inventory[0]) else rest
  }

  /** The priority rule Staff > Potion > bare hands picks the strongest
      attack the inventory allows. */
  lemma {:induction false} AttackDamageIsStrongest(inventory: seq<Item>)
    ensures AttackDamage(inventory) == StrongestDamage(inventory)
  {
    if inventory != [] {
      AttackDamageIsStrongest(inventory[1..]);
      assert forall x :: x in inventory <==> x == inventory[0] || x in inventory[1..];
    }
  }

  /** Taking an item never makes an attack weaker. */
  lemma AttackDamageMonotone(inventory: seq<Item>, item: Item)
    ensures AttackDamage(inventory) <= AttackDamage(inventory + [item])
  {
  }

  /** Only which items are held matters, not their order or number. */
  lemma AttackDamageBySet(a: seq<Item>, b: seq<Item>)
    requires forall x :: x in a <==> x in b
    ensures AttackDamage(a) == AttackDamage(b)
  {
  }

  /** The value-level effect of `attack` on its target. */
  function AttackSpec(attackerInventory: seq<Item>, target: PlayerState): (t: PlayerState)
    ensures t.hp == target.hp - AttackDamage(attackerInventory)
    ensures t.(hp := target.hp) == target
  {
    target.(hp := target.hp - AttackDamage(attackerInventory))
  }

  // ---------------------------------------------------------------------
  // Mood machine (`laugh`, `getLaughedAt`, `setMood`)
  // ---------------------------------------------------------------------

  /** The mood `getLaughedAt` moves to for each reason. */
  function Reaction(reason: LaughReason): (m: Mood)
    ensures m != Happy
  {
    match reason
    case TargetIsWeak => Sad
  }

  /** The value-level effect of being laughed at. */
  function LaughSpec(reason: LaughReason, target: PlayerState): (t: PlayerState)
    ensures t.mood == Reaction(reason)
    ensures t.(mood := target.mood) == target
  {
    target.(mood := Reaction(reason))
  }

  /** Being laughed at ignores the previous mood, so it is idempotent,
      and it never touches health or inventory. */
  lemma LaughIdempotent(reason: LaughReason, target: PlayerState)
    ensures LaughSpec(reason, LaughSpec(reason, target)) == LaughSpec(reason, target)
    ensures LaughSpec(reason, target).hp == target.hp
    ensures LaughSpec(reason, target).inventory == target.inventory
  {
  }

  // ---------------------------------------------------------------------
  // The class
  // ---------------------------------------------------------------------

  class Player {
    var name: string
    var hp: int
    var mood: Mood
    var inventory: seq<Item>

    ghost function State(): PlayerState
      reads this
    {
      PlayerState(name, hp, mood, inventory)
    }

    /** `Player.new(name:hp:)`: any health is accepted, zero and negative
        included; the player starts happy with nothing in hand. */
    constructor New(name: string, hp: int)
      ensures State() == PlayerState(name, hp, Happy, [])
    {
      this.name := name;
      this.hp := hp;
      this.mood := Happy;
      this.inventory := [];
    }

    /** `take(item:)`: appends a freshly drawn random item; the `item`
        argument is ignored. */
    method Take(item: Item, draw: nat)
      modifies this`inventory
      ensures inventory == old(inventory) + [RandomItem(draw)]
      ensures State() == old(State()).(inventory := old(inventory) + [RandomItem(draw)])
    {
      inventory := inventory + [RandomItem(draw)];
    }

    /** `attack(_:)`: lowers the target's health by the damage of the
        attacker's weapon, without clamping at zero. The attacker may be
        its own target. */
    method Attack(other: Player)
      modifies other`hp
      ensures other.State() == AttackSpec(old(inventory), old(other.State()))
      ensures other != this ==> State() == old(State())
      ensures inventory == old(inventory)
    {
      var weapon := Weapon(inventory);
      var damage := Damage(weapon);
      other.hp := other.hp - damage;
    }

    /** `laugh(atPlayer:reason:)`: the target reacts to the reason; no
        health and no inventory changes. */
    method Laugh(other: Player, reason: LaughReason)
      modifies other`mood
      ensures other.State() == LaughSpec(reason, old(other.State()))
      ensures other != this ==> State() == old(State())
    {
      match reason {
        case TargetIsWeak =>
          other.GetLaughedAt(reason);
      }
    }

    /** `getLaughedAt(reason:)`: weakness makes a player sad. */
    method GetLaughedAt(reason: LaughReason)
      modifies this`mood
      ensures State() == old(State()).(mood := Reaction(reason))
    {
      match reason {
        case TargetIsWeak =>
          SetMood(Sad);
      }
    }

    /** `setMood(_:)`: the mood becomes `newMood`; nothing else changes. */
    method SetMood(newMood: Mood)
      modifies this`mood
      ensures State() == old(State()).(mood := newMood)
    {
      mood := newMood;
    }
  }
}
