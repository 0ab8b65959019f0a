# swift-game-simulation in Dafny

A verified model of `Sources/swift-game-simulation/main.swift`. This is a toy
turn-based fight. Players hold items. In each round two different players are
drawn at random, and the actor either laughs at the target or attacks it. The
game ends when no player has health above zero.

The model has five modules, one per part of the program:

- `Extensions` (`extensions.dfy`): the library extensions `String.times` and
  `Collection.randomElement`, plus `Uniform`, the model of `arc4random_uniform`.
- `Items` (`items.dfy`): the enums `Item`, `Mood` and `LaughReason`, and the
  catalog functions `Item.info`, `Item.allCases` and `Item.random()`.
- `Players` (`player.dfy`): class `Player`. Its fields `name`, `hp`, `mood`
  and `inventory` are updated in place by `take(item:)`, `attack`, `laugh`,
  `getLaughedAt` and `setMood`. Pure functions give the weapon choice and
  damage. The datatype `PlayerState` is the value of a player's fields, and
  `State()` ties each object to it.
- `Interaction` (`interaction.dfy`): `interact`, which laughs when the actor
  has more than 5 health over the target and attacks otherwise.
- `Game` (`game.dfy`): `getTwoPlayers`, `playRound`, `gameLoop`, `setup` and
  the top-level program. `PickSpec` and `Play` are value-level accounts of a
  pick and of a whole run. `GetTwoPlayers` and `GameLoop` are proved to do
  exactly what they describe, and lemmas about `Play` say what a run means.

Randomness is an oracle. Each random draw is a `nat` supplied by the caller.
`arc4random_uniform(n)` becomes `draw % n`, so every index in range can come
out and no index out of range can. The game loop and `getTwoPlayers` consume
a finite sequence of draws. In the source both can run forever: a
one-player roster never yields a pair, and rounds where the actor laughs change
no health. In the model, a run stops when the draws run out, and the
result says so (`OutOfRolls`, `RollsExhausted`).

Behaviour kept from the code:

- `take(item:)` ignores its argument and appends a fresh random item. In
  `setup`, each `take` therefore uses two draws: one for `Item.random()`
  passed as the ignored argument, and one inside `take`.
- Health is never clamped. Attacks can push it below zero, and a player can
  be created with zero or negative health.
- `numRounds` is incremented before the round is played. If a run stops
  inside `getTwoPlayers`, the counter includes that unfinished round.
- An empty roster makes `getTwoPlayers` trap on the force-unwrap; the model
  returns `EmptyRoster` for this. A one-player roster never returns a pair.
  The code does not guard against rosters below two players, and the model
  follows the code.
- Player identity (`!==`) is reference inequality between Dafny objects.
  `GameLoop` requires the roster to hold distinct objects, as `setup`'s roster
  does, so that a roster index names exactly one player.

## Model

| member | source | states |
|---|---|---|
| `Extensions.Uniform` | Sources/swift-game-simulation/main.swift:16 | the random index is below the bound, and a draw already in range is used as it is |
| `Extensions.RandomElement` | Sources/swift-game-simulation/main.swift:15-17 | nil exactly when the collection is empty; otherwise an element of the collection, the one at the drawn index |
| `Extensions.RandomElementOnto` | Sources/swift-game-simulation/main.swift:16 | every element of a non-empty collection can be picked |
| `Extensions.Times` | Sources/swift-game-simulation/main.swift:4-6 | the repetition of a string `n` times (n ≥ 1, since `1...n` traps below 1) has length `n·|s|` |
| `Extensions.TimesAt` | Sources/swift-game-simulation/main.swift:5 | character `i` of the repetition is character `i mod |s|` of the string |
| `Extensions.TimesAdd` | Sources/swift-game-simulation/main.swift:5 | repeating `a` times and then `b` times equals repeating `a + b` times |
| `Items.AllCasesComplete` | Sources/swift-game-simulation/main.swift:41-43 | `allCases` lists every item |
| `Items.Info` | Sources/swift-game-simulation/main.swift:32-37 | every item has a non-empty text, and the text is "Round" exactly for the potion |
| `Items.InfoDistinguishesItems` | Sources/swift-game-simulation/main.swift:32-37 | `info` is total, and two items have the same info exactly when they are the same item |
| `Items.RandomItem` | Sources/swift-game-simulation/main.swift:45-47 | `Item.random()` is the random element of `allCases`, which is never nil, so the force-unwrap cannot trap |
| `Items.RandomItemOnto` | Sources/swift-game-simulation/main.swift:45-47 | every item can be drawn |
| `Players.Weapon` | Sources/swift-game-simulation/main.swift:85-88 | the chosen weapon is held; Staff whenever a staff is held; bare hands exactly when the inventory is empty |
| `Players.Damage` | Sources/swift-game-simulation/main.swift:90-96 | weapon damage lies between 2 and 5; it is 2 exactly for bare hands and 5 exactly for the staff |
| `Players.AttackDamage` | Sources/swift-game-simulation/main.swift:85-96 | attack damage is one of 2, 4 and 5: 5 whenever a staff is held, else 4 whenever a potion is held, else 2 |
| `Players.ItemDamage` | Sources/swift-game-simulation/main.swift:90-96 | any single item deals more damage than bare hands |
| `Players.StrongestDamage` | Sources/swift-game-simulation/main.swift:85-96 | the reference damage is at least bare hands and at least what any held item deals |
| `Players.AttackDamageIsStrongest` | Sources/swift-game-simulation/main.swift:85-96 | the priority Staff > Potion > hands gives the best damage among held items (5 staff, 4 potion), and 2 for an empty inventory |
| `Players.AttackDamageMonotone` | Sources/swift-game-simulation/main.swift:85-88 | taking one more item never lowers attack damage |
| `Players.AttackDamageBySet` | Sources/swift-game-simulation/main.swift:86-87 | damage depends only on which items are held, not on their order or how many there are |
| `Players.AttackSpec` | Sources/swift-game-simulation/main.swift:98 | an attack lowers the target's hp by exactly the attacker's damage and changes nothing else about the target |
| `Players.Reaction` | Sources/swift-game-simulation/main.swift:115-120 | being laughed at never leaves a player happy |
| `Players.LaughSpec` | Sources/swift-game-simulation/main.swift:115-120 | being laughed at sets the mood the reason dictates and changes nothing else |
| `Players.LaughIdempotent` | Sources/swift-game-simulation/main.swift:115-123 | being laughed at twice equals being laughed at once; hp and inventory stay the same |
| `Players.Player.New` | Sources/swift-game-simulation/main.swift:60-66 | the new player has the given name and hp (any value, zero or negative included), is Happy and has an empty inventory |
| `Players.Player.Take` | Sources/swift-game-simulation/main.swift:76-78 | the inventory grows by exactly one random item appended after the old ones; the argument is ignored; name, hp and mood are unchanged |
| `Players.Player.Attack` | Sources/swift-game-simulation/main.swift:84-103 | the target's hp drops by the attacker's damage with no clamping; the target's other fields stay the same; the attacker is unchanged unless it attacked itself |
| `Players.Player.Laugh` | Sources/swift-game-simulation/main.swift:105-113 | the target becomes Sad for `TargetIsWeak` whatever its mood was; no hp or inventory changes; the laughing player is unchanged |
| `Players.Player.GetLaughedAt` | Sources/swift-game-simulation/main.swift:115-120 | the mood becomes the reaction to the reason; nothing else changes |
| `Players.Player.SetMood` | Sources/swift-game-simulation/main.swift:122-132 | the mood becomes the given mood, for each of the three moods; nothing else changes |
| `Interaction.Laughs` | Sources/swift-game-simulation/main.swift:168 | the actor laughs only at a target with less health than itself |
| `Interaction.InteractSpec` | Sources/swift-game-simulation/main.swift:167-173 | an interaction keeps the target's name and inventory, and changes at most one of its hp and its mood |
| `Interaction.InteractOutcome` | Sources/swift-game-simulation/main.swift:167-173 | the target's hp stays the same exactly when `actor.hp - target.hp > 5` (laugh, target Sad); otherwise it drops by the actor's damage, one of 2, 4 and 5; name and inventory never change |
| `Interaction.InteractNeverHeals` | Sources/swift-game-simulation/main.swift:167-173 | an interaction never raises the target's hp |
| `Interaction.EvenFightScenario` | Sources/swift-game-simulation/main.swift:167-173 | two unarmed players at 43 hp: the actor attacks and the target is left at 41 |
| `Interaction.MockingScenario` | Sources/swift-game-simulation/main.swift:168-169 | 50 hp against 10 hp: the actor laughs, both hp values stay the same and the target is Sad |
| `Interaction.StaffPriorityScenario` | Sources/swift-game-simulation/main.swift:86-92 | an attacker holding `[Potion, Staff]` deals 5 damage |
| `Interaction.Interact` | Sources/swift-game-simulation/main.swift:167-173 | the target ends in the state `InteractSpec` gives; the actor is unchanged unless it is the target |
| `Game.PickSpec` | Sources/swift-game-simulation/main.swift:179-185 | an empty roster traps without using a draw; a pick names two in-range indices of different player objects and uses two draws or more; running out leaves fewer than two draws; the draws left are a suffix of the draws given |
| `Game.PickSpecUsesPairs` | Sources/swift-game-simulation/main.swift:180-183 | each attempt uses exactly two draws, and an empty roster uses none |
| `Game.PickSpecPicked` | Sources/swift-game-simulation/main.swift:180-183 | a pick is the pair drawn last, and every earlier pair named the same player twice |
| `Game.PickSpecOutOfRolls` | Sources/swift-game-simulation/main.swift:180-183 | running out of draws comes after every pair drawn named the same player twice |
| `Game.PickSpecSingle` | Sources/swift-game-simulation/main.swift:180-183 | a roster of one player never yields a pick, however many draws there are |
| `Game.PickSpecCharacterised` | Sources/swift-game-simulation/main.swift:179-185 | draws are used two per attempt; a pick is the last pair drawn, after every earlier pair was rejected as the same player; running out comes after every pair was rejected; a one-player roster never yields a pick |
| `Game.GetTwoPlayers` | Sources/swift-game-simulation/main.swift:179-185 | the loop returns exactly the pick and the remaining draws `PickSpec` gives |
| `Game.PlayTurn` | Sources/swift-game-simulation/main.swift:186-189 | a round changes only the target's state |
| `Game.Replay` | Sources/swift-game-simulation/main.swift:192-195 | replaying rounds keeps the roster's size |
| `Game.ReplayNeverHeals` | Sources/swift-game-simulation/main.swift:192-195 | no sequence of rounds raises any player's hp, so a defeated player stays defeated |
| `Game.ReplayKeepsNamesAndItems` | Sources/swift-game-simulation/main.swift:192-195 | rounds never change a player's name or inventory |
| `Game.PlayTurnTotalHp` | Sources/swift-game-simulation/main.swift:167-173 | a laughing round leaves the roster's total hp unchanged; an attacking round lowers it by exactly the attacker's damage |
| `Game.Play` | Sources/swift-game-simulation/main.swift:175-196 | a run keeps the roster's size |
| `Game.PlayReplays` | Sources/swift-game-simulation/main.swift:175-196 | every round of a run names two different players, and the final roster is the replay of its rounds |
| `Game.PlayEnding` | Sources/swift-game-simulation/main.swift:192-195 | a run ends with everyone at hp ≤ 0 exactly when it was not cut off; `numRounds` counts the rounds played plus the one cut off; with someone alive at the start, at least one round is counted |
| `Game.PlayRoundsStartAlive` | Sources/swift-game-simulation/main.swift:192-194 | every round of a run starts with somebody alive, so no round is played after everyone is defeated |
| `Game.AnyAlive` | Sources/swift-game-simulation/main.swift:192 | true exactly when some player has hp > 0 |
| `Game.PlayRound` | Sources/swift-game-simulation/main.swift:178-190 | picks as `PickSpec` does; after a pick, the roster is one `PlayTurn` further; after a cut-off, nothing changes |
| `Game.GameLoop` | Sources/swift-game-simulation/main.swift:175-196 | the roster, the rounds, `numRounds` and the ending are exactly those of `Play` on the draws given; the loop ends with everyone at hp ≤ 0 exactly when it was not cut off; `numRounds` counts the rounds played plus the one cut off; every round names two different players and starts with somebody alive; the final roster is the replay of the rounds |
| `Game.StartingDraws` | Sources/swift-game-simulation/main.swift:144-146 | the starting items are the second draw of each pair, one per `take` |
| `Game.StartingRoster` | Sources/swift-game-simulation/main.swift:136-165 | the starting roster has two players, someone alive, and each player's two items are the second draw of each pair |
| `Game.SetupPlayer` | Sources/swift-game-simulation/main.swift:142-147 | `NUM_STARTING_ITEMS` (2) random items are appended to the player's inventory, two draws per item |
| `Game.Setup` | Sources/swift-game-simulation/main.swift:136-165 | two distinct fresh players, whose states are the starting roster: "Rasmus" and "Resmus" with 43 hp, Happy, each holding two random items |
| `Game.Run` | Sources/swift-game-simulation/main.swift:198-199 | the program ends as `Play` says for the starting roster and the draws after `setup`; it ends with both players at hp ≤ 0 exactly when the game ran to its end; at least one round is counted |

## Left out

- Narration: every `print` call is left out, since it is output and not state. This covers `description`/`str` (lines 68-74), `take(compliment:)` (lines 80-82), `printPlayerItems` (lines 149-158), the attack, laugh and mood messages, and the round header built with `times` (line 188). The catalog's text for `Item.rawValue` is also left out.
- Randomness: `arc4random_uniform` is a foreign source. It is modelled as oracle draws reduced modulo the bound, not as a uniform distribution.
- `Game.GameLoop`: termination is not proved. The source loop may not end, because rounds where the actor laughs change no health. The model bounds the run by the number of draws supplied. A run that uses them all up ends with `RollsExhausted`, and `numRounds` then counts the round that was cut off.
- `Game.GetTwoPlayers`: on a one-player roster the source loops forever. The model ends with `OutOfRolls` once the draws run out.
- `Game.GameLoop`: requires a roster of distinct player objects. A roster that lists one object twice, which `setup` never builds, is not modelled.
- `Game.Setup`, `Game.Run`: require enough draws for the eight random calls of `setup`. The source's random source never runs out.
- Integer width: hp is an unbounded integer. The 64-bit overflow traps of `other.hp -= damage` (line 98) and `actor.hp - target.hp` (line 168), and the trap of `UInt32(endIndex)` (line 16), are not modelled. The roster starts at 43 hp and hp only falls by at most 5 a round, so a run reaches none of them within any realistic number of rounds.
- `Extensions.Times`: `requires 1 <= n` stands for the trap of the range `1...numTimes` when `numTimes < 1`; the trap itself is not modelled.
