/** The game of main.swift: `setup` builds the roster, `gameLoop` plays
    rounds until nobody has health left. Each round `getTwoPlayers` draws
    an actor and a target until they are different players, and the actor
    interacts with the target.

    The random source is a finite sequence of draws (`rolls`). The source
    draws forever; here a run whose draws are used up stops there, which
    is how the model bounds a loop that need not terminate. */
module Game {
  import opened Extensions
  import opened Items
  import opened Players
  import opened Interaction

  /** The outcome of `getTwoPlayers`: two roster indices, the trap of an
      empty roster, or the end of the available draws. */
  datatype Pick = Picked(actor: nat, target: nat) | EmptyRoster | OutOfRolls

  /** One round that was played: who acted on whom. */
  datatype Turn = Turn(actor: nat, target: nat)

  /** Why `gameLoop` stopped. */
  datatype Ending = AllDefeated | RollsExhausted

  /** No player object appears twice in the roster. */
  predicate Distinct(players: seq<Player>)
  {
    forall i, j :: 0 <= i < j < |players| ==> players[i] != players[j]
  }

  /** What a run of `gameLoop` produced: the roster's final states, the
      rounds played, why it stopped, and the final value of `numRounds`. */
  datatype Outcome = Outcome(final: seq<PlayerState>, history: seq<Turn>, ending: Ending, numRounds: nat)

  // ---------------------------------------------------------------------
  // Picking two players
  // ---------------------------------------------------------------------

  /** The draws at `k` and `k + 1` name the same player object, so
      `getTwoPlayers` throws the pair away and draws again. */
  predicate Rejected(players: seq<Player>, rolls: seq<nat>, k: nat)
    requires 0 < |players| && k + 1 < |rolls|
  {
    players[Uniform(|players|, rolls[k])] == players[Uniform(|players|, rolls[k + 1])]
  }

  /** The pick `getTwoPlayers` makes from the draws `rolls`, and the draws
      left after it. */
  function PickSpec(players: seq<Player>, rolls: seq<nat>): (r: (Pick, seq<nat>))
    ensures r.0 == EmptyRoster <==> |players| == 0
    ensures |r.1| <= |rolls| && r.1 == rolls[|rolls| - |r.1|..]
    ensures r.0.Picked? ==>
      && |r.1| + 2 <= |rolls|
      && r.0.actor < |players| && r.0.target < |players|
      && players[r.0.actor] != players[r.0.target]
    ensures r.0.OutOfRolls? ==> |r.1| < 2
    decreases |rolls|
  {
    if |players| == 0 then (EmptyRoster, rolls)
    else if |rolls| < 2 then (OutOfRolls, rolls)
    else
      var actor, target := Uniform(|players|, rolls[0]), Uniform(|players|, rolls[1]);
      if players[actor] != players[target] then (Picked(actor, target), rolls[2..])
      else PickSpec(players, rolls[2..])
  }

  /** One attempt of `PickSpec` on a roster and at least two draws. */
  lemma PickSpecStep(players: seq<Player>, rolls: seq<nat>)
    requires 0 < |players| && 2 <= |rolls|
    ensures var actor, target := Uniform(|players|, rolls[0]), Uniform(|players|, rolls[1]);
      PickSpec(players, rolls)
        == if players[actor] != players[target] then (Picked(actor, target), rolls[2..])
           else PickSpec(players, rolls[2..])
  {
  }

  /** A rejected pair two draws further on is a rejected pair of the
      draws after the first attempt. */
  lemma RejectedShift(players: seq<Player>, rolls: seq<nat>, k: nat)
    requires 0 < |players| && 2 <= |rolls| && k + 3 < |rolls|
    ensures Rejected(players, rolls, k + 2) == Rejected(players, rolls[2..], k)
  {
    assert rolls[k + 2] == rolls[2..][k] && rolls[k + 3] == rolls[2..][k + 1];
  }

  /** `PickSpec` uses the draws two per attempt, and none on an empty
      roster. */
  lemma {:induction false} PickSpecUsesPairs(players: seq<Player>, rolls: seq<nat>)
    ensures var r := PickSpec(players, rolls);
      && (r.0 == EmptyRoster ==> r.1 == rolls)
      && (|rolls| - |r.1|) % 2 == 0
    decreases |rolls|
  {
    if 0 < |players| && 2 <= |rolls| {
      PickSpecStep(players, rolls);
      var actor, target := Uniform(|players|, rolls[0]), Uniform(|players|, rolls[1]);
      var tail := rolls[2..];
      if players[actor] == players[target] {
        PickSpecUsesPairs(players, tail);
        var r := PickSpec(players, tail);
        var n := |tail| - |r.1|;
        assert n % 2 == 0;
        assert |rolls| - |r.1| == n + 2;
        assert (n + 2) % 2 == 0;
      }
    }
  }

  /** A pick is the pair drawn last, after every earlier pair was
      rejected. */
  lemma {:induction false} PickSpecPicked(players: seq<Player>, rolls: seq<nat>)
    ensures var r := PickSpec(players, rolls);
      var used := |rolls| - |r.1|;
      r.0.Picked? ==>
        && 0 < |players| && 2 <= used
        && r.0.actor == Uniform(|players|, rolls[used - 2])
        && r.0.target == Uniform(|players|, rolls[used - 1])
        && forall k :: 0 <= k < used - 2 && k % 2 == 0 ==> Rejected(players, rolls, k)
    decreases |rolls|
  {
    if 0 < |players| && 2 <= |rolls| {
      PickSpecStep(players, rolls);
      var actor, target := Uniform(|players|, rolls[0]), Uniform(|players|, rolls[1]);
      if players[actor] == players[target] {
        var tail := rolls[2..];
        PickSpecPicked(players, tail);
        var r := PickSpec(players, tail);
        if r.0.Picked? {
          var used := |tail| - |r.1|;
          assert rolls[used] == tail[used - 2] && rolls[used + 1] == tail[used - 1];
          forall k | 0 <= k < used && k % 2 == 0
            ensures Rejected(players, rolls, k)
          {
            if k >= 2 {
              RejectedShift(players, rolls, k - 2);
            }
          }
        }
      }
    }
  }

  /** Running out of draws comes after every pair drawn was rejected. */
  lemma {:induction false} PickSpecOutOfRolls(players: seq<Player>, rolls: seq<nat>)
    ensures var r := PickSpec(players, rolls);
      var used := |rolls| - |r.1|;
      r.0 == OutOfRolls ==>
        && 0 < |players|
        && forall k :: 0 <= k && k + 1 < used && k % 2 == 0 ==> Rejected(players, rolls, k)
    decreases |rolls|
  {
    if 0 < |players| && 2 <= |rolls| {
      PickSpecStep(players, rolls);
      var actor, target := Uniform(|players|, rolls[0]), Uniform(|players|, rolls[1]);
      if players[actor] == players[target] {
        var tail := rolls[2..];
        PickSpecOutOfRolls(players, tail);
        var r := PickSpec(players, tail);
        if r.0 == OutOfRolls {
          var used := |tail| - |r.1|;
          forall k | 0 <= k && k + 1 < used + 2 && k % 2 == 0
            ensures Rejected(players, rolls, k)
          {
            if k >= 2 {
              RejectedShift(players, rolls, k - 2);
            }
          }
        }
      }
    }
  }

  /** A roster of one player never yields a pick. */
  lemma {:induction false} PickSpecSingle(players: seq<Player>, rolls: seq<nat>)
    requires |players| == 1
    ensures PickSpec(players, rolls).0 == OutOfRolls
    decreases |rolls|
  {
    if 2 <= |rolls| {
      PickSpecStep(players, rolls);
      PickSpecSingle(players, rolls[2..]);
    }
  }

  /** What `PickSpec` means: an empty roster traps before any draw; the
      draws are used two per attempt; a pick is the pair drawn last, names
      two different player objects, and comes after every earlier pair was
      rejected; running out leaves fewer than two draws after rejecting
      every pair; a one-player roster never yields a pick. */
  lemma PickSpecCharacterised(players: seq<Player>, rolls: seq<nat>)
    ensures var r := PickSpec(players, rolls);
      var used := |rolls| - |r.1|;
      && (r.0 == EmptyRoster ==> r.1 == rolls)
      && used % 2 == 0
      && (r.0.Picked? ==>
            && 0 < |players| && 2 <= used
            && r.0.actor == Uniform(|players|, rolls[used - 2])
            && r.0.target == Uniform(|players|, rolls[used - 1])
            && forall k :: 0 <= k < used - 2 && k % 2 == 0 ==> Rejected(players, rolls, k))
      && (r.0 == OutOfRolls ==>
            && 0 < |players|
            && forall k :: 0 <= k < used && k % 2 == 0 ==> Rejected(players, rolls, k))
      && (|players| == 1 ==> r.0 == OutOfRolls)
  {
    PickSpecUsesPairs(players, rolls);
    PickSpecPicked(players, rolls);
    PickSpecOutOfRolls(players, rolls);
    if |players| == 1 {
      PickSpecSingle(players, rolls);
    }
  }

  /** `getTwoPlayers()`: draws actor and target from the roster, two draws
      per attempt, until they are different objects. On an empty roster
      `randomElement()` is nil and the force-unwrap traps before any draw;
      on a roster of one player no attempt ever succeeds. */
  method GetTwoPlayers(players: seq<Player>, rolls: seq<nat>) returns (pick: Pick, rest: seq<nat>)
    ensures (pick, rest) == PickSpec(players, rolls)
  {
    if |players| == 0 {
      return EmptyRoster, rolls;
    }
    rest := rolls;
    while 2 <= |rest|
      invariant PickSpec(players, rest) == PickSpec(players, rolls)
      decreases |rest|
    {
      var actor := Uniform(|players|, rest[0]);
      var target := Uniform(|players|, rest[1]);
      PickSpecStep(players, rest);
      rest := rest[2..];
      if players[actor] != players[target] {
        return Picked(actor, target), rest;
      }
    }
    pick := OutOfRolls;
  }

  // ---------------------------------------------------------------------
  // Rounds as values
  // ---------------------------------------------------------------------

  /** The roster's states, player by player. */
  ghost function Snapshot(players: seq<Player>): (s: seq<PlayerState>)
    reads players
    ensures |s| == |players|
    ensures forall i :: 0 <= i < |players| ==> s[i] == players[i].State()
  {
    seq(|players|, i requires 0 <= i < |players| reads players => players[i].State())
  }

  /** Some player still has health left: the guard of `gameLoop`. */
  predicate SomeAlive(states: seq<PlayerState>)
  {
    exists i :: 0 <= i < |states| && states[i].hp > 0
  }

  /** Every turn names two different players of a roster of `n`. */
  predicate ValidTurns(n: nat, history: seq<Turn>)
  {
    forall k :: 0 <= k < |history| ==>
      history[k].actor < n && history[k].target < n && history[k].actor != history[k].target
  }

  /** One round on the roster's states: only the target's state changes. */
  function PlayTurn(states: seq<PlayerState>, turn: Turn): (r: seq<PlayerState>)
    requires turn.actor < |states| && turn.target < |states|
    ensures |r| == |states|
    ensures forall i :: 0 <= i < |states| && i != turn.target ==> r[i] == states[i]
  {
    states[turn.target := InteractSpec(states[turn.actor], states[turn.target])]
  }

  /** The roster's states after the rounds of `history`, in order. */
  function Replay(states: seq<PlayerState>, history: seq<Turn>): (r: seq<PlayerState>)
    requires ValidTurns(|states|, history)
    ensures |r| == |states|
    decreases |history|
  {
    if history == [] then states
    else Replay(PlayTurn(states, history[0]), history[1..])
  }

  /** No round raises anyone's health: a defeated player stays defeated. */
  lemma {:induction false} ReplayNeverHeals(states: seq<PlayerState>, history: seq<Turn>)
    requires ValidTurns(|states|, history)
    ensures forall i :: 0 <= i < |states| ==> Replay(states, history)[i].hp <= states[i].hp
    decreases |history|
  {
    if history != [] {
      var turn := history[0];
      ReplayNeverHeals(PlayTurn(states, turn), history[1..]);
      InteractNeverHeals(states[turn.actor], states[turn.target]);
    }
  }

  /** Rounds change health and moods only: every player keeps its name
      and its inventory. */
  lemma {:induction false} ReplayKeepsNamesAndItems(states: seq<PlayerState>, history: seq<Turn>)
    requires ValidTurns(|states|, history)
    ensures forall i :: 0 <= i < |states| ==>
      Replay(states, history)[i].name == states[i].name
      && Replay(states, history)[i].inventory == states[i].inventory
    decreases |history|
  {
    if history != [] {
      var turn := history[0];
      ReplayKeepsNamesAndItems(PlayTurn(states, turn), history[1..]);
      InteractOutcome(states[turn.actor], states[turn.target]);
    }
  }

  /** The health of the whole roster. */
  function TotalHp(states: seq<PlayerState>): (total: int)
  {
    if states == [] then 0 else states[0].hp + TotalHp(states[1..])
  }

  /** Changing one player's state changes the total by its health change. */
  lemma {:induction false} TotalHpUpdate(states: seq<PlayerState>, j: nat, s: PlayerState)
    requires j < |states|
    ensures TotalHp(states[j := s]) == TotalHp(states) - states[j].hp + s.hp
  {
    if j > 0 {
      TotalHpUpdate(states[1..], j - 1, s);
      assert states[j := s][1..] == states[1..][j - 1 := s];
    }
  }

  /** A laughing round leaves the total health as it was; an attacking
      round lowers it by exactly the attacker's weapon damage. So only
      attacks bring the game nearer its end. */
  lemma PlayTurnTotalHp(states: seq<PlayerState>, turn: Turn)
    requires turn.actor < |states| && turn.target < |states|
    ensures var actor, target := states[turn.actor], states[turn.target];
      TotalHp(PlayTurn(states, turn))
        == TotalHp(states) - (if Laughs(actor.hp, target.hp) then 0 else AttackDamage(actor.inventory))
  {
    var actor, target := states[turn.actor], states[turn.target];
    TotalHpUpdate(states, turn.target, InteractSpec(actor, target));
  }

  // ---------------------------------------------------------------------
  // A whole run as a value
  // ---------------------------------------------------------------------

  /** The run `done` followed by the run `o`. */
  function Continue(done: seq<Turn>, o: Outcome): (r: Outcome)
    ensures r.final == o.final && r.ending == o.ending
    ensures |r.history| == |done| + |o.history|
    ensures r.history[|done|..] == o.history && r.history[..|done|] == done
    ensures r.numRounds == |done| + o.numRounds
  {
    o.(history := done + o.history, numRounds := |done| + o.numRounds)
  }

  /** What `gameLoop` does with the roster `players`, whose players start
      in `states`, when the random source supplies `rolls`: while someone
      is alive, count a round, pick two players and let them interact. */
  function Play(players: seq<Player>, states: seq<PlayerState>, rolls: seq<nat>): (o: Outcome)
    requires |states| == |players|
    ensures |o.final| == |states|
    decreases |rolls|
  {
    if !SomeAlive(states) then Outcome(states, [], AllDefeated, 0)
    else
      var r := PickSpec(players, rolls);
      if r.0.Picked? then
        var turn := Turn(r.0.actor, r.0.target);
        Continue([turn], Play(players, PlayTurn(states, turn), r.1))
      else
        // the roster is not empty, so the draws ran out
        assert r.0.OutOfRolls?;
        Outcome(states, [], RollsExhausted, 1)
  }

  /** One round of `Play` from a roster with somebody alive. */
  lemma PlayStep(players: seq<Player>, states: seq<PlayerState>, rolls: seq<nat>)
    requires |states| == |players| && SomeAlive(states)
    ensures var r := PickSpec(players, rolls);
      && (r.0.Picked? || r.0.OutOfRolls?)
      && (r.0.Picked? ==>
            Play(players, states, rolls)
              == Continue([Turn(r.0.actor, r.0.target)], Play(players, PlayTurn(states, Turn(r.0.actor, r.0.target)), r.1)))
      && (r.0.OutOfRolls? ==> Play(players, states, rolls) == Outcome(states, [], RollsExhausted, 1))
  {
  }

  /** The loop's round: with someone alive in `states`, the pick on the
      draws `rest` either ends the run or adds one turn to it. */
  lemma LoopRound(players: seq<Player>, start: seq<PlayerState>, rolls: seq<nat>,
                  history: seq<Turn>, states: seq<PlayerState>, rest: seq<nat>)
    requires |start| == |states| == |players| && SomeAlive(states)
    requires Play(players, start, rolls) == Continue(history, Play(players, states, rest))
    ensures var r := PickSpec(players, rest);
      && (r.0.Picked? || r.0.OutOfRolls?)
      && (r.0.Picked? ==>
            var turn := Turn(r.0.actor, r.0.target);
            Play(players, start, rolls) == Continue(history + [turn], Play(players, PlayTurn(states, turn), r.1)))
      && (r.0.OutOfRolls? ==>
            var o := Play(players, start, rolls);
            o.final == states && o.history == history && o.numRounds == |history| + 1 && o.ending == RollsExhausted)
  {
    PlayStep(players, states, rest);
    var r := PickSpec(players, rest);
    if r.0.Picked? {
      var turn := Turn(r.0.actor, r.0.target);
      ContinueTwice(history, turn, Play(players, PlayTurn(states, turn), r.1));
    }
  }

  /** The loop's exit with nobody alive: the run ends here. */
  lemma LoopOver(players: seq<Player>, start: seq<PlayerState>, rolls: seq<nat>,
                 history: seq<Turn>, states: seq<PlayerState>, rest: seq<nat>)
    requires |start| == |states| == |players| && !SomeAlive(states)
    requires Play(players, start, rolls) == Continue(history, Play(players, states, rest))
    ensures var o := Play(players, start, rolls);
      o.final == states && o.history == history && o.numRounds == |history| && o.ending == AllDefeated
  {
    PlayOver(players, states, rest);
  }

  /** A run from a roster where nobody is alive plays no round. */
  lemma PlayOver(players: seq<Player>, states: seq<PlayerState>, rolls: seq<nat>)
    requires |states| == |players| && !SomeAlive(states)
    ensures Play(players, states, rolls) == Outcome(states, [], AllDefeated, 0)
  {
  }

  /** Continuing a run twice is continuing it once with both parts. */
  lemma ContinueTwice(done: seq<Turn>, turn: Turn, o: Outcome)
    ensures Continue(done, Continue([turn], o)) == Continue(done + [turn], o)
  {
    assert done + ([turn] + o.history) == (done + [turn]) + o.history;
  }

  /** The rounds of a run are rounds of two different players, and the
      final roster is their replay. */
  lemma {:induction false} PlayReplays(players: seq<Player>, states: seq<PlayerState>, rolls: seq<nat>)
    requires |states| == |players|
    ensures var o := Play(players, states, rolls);
      ValidTurns(|states|, o.history) && o.final == Replay(states, o.history)
    decreases |rolls|
  {
    if SomeAlive(states) {
      var r := PickSpec(players, rolls);
      if r.0.Picked? {
        var turn := Turn(r.0.actor, r.0.target);
        var next := PlayTurn(states, turn);
        PlayReplays(players, next, r.1);
        var o := Play(players, states, rolls);
        assert o.history[0] == turn && o.history[1..] == Play(players, next, r.1).history;
      }
    }
  }

  /** A run ends with every player at health 0 or less exactly when it was
      not cut off; after a cut-off somebody is still alive. `numRounds`
      counts the rounds played, plus the one cut off. */
  lemma {:induction false} PlayEnding(players: seq<Player>, states: seq<PlayerState>, rolls: seq<nat>)
    requires |states| == |players|
    ensures var o := Play(players, states, rolls);
      && (o.ending == AllDefeated <==> !SomeAlive(o.final))
      && o.numRounds == |o.history| + (if o.ending == RollsExhausted then 1 else 0)
      && (SomeAlive(states) ==> o.numRounds >= 1)
    decreases |rolls|
  {
    if SomeAlive(states) {
      var r := PickSpec(players, rolls);
      if r.0.Picked? {
        PlayEnding(players, PlayTurn(states, Turn(r.0.actor, r.0.target)), r.1);
      }
    }
  }

  /** Every round starts with somebody alive: once every player is at
      health 0 or less, no further round is played. */
  lemma {:induction false} PlayRoundsStartAlive(players: seq<Player>, states: seq<PlayerState>, rolls: seq<nat>)
    requires |states| == |players|
    ensures var o := Play(players, states, rolls);
      ValidTurns(|states|, o.history) &&
      forall k :: 0 <= k < |o.history| ==> SomeAlive(Replay(states, o.history[..k]))
    decreases |rolls|
  {
    PlayReplays(players, states, rolls);
    var o := Play(players, states, rolls);
    if SomeAlive(states) {
      var r := PickSpec(players, rolls);
      if r.0.Picked? {
        var turn := Turn(r.0.actor, r.0.target);
        var next := PlayTurn(states, turn);
        var tail := Play(players, next, r.1).history;
        PlayRoundsStartAlive(players, next, r.1);
        assert o.history == [turn] + tail;
        forall k | 0 <= k < |o.history|
          ensures SomeAlive(Replay(states, o.history[..k]))
        {
          if k > 0 {
            assert o.history[..k] == [turn] + tail[..k - 1];
            assert o.history[..k][1..] == tail[..k - 1];
          }
        }
      }
    }
  }

  /** Every round of `history` starts from a roster where someone is
      alive, as `gameLoop`'s `while` condition demands. */
  ghost predicate RoundsStartAlive(states: seq<PlayerState>, history: seq<Turn>)
    requires ValidTurns(|states|, history)
  {
    forall k :: 0 <= k < |history| ==> SomeAlive(Replay(states, history[..k]))
  }

  /** What the three lemmas above say about a run, stated on the fields
      of its outcome. */
  lemma OutcomeOf(players: seq<Player>, states: seq<PlayerState>, rolls: seq<nat>,
                  final: seq<PlayerState>, history: seq<Turn>, numRounds: nat, ending: Ending)
    requires |states| == |players|
    requires var o := Play(players, states, rolls);
      final == o.final && history == o.history && numRounds == o.numRounds && ending == o.ending
    ensures ending == AllDefeated <==> !SomeAlive(final)
    ensures numRounds == |history| + (if ending == RollsExhausted then 1 else 0)
    ensures ValidTurns(|states|, history)
    ensures final == Replay(states, history)
    ensures RoundsStartAlive(states, history)
  {
    PlayReplays(players, states, rolls);
    PlayEnding(players, states, rolls);
    PlayRoundsStartAlive(players, states, rolls);
  }

  // ---------------------------------------------------------------------
  // The loop
  // ---------------------------------------------------------------------

  /** `players.contains(where: { $0.hp > 0 })`. */
  method AnyAlive(players: seq<Player>) returns (alive: bool)
    ensures alive <==> exists i :: 0 <= i < |players| && players[i].hp > 0
  {
    var i := 0;
    while i < |players|
      invariant 0 <= i <= |players|
      invariant forall k :: 0 <= k < i ==> players[k].hp <= 0
    {
      if players[i].hp > 0 {
        return true;
      }
      i := i + 1;
    }
    return false;
  }

  /** After `interact` on two players of a roster of distinct objects,
      the roster holds the states one round of `PlayTurn` gives. */
  lemma RoundOnRoster(states: seq<PlayerState>, turn: Turn, after: seq<PlayerState>)
    requires |states| == |after|
    requires turn.actor < |states| && turn.target < |states|
    requires after[turn.target] == InteractSpec(states[turn.actor], states[turn.target])
    requires forall i :: 0 <= i < |states| && i != turn.target ==> after[i] == states[i]
    ensures after == PlayTurn(states, turn)
  {
  }

  /** `playRound()`: picks two players and lets the actor interact with
      the target. When the draws run out, nothing is played. */
  method PlayRound(players: seq<Player>, rolls: seq<nat>) returns (pick: Pick, rest: seq<nat>)
    requires Distinct(players)
    modifies players
    ensures (pick, rest) == PickSpec(players, rolls)
    ensures pick.Picked? ==>
      Snapshot(players) == PlayTurn(old(Snapshot(players)), Turn(pick.actor, pick.target))
    ensures !pick.Picked? ==> Snapshot(players) == old(Snapshot(players))
  {
    pick, rest := GetTwoPlayers(players, rolls);
    if pick.Picked? {
      var turn := Turn(pick.actor, pick.target);
      Interact(players[turn.actor], players[turn.target]);
      RoundOnRoster(old(Snapshot(players)), turn, Snapshot(players));
    }
  }

  /** `gameLoop(players:)`: while some player has health left, counts a
      round and plays it. It does exactly what `Play` says for the draws
      `rolls`; the remaining clauses spell out what that means. */
  method GameLoop(players: seq<Player>, rolls: seq<nat>)
    returns (numRounds: nat, ending: Ending, ghost history: seq<Turn>)
    requires Distinct(players)
    modifies players
    ensures var o := Play(players, old(Snapshot(players)), rolls);
      Snapshot(players) == o.final && history == o.history && numRounds == o.numRounds && ending == o.ending
    ensures ending == AllDefeated <==> !SomeAlive(Snapshot(players))
    ensures numRounds == |history| + (if ending == RollsExhausted then 1 else 0)
    ensures ValidTurns(|players|, history)
    ensures Snapshot(players) == Replay(old(Snapshot(players)), history)
    ensures RoundsStartAlive(old(Snapshot(players)), history)
  {
    ghost var start := Snapshot(players);
    ghost var states := start;
    numRounds := 0;
    history := [];
    var rest := rolls;
    var alive := AnyAlive(players);
    while alive
      invariant Snapshot(players) == states
      invariant alive <==> SomeAlive(states)
      invariant numRounds == |history|
      invariant Play(players, start, rolls) == Continue(history, Play(players, states, rest))
      decreases |rest|
    {
      ghost var beforeRest := rest;
      numRounds := numRounds + 1;
      var pick;
      pick, rest := PlayRound(players, rest);
      LoopRound(players, start, rolls, history, states, beforeRest);
      if pick.OutOfRolls? {
        ending := RollsExhausted;
        break;
      }
      var turn := Turn(pick.actor, pick.target);
      states := PlayTurn(states, turn);
      history := history + [turn];
      alive := AnyAlive(players);
    }
    if !alive {
      LoopOver(players, start, rolls, history, states, rest);
      ending := AllDefeated;
    }
    OutcomeOf(players, start, rolls, Snapshot(players), history, numRounds, ending);
  }

  // ---------------------------------------------------------------------
  // Setup and the program
  // ---------------------------------------------------------------------

  /** `NUM_STARTING_ITEMS`. */
  const StartingItems: nat := 2

  /** The items `take(item:)` adds when handed `n` times: the second draw
      of each pair, since the first only produced the ignored argument. */
  function StartingDraws(rolls: seq<nat>, n: nat): (items: seq<Item>)
    requires 2 * n <= |rolls|
    ensures |items| == n
    ensures forall t :: 0 <= t < n ==> items[t] == RandomItem(rolls[2 * t + 1])
  {
    if n == 0 then [] else StartingDraws(rolls, n - 1) + [RandomItem(rolls[2 * n - 1])]
  }

  /** The roster `setup` builds from the first eight draws. */
  function StartingRoster(rolls: seq<nat>): (roster: seq<PlayerState>)
    requires 4 * StartingItems <= |rolls|
    ensures |roster| == 2 && SomeAlive(roster)
    ensures roster[0].inventory == [RandomItem(rolls[1]), RandomItem(rolls[3])]
    ensures roster[1].inventory == [RandomItem(rolls[5]), RandomItem(rolls[7])]
  {
    var roster :=
      [PlayerState("Rasmus", 43, Happy, StartingDraws(rolls, StartingItems)),
       PlayerState("Resmus", 43, Happy, StartingDraws(rolls[2 * StartingItems..], StartingItems))];
    assert roster[0].hp > 0;
    roster
  }

  /** `setupPlayer(_:)`: `NUM_STARTING_ITEMS` times, draws an item for
      the argument and lets the player take one. */
  method SetupPlayer(player: Player, rolls: seq<nat>) returns (rest: seq<nat>)
    requires 2 * StartingItems <= |rolls|
    modifies player`inventory
    ensures player.inventory == old(player.inventory) + StartingDraws(rolls, StartingItems)
    ensures rest == rolls[2 * StartingItems..]
  {
    rest := rolls;
    var count := 1;
    while count <= StartingItems
      invariant 1 <= count <= StartingItems + 1
      invariant rest == rolls[2 * (count - 1)..]
      invariant player.inventory == old(player.inventory) + StartingDraws(rolls, count - 1)
    {
      var argument := RandomItem(rest[0]);
      player.Take(argument, rest[1]);
      rest := rest[2..];
      count := count + 1;
    }
  }

  /** The two players `setup` equips, in roster order, are the starting
      roster. */
  lemma StartingRosterOf(rolls: seq<nat>, first: PlayerState, second: PlayerState)
    requires 4 * StartingItems <= |rolls|
    requires first == PlayerState("Rasmus", 43, Happy, StartingDraws(rolls, StartingItems))
    requires second == PlayerState("Resmus", 43, Happy, StartingDraws(rolls[2 * StartingItems..], StartingItems))
    ensures [first, second] == StartingRoster(rolls)
  {
  }

  /** The states of a roster of two players. */
  lemma SnapshotPair(a: Player, b: Player)
    ensures Snapshot([a, b]) == [a.State(), b.State()]
  {
  }

  /** `setup()`: two fresh players with 43 health, each given its
      starting items. */
  method Setup(rolls: seq<nat>) returns (players: seq<Player>, rest: seq<nat>)
    requires 4 * StartingItems <= |rolls|
    ensures |players| == 2 && Distinct(players)
    ensures fresh(players[0]) && fresh(players[1])
    ensures Snapshot(players) == StartingRoster(rolls)
    ensures rest == rolls[4 * StartingItems..]
  {
    var rasmus := new Player.New("Rasmus", 43);
    var resmus := new Player.New("Resmus", 43);
    players := [rasmus, resmus];
    ghost var first := StartingDraws(rolls, StartingItems);
    ghost var second := StartingDraws(rolls[2 * StartingItems..], StartingItems);
    rest := rolls;
    var k := 0;
    while k < |players|
      invariant 0 <= k <= |players|
      invariant rest == rolls[2 * StartingItems * k..]
      invariant rasmus.State() == PlayerState("Rasmus", 43, Happy, if k == 0 then [] else first)
      invariant resmus.State() == PlayerState("Resmus", 43, Happy, if k < 2 then [] else second)
    {
      var player := players[k];
      rest := SetupPlayer(player, rest);
      if k == 0 {
        assert rasmus.inventory == first;
      } else {
        assert resmus.inventory == second;
      }
      k := k + 1;
    }
    StartingRosterOf(rolls, rasmus.State(), resmus.State());
    SnapshotPair(rasmus, resmus);
  }

  /** The program: set up the roster from the first eight draws, then play
      with the rest. */
  method Run(rolls: seq<nat>) returns (players: seq<Player>, numRounds: nat, ending: Ending)
    requires 4 * StartingItems <= |rolls|
    ensures |players| == 2
    ensures var o := Play(players, StartingRoster(rolls), rolls[4 * StartingItems..]);
      Snapshot(players) == o.final && numRounds == o.numRounds && ending == o.ending
    ensures ending == AllDefeated <==> players[0].hp <= 0 && players[1].hp <= 0
    ensures numRounds >= 1
  {
    var rest;
    players, rest := Setup(rolls);
    ghost var history;
    numRounds, ending, history := GameLoop(players, rest);
    PlayEnding(players, StartingRoster(rolls), rest);
  }
}
