/**
 * A team: a roster of combatants shared by reference, and the move-selection
 * strategy bound to it. Validity (six members, four moves each, a strategy
 * that plays the attacker's own moves) is a query, not a construction
 * guarantee.
 */
module Teams {
  import opened Wrappers
  import opened Movements
  import opened Pokemons

  /** No member of the roster is alive. */
  predicate NoneAlive(roster: seq<Pokemon>)
    reads roster
    ensures NoneAlive(roster) <==> forall p :: p in roster ==> !p.IsAlive()
    ensures roster == [] ==> NoneAlive(roster)
  {
    forall i :: 0 <= i < |roster| ==> !roster[i].IsAlive()
  }

  /** Every member of the roster is alive. */
  predicate AllAlive(roster: seq<Pokemon>)
    reads roster
  {
    forall i :: 0 <= i < |roster| ==> roster[i].IsAlive()
  }

  /** The number of roster positions holding an alive combatant. */
  function CountAlive(roster: seq<Pokemon>): (n: nat)
    reads roster
    ensures n <= |roster|
    decreases |roster|
  {
    if roster == [] then 0
    else (if roster[0].IsAlive() then 1 else 0) + CountAlive(roster[1..])
  }

  /** No one alive is the same as a count of zero. */
  lemma {:induction false} NoneAliveIffCountZero(roster: seq<Pokemon>)
    ensures NoneAlive(roster) <==> CountAlive(roster) == 0
    decreases |roster|
  {
    if roster != [] {
      NoneAliveIffCountZero(roster[1..]);
      assert NoneAlive(roster) <==> !roster[0].IsAlive() && NoneAlive(roster[1..]) by {
        if !roster[0].IsAlive() && NoneAlive(roster[1..]) {
          forall i | 0 <= i < |roster| ensures !roster[i].IsAlive() {
            if i > 0 { assert roster[i] == roster[1..][i - 1]; }
          }
        }
      }
    }
  }

  /** Everyone alive is the same as a count equal to the roster size. */
  lemma {:induction false} AllAliveIffCountFull(roster: seq<Pokemon>)
    ensures AllAlive(roster) <==> CountAlive(roster) == |roster|
    decreases |roster|
  {
    if roster != [] {
      AllAliveIffCountFull(roster[1..]);
      assert AllAlive(roster) <==> roster[0].IsAlive() && AllAlive(roster[1..]) by {
        if roster[0].IsAlive() && AllAlive(roster[1..]) {
          forall i | 0 <= i < |roster| ensures roster[i].IsAlive() {
            if i > 0 { assert roster[i] == roster[1..][i - 1]; }
          }
        }
      }
    }
  }

  /** A fixture move, distinguished from the others only by its name. */
  function DummyMove(name: string): (m: Movement)
    ensures m.name == name && m.moveType == Normal && m.kind == Physical
  {
    Movement(name, "dummy", Normal, Physical, 100, "100%", 100)
  }

  /** The fixture attacker's moves. */
  function AttackerDummyMoves(): (ms: seq<Movement>)
    ensures |ms| == 4
  {
    [DummyMove("dummy1"), DummyMove("dummy2"), DummyMove("dummy3"), DummyMove("dummy4")]
  }

  /** The fixture defender's moves. */
  function DefenderDummyMoves(): (ms: seq<Movement>)
    ensures |ms| == 4
  {
    [DummyMove("dummy5"), DummyMove("dummy6"), DummyMove("dummy7"), DummyMove("dummy8")]
  }

  /** The two fixture move lists have no move in common. */
  lemma DummyMovesDisjoint(m: Movement)
    ensures !(m in AttackerDummyMoves() && m in DefenderDummyMoves())
  {
  }

  /** The fixture attacker. */
  function DummyAttacker(): (c: Combatant)
    ensures c.moves == AttackerDummyMoves()
  {
    NewCombatant("dummy", Normal, None, 100, 100, 100, 100, 100, 100, AttackerDummyMoves())
  }

  /** The fixture defender. */
  function DummyDefender(): (c: Combatant)
    ensures c.moves == DefenderDummyMoves()
  {
    NewCombatant("dummy2", Normal, None, 100, 100, 100, 100, 100, 100, DefenderDummyMoves())
  }

  /**
   * Runs the strategy once on the fixtures: Some(true) when it plays one of the
   * attacker's moves, Some(false) when it plays any other move, None when it fails.
   */
  function CheckSelector(selector: MoveSelector, draw: nat): (r: Option<bool>)
    ensures r.None? <==> selector(DummyAttacker(), DummyDefender(), draw).None?
    ensures r == Some(true) <==> selector(DummyAttacker(), DummyDefender(), draw).Some? &&
                                 selector(DummyAttacker(), DummyDefender(), draw).value in AttackerDummyMoves()
    ensures r == Some(true) ==> selector(DummyAttacker(), DummyDefender(), draw).value !in DefenderDummyMoves()
    ensures r == Some(false) <==> selector(DummyAttacker(), DummyDefender(), draw).Some? &&
                                  selector(DummyAttacker(), DummyDefender(), draw).value !in AttackerDummyMoves()
  {
    match selector(DummyAttacker(), DummyDefender(), draw)
    case None => None
    case Some(m) =>
      DummyMovesDisjoint(m);
      Some(m in DummyAttacker().moves)
  }

  /** A strategy that keeps its contract passes the check on every draw. */
  lemma ConformingSelectorPasses(selector: MoveSelector, draw: nat)
    ensures Conforms(selector) ==> CheckSelector(selector, draw) == Some(true)
  {
  }

  /** The default strategy passes the check on every draw. */
  lemma SelectMovePasses(draw: nat)
    ensures CheckSelector(SelectMove, draw) == Some(true)
  {
    SelectMoveConforms();
    ConformingSelectorPasses(SelectMove, draw);
  }

  /** A strategy that plays one of the defender's moves fails the check. */
  lemma DefenderMoveFails(selector: MoveSelector, draw: nat)
    requires selector(DummyAttacker(), DummyDefender(), draw).Some?
    requires selector(DummyAttacker(), DummyDefender(), draw).value in DummyDefender().moves
    ensures CheckSelector(selector, draw) == Some(false)
  {
    DummyMovesDisjoint(selector(DummyAttacker(), DummyDefender(), draw).value);
  }

  /** The strategy "always play the defender's first move" fails on every draw. */
  lemma DefenderFirstMoveFails(draw: nat)
    ensures CheckSelector((a: Combatant, d: Combatant, r: nat) =>
                            if |d.moves| > 0 then Some(d.moves[0]) else None, draw)
            == Some(false)
  {
    var selector := (a: Combatant, d: Combatant, r: nat) =>
                      if |d.moves| > 0 then Some(d.moves[0]) else None;
    DefenderMoveFails(selector, draw);
  }

  /**
   * The check tests one fixture, not the contract: "always play the fixture
   * attacker's first move" passes although it breaks the contract.
   */
  lemma CheckIsWeakerThanContract(draw: nat)
    ensures CheckSelector((a: Combatant, d: Combatant, r: nat) => Some(DummyMove("dummy1")), draw)
            == Some(true)
    ensures !Conforms((a: Combatant, d: Combatant, r: nat) => Some(DummyMove("dummy1")))
  {
    var selector := (a: Combatant, d: Combatant, r: nat) => Some(DummyMove("dummy1"));
    var other := DummyDefender();
    assert selector(other, other, draw).value !in other.moves by {
      DummyMovesDisjoint(DummyMove("dummy1"));
      assert DummyMove("dummy1") in AttackerDummyMoves();
    }
  }

  class Team {
    const pokemons: seq<Pokemon>
    const name: string
    var moveSelector: MoveSelector

    /** A new team plays the default strategy. */
    constructor (pokemons: seq<Pokemon>, name: string)
      ensures this.pokemons == pokemons && this.name == name
      ensures moveSelector == SelectMove
    {
      this.pokemons := pokemons;
      this.name := name;
      this.moveSelector := SelectMove;
    }

    /** The team is defeated when no member is alive. */
    predicate IsDefeated()
      reads pokemons
      ensures IsDefeated() <==> CountAlive(pokemons) == 0
      ensures |pokemons| == 0 ==> IsDefeated()
    {
      NoneAliveIffCountZero(pokemons);
      NoneAlive(pokemons)
    }

    /** The first alive member in roster order, or null when none is alive. */
    method GetPokemon() returns (r: Pokemon?)
      ensures r == null <==> IsDefeated()
      ensures r != null ==>
                exists i :: 0 <= i < |pokemons| && pokemons[i] == r && r.IsAlive() &&
                            forall j :: 0 <= j < i ==> !pokemons[j].IsAlive()
    {
      var i := 0;
      while i < |pokemons|
        invariant 0 <= i <= |pokemons|
        invariant forall j :: 0 <= j < i ==> !pokemons[j].IsAlive()
      {
        if pokemons[i].IsAlive() {
          return pokemons[i];
        }
        i := i + 1;
      }
      return null;
    }

    /** How many members are alive. */
    function CountAlivePokemons(): (n: nat)
      reads pokemons
      ensures n <= |pokemons|
      ensures n == 0 <==> IsDefeated()
      ensures n == |pokemons| <==> AllAlive(pokemons)
    {
      AllAliveIffCountFull(pokemons);
      CountAlive(pokemons)
    }

    /** Binds another strategy; the last one bound wins. */
    method SetSelectMove(selector: MoveSelector)
      modifies this
      ensures moveSelector == selector
    {
      moveSelector := selector;
    }

    /** Puts every member back to full hp and neutral stages. */
    method ResetTeam()
      modifies pokemons
      ensures forall p :: p in pokemons ==> p.hp == p.maxHp && p.StagesNeutral()
      ensures forall p :: p in pokemons && p.maxHp >= 0.0 ==> p.HpInRange()
      ensures (forall p :: p in pokemons ==> p.maxHp > 0.0) ==>
                CountAlivePokemons() == |pokemons|
    {
      var i := 0;
      while i < |pokemons|
        invariant 0 <= i <= |pokemons|
        invariant forall j :: 0 <= j < i ==>
                    pokemons[j].hp == pokemons[j].maxHp && pokemons[j].StagesNeutral()
      {
        var pokemon := pokemons[i];
        pokemon.hp := pokemon.maxHp;
        pokemon.attackModifier := 0;
        pokemon.defenseModifier := 0;
        pokemon.spAttackModifier := 0;
        pokemon.spDefenseModifier := 0;
        pokemon.speedModifier := 0;
        pokemon.accuracyModifier := 0;
        i := i + 1;
      }
      AllAliveIffCountFull(pokemons);
    }

    /** Runs the bound strategy once on the fixtures. */
    function CheckMoveSelector(draw: nat): (r: Option<bool>)
      reads this
      ensures r == CheckSelector(moveSelector, draw)
      ensures Conforms(moveSelector) ==> r == Some(true)
    {
      ConformingSelectorPasses(moveSelector, draw);
      CheckSelector(moveSelector, draw)
    }

    /**
     * Six members with four moves each and a passing strategy check; the
     * check runs whatever the roster, so a failing strategy makes the whole
     * query fail (None).
     */
    function IsValidTeam(draw: nat): (r: Option<bool>)
      reads this, pokemons
      ensures r.None? <==> CheckMoveSelector(draw).None?
      ensures r == Some(true) <==>
                |pokemons| == 6 &&
                (forall i :: 0 <= i < |pokemons| ==> |pokemons[i].moves| == 4) &&
                CheckMoveSelector(draw) == Some(true)
    {
      var rightNumberOfPokemons := |pokemons| == 6;
      var rightNumberOfMovements := forall i :: 0 <= i < |pokemons| ==> |pokemons[i].moves| == 4;
      var validMoveSelector := CheckMoveSelector(draw);
      match validMoveSelector
      case None => None
      case Some(ok) => Some(rightNumberOfPokemons && rightNumberOfMovements && ok)
    }
  }

  /** With a strategy that keeps its contract, validity is exactly the roster shape. */
  lemma ValidityWithConformingSelector(team: Team, draw: nat)
    requires Conforms(team.moveSelector)
    ensures team.IsValidTeam(draw) ==
              Some(|team.pokemons| == 6 &&
                   forall i :: 0 <= i < |team.pokemons| ==> |team.pokemons[i].moves| == 4)
  {
    ConformingSelectorPasses(team.moveSelector, draw);
  }
}
