/** Gauntlet pairing (gauntlettournament.cpp): player 0 meets every other
    player in turn, each encounter lasting a fixed number of games.  The
    base class's quantities (player count, final game count, games per
    encounter, current pair) are the constructor's and the calls' inputs. */
module Gauntlet {
  import opened Chess

  /** What nextPair hands back: nothing (the tournament is over), the
      current pair again, or a request for the pair (white, black). */
  datatype PairResult = NoPair | SamePair(current: (int, int)) | NewPair(white: int, black: int)

  datatype PairingState = PairingState(opponent: int, round: int)

  /** One nextPair call, as a function of the state before it. */
  function NextPairStep(playerCount: int, finalGameCount: int, gamesPerEncounter: int,
                        current: (int, int), st: PairingState, gameNumber: int): (PairResult, PairingState)
    requires gamesPerEncounter > 0
  {
    if gameNumber >= finalGameCount then (NoPair, st)
    else if gameNumber % gamesPerEncounter != 0 then (SamePair(current), st)
    else
      var st1 := if st.opponent >= playerCount then PairingState(1, st.round + 1) else st;
      (NewPair(0, st1.opponent), st1.(opponent := st1.opponent + 1))
  }

  class GauntletTournament {
    const playerCount: int
    const finalGameCount: int
    const gamesPerEncounter: int
    var opponent: int
    var round: int

    constructor (playerCount: int, finalGameCount: int, gamesPerEncounter: int, round: int)
      requires gamesPerEncounter > 0
      ensures this.playerCount == playerCount && this.finalGameCount == finalGameCount
      ensures this.gamesPerEncounter == gamesPerEncounter
      ensures opponent == -1 && this.round == round
    {
      this.playerCount := playerCount;
      this.finalGameCount := finalGameCount;
      this.gamesPerEncounter := gamesPerEncounter;
      opponent := -1;
      this.round := round;
    }

    function Type(): (t: string)
      ensures t == "gauntlet"
    {
      "gauntlet"
    }

    /** Every player but player 0 is met once per cycle. */
    function GamesPerCycle(): (n: int)
      reads this
      ensures n + 1 == playerCount
    {
      playerCount - 1
    }

    /** Pairings are not listed for a gauntlet. */
    function GetPairings(): (ps: seq<(string, string)>)
      ensures |ps| == 0
    {
      []
    }

    function HasGauntletRatingsOrder(): (b: bool)
      ensures b
    {
      true
    }

    method InitializePairing()
      modifies this`opponent
      ensures opponent == 1
    {
      opponent := 1;
    }

    method NextPair(gameNumber: int, current: (int, int)) returns (r: PairResult)
      requires gamesPerEncounter > 0
      modifies this`opponent, this`round
      ensures (r, PairingState(opponent, round)) ==
        NextPairStep(playerCount, finalGameCount, gamesPerEncounter, current,
                     PairingState(old(opponent), old(round)), gameNumber)
    {
      if gameNumber >= finalGameCount {
        return NoPair;
      }
      if gameNumber % gamesPerEncounter != 0 {
        return SamePair(current);
      }
      if opponent >= playerCount {
        opponent := 1;
        round := round + 1;
      }
      var white := 0;
      var black := opponent;
      opponent := opponent + 1;
      r := NewPair(white, black);
    }

    /** Marks the game about to start, whose flip flag was `gameFlipped`,
        to be shown flipped when a non-human plays White against player 0
        as Black; the tournament itself is left as it was. */
    method OnGameAboutToStart(whiteIsHuman: bool, blackIndex: int, gameFlipped: bool) returns (flipped: bool)
      ensures flipped == (gameFlipped || (!whiteIsHuman && blackIndex == 0))
    {
      flipped := gameFlipped;
      if !whiteIsHuman && blackIndex == 0 {
        flipped := true;
      }
    }
  }

  // ---------------------------------------------------------------------
  // Properties of a single call

  /** After the last game nothing is paired and nothing changes. */
  lemma NoPairAfterFinalGame(n: int, f: int, g: int, cur: (int, int), st: PairingState, k: int)
    requires g > 0 && k >= f
    ensures NextPairStep(n, f, g, cur, st, k) == (NoPair, st)
  {
  }

  /** Inside an encounter the current pair is reused and the state kept. */
  lemma SamePairWithinEncounter(n: int, f: int, g: int, cur: (int, int), st: PairingState, k: int)
    requires g > 0 && k < f && k % g != 0
    ensures NextPairStep(n, f, g, cur, st, k) == (SamePair(cur), st)
  {
  }

  /** A new encounter pairs player 0 with the next opponent, wrapping to
      player 1 and starting a new round after the last player. */
  lemma NewEncounter(n: int, f: int, g: int, cur: (int, int), st: PairingState, k: int)
    requires g > 0 && k < f && k % g == 0
    ensures var (r, st') := NextPairStep(n, f, g, cur, st, k);
      if st.opponent >= n then r == NewPair(0, 1) && st' == PairingState(2, st.round + 1)
      else r == NewPair(0, st.opponent) && st' == PairingState(st.opponent + 1, st.round)
  {
  }

  // ---------------------------------------------------------------------
  // The whole schedule

  /** The state after nextPair has been called for games 0 .. k-1. */
  function After(n: int, f: int, g: int, cur: (int, int), st: PairingState, k: nat): PairingState
    requires g > 0
  {
    if k == 0 then st
    else NextPairStep(n, f, g, cur, After(n, f, g, cur, st, k - 1), k - 1).1
  }

  /** The pairing state before encounter e when the schedule starts from
      initializePairing (opponent 1) in round r0. */
  function Closed(n: int, r0: int, e: nat): PairingState
    requires n >= 2
  {
    if e == 0 then PairingState(1, r0)
    else PairingState(2 + (e - 1) % (n - 1), r0 + (e - 1) / (n - 1))
  }

  /** Encounters started by games 0 .. k-1: the multiples of g below k. */
  function Started(k: nat, g: int): nat
    requires g > 0
  {
    (k + g - 1) / g
  }

  /** From initializePairing (opponent 1), the game that opens encounter e
      (game e*g, before the last game) pairs player 0 with player
      1 + e mod (n-1) in round r0 + e / (n-1): every other player in turn,
      once per round, and player 0 never against itself. */
  lemma GauntletSchedule(n: int, f: int, g: int, cur: (int, int), r0: int, k: nat)
    requires n >= 2 && g > 0 && k < f && k % g == 0
    ensures var e := k / g;
      NextPairStep(n, f, g, cur, After(n, f, g, cur, PairingState(1, r0), k), k) ==
        (NewPair(0, 1 + e % (n - 1)),
         PairingState(2 + e % (n - 1), r0 + e / (n - 1)))
  {
    var e := k / g;
    DivModUnique(k + g - 1, g, e, g - 1);
    StateAfterGames(n, f, g, cur, r0, k);
    EncounterStep(n, f, g, cur, r0, e, k);
  }

  /** Before every game up to the last, the state is the closed form of the
      number of encounters started so far. */
  lemma {:induction false} StateAfterGames(n: int, f: int, g: int, cur: (int, int), r0: int, k: nat)
    requires n >= 2 && g > 0 && k <= f
    ensures After(n, f, g, cur, PairingState(1, r0), k) == Closed(n, r0, Started(k, g))
  {
    if k == 0 {
      DivModUnique(g - 1, g, 0, g - 1);
    } else {
      var j := k - 1;
      StateAfterGames(n, f, g, cur, r0, j);
      StartedStep(j, g);
      if j % g == 0 {
        EncounterStep(n, f, g, cur, r0, Started(j, g), j);
      }
    }
  }

  /** Game k opens an encounter exactly when k is a multiple of g. */
  lemma StartedStep(k: nat, g: int)
    requires g > 0
    ensures Started(k + 1, g) == Started(k, g) + (if k % g == 0 then 1 else 0)
    ensures k % g == 0 ==> Started(k, g) == k / g
  {
    var q, r := k / g, k % g;
    assert k == q * g + r;
    if r == 0 {
      DivModUnique(k + g - 1, g, q, g - 1);
      DivModUnique(k + g, g, q + 1, 0);
    } else {
      DivModUnique(k + g - 1, g, q + 1, r - 1);
      DivModUnique(k + g, g, q + 1, r);
    }
  }

  /** Opening encounter e moves the state from Closed(e) to Closed(e+1). */
  lemma EncounterStep(n: int, f: int, g: int, cur: (int, int), r0: int, e: nat, k: int)
    requires n >= 2 && g > 0 && k < f && k % g == 0
    ensures NextPairStep(n, f, g, cur, Closed(n, r0, e), k) ==
      (NewPair(0, 1 + e % (n - 1)), Closed(n, r0, e + 1))
  {
    var m := n - 1;
    if e == 0 {
      DivModUnique(0, m, 0, 0);
    } else {
      var q, r := (e - 1) / m, (e - 1) % m;
      if r + 1 == m {
        DivModUnique(e, m, q + 1, 0);
      } else {
        DivModUnique(e, m, q, r + 1);
      }
    }
  }

  lemma MulAtLeast(d: int, g: int)
    requires d >= 1 && g > 0
    ensures d * g >= g
  {
  }

  /** Euclidean division is determined by quotient and remainder. */
  lemma DivModUnique(a: int, g: int, q: int, r: int)
    requires g > 0 && 0 <= r < g && a == q * g + r
    ensures a / g == q && a % g == r
  {
    var q', r' := a / g, a % g;
    assert (q - q') * g == r' - r;
    if q - q' >= 1 {
      MulAtLeast(q - q', g);
    } else if q' - q >= 1 {
      MulAtLeast(q' - q, g);
    }
  }
}
