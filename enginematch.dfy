/** The command-line match runner (enginematch.cpp): two engines play a
    series of games, alternating colours, each game opening from a pending
    override, a book or a PGN file, and the score is tallied as games end.

    Engine processes, the PGN and book files, the timer and the games
    themselves are outside the model: starting a process is a boolean
    oracle, the PGN file is the sequence of openings its games give, the
    book is a move oracle, `start` returns how the new game is set up and
    `onGameEnded` takes the game's result and returns whether the next game
    is scheduled. */
module Match {
  import opened Chess
  import Session

  /** A registered engine: its command, whether its settings carry a valid
      time control, and its wins. */
  datatype EngineData = EngineData(command: string, timeControlValid: bool, wins: int)

  /** A starting FEN ("" for the variant's default) and forced moves. */
  datatype Opening = Opening(fen: string, moves: seq<Move>)

  /** How start sets up a game: the engines' indices for White and Black
      and the opening the game gets. */
  datatype GameSetup = GameSetup(white: nat, black: nat, opening: Opening)

  datatype NextStep = ScheduleNext | Finish

  /** What onGameEnded does: the round number the game is saved under
      when a PGN output file is set, and whether another game follows. */
  datatype GameEndOutcome = GameEndOutcome(savedRound: Option<int>, next: NextStep)

  datatype MatchState = MatchState(
    engines: seq<EngineData>,
    bookDepth: int,
    gameCount: int,
    drawCount: int,
    currentGame: int,
    pgnGamesRead: int,
    white: Option<nat>,
    black: Option<nat>,
    fen: string,
    openingMoves: seq<Move>,
    repeatOpening: bool,
    pgnOpen: bool,
    pgnFile: seq<Opening>,
    pgnCursor: nat,
    pgnOutput: string)

  const DefaultBookDepth := 30

  predicate Valid(m: MatchState) {
    && |m.engines| <= 2
    && m.bookDepth > 0
    && (m.pgnGamesRead > 0 ==> |m.pgnFile| > 0)
  }

  // ---------------------------------------------------------------------
  // Configuration

  function AddEngineSpec(m: MatchState, command: string, timeControlValid: bool): MatchState {
    if |m.engines| >= 2 || command == "" then m
    else m.(engines := m.engines + [EngineData(command, timeControlValid, 0)])
  }

  function SetBookDepthSpec(m: MatchState, depth: int): MatchState {
    if depth <= 0 then m else m.(bookDepth := depth)
  }

  /** At most two engines are ever registered, each with a command; a new
      one starts with no wins, and a third or a command-less one is
      ignored. */
  lemma AddEngineRule(m: MatchState, command: string, tc: bool)
    ensures var m' := AddEngineSpec(m, command, tc);
      && (|m.engines| >= 2 || command == "" ==> m' == m)
      && (|m.engines| < 2 && command != "" ==>
            m'.engines == m.engines + [EngineData(command, tc, 0)] && m' == m.(engines := m'.engines))
      && (Valid(m) ==> Valid(m'))
      && ((forall e :: e in m.engines ==> e.command != "") ==> forall e :: e in m'.engines ==> e.command != "")
  {
  }

  /** The book depth stays positive: a non-positive depth is refused and the
      previous one kept. */
  lemma BookDepthRule(m: MatchState, depth: int)
    ensures var m' := SetBookDepthSpec(m, depth);
      && m'.bookDepth == (if depth > 0 then depth else m.bookDepth)
      && m' == m.(bookDepth := m'.bookDepth)
      && (m.bookDepth > 0 ==> m'.bookDepth > 0)
  {
  }

  // ---------------------------------------------------------------------
  // initialize

  /** The engine loop of initialize from engine i on: a missing time
      control fails before the engine's wins are reset, a process that does
      not start fails after. */
  function InitFrom(es: seq<EngineData>, starts: nat -> bool, i: nat): (r: (seq<EngineData>, bool))
    requires i <= |es|
    ensures |r.0| == |es|
    decreases |es| - i
  {
    if i == |es| then (es, true)
    else if !es[i].timeControlValid then (es, false)
    else
      var es1 := es[i := es[i].(wins := 0)];
      if !starts(i) then (es1, false) else InitFrom(es1, starts, i + 1)
  }

  /** initialize's engine loop: each engine in turn needs a valid time
      control, has its wins reset and must start; the first that fails
      ends the loop. */
  method StartEngines(es0: seq<EngineData>, starts: nat -> bool) returns (es: seq<EngineData>, ok: bool)
    ensures (es, ok) == InitFrom(es0, starts, 0)
  {
    es := es0;
    var i := 0;
    while i < |es|
      invariant 0 <= i <= |es| == |es0|
      invariant InitFrom(es, starts, i) == InitFrom(es0, starts, 0)
      decreases |es| - i
    {
      if !es[i].timeControlValid {
        return es, false;
      }
      es := es[i := es[i].(wins := 0)];
      if !starts(i) {
        return es, false;
      }
      i := i + 1;
    }
    ok := true;
  }

  function InitializeSpec(m: MatchState, starts: nat -> bool): (MatchState, bool) {
    if |m.engines| < 2 then (m, false)
    else
      var (es, ok) := InitFrom(m.engines, starts, 0);
      (ResetSpec(m, es), ok)
  }

  function ResetSpec(m: MatchState, es: seq<EngineData>): MatchState {
    m.(currentGame := 0, drawCount := 0, white := None, black := None, engines := es)
  }

  /** Whether engine j passes initialize's checks. */
  predicate EngineStarts(es: seq<EngineData>, starts: nat -> bool, j: int)
    requires 0 <= j < |es|
  {
    es[j].timeControlValid && starts(j)
  }

  /** The engine loop succeeds iff every engine has a valid time control
      and starts; it keeps every command and time control, leaves the
      engines before i alone and, on success, zeroes every engine's wins. */
  lemma {:induction false} InitFromOutcome(es: seq<EngineData>, starts: nat -> bool, i: nat)
    requires i <= |es|
    ensures var (es', ok) := InitFrom(es, starts, i);
      && (ok <==> forall j :: i <= j < |es| ==> EngineStarts(es, starts, j))
      && (forall j :: 0 <= j < |es| ==> es'[j].command == es[j].command && es'[j].timeControlValid == es[j].timeControlValid)
      && (forall j :: 0 <= j < i ==> es'[j] == es[j])
      && (ok ==> forall j :: i <= j < |es| ==> es'[j].wins == 0)
    decreases |es| - i
  {
    if i < |es| && es[i].timeControlValid {
      var es1 := es[i := es[i].(wins := 0)];
      if starts(i) {
        InitFromOutcome(es1, starts, i + 1);
        assert forall j :: i < j < |es| ==> EngineStarts(es1, starts, j) == EngineStarts(es, starts, j);
      } else {
        assert !EngineStarts(es, starts, i);
      }
    } else if i < |es| {
      assert !EngineStarts(es, starts, i);
    }
  }

  /** When the loop fails, it stopped at an engine f that failed: the
      engines from i to f have lost their wins (f too when its time
      control was valid) and the engines after f are untouched. */
  lemma {:induction false} InitFromFailure(es: seq<EngineData>, starts: nat -> bool, i: nat)
    requires i <= |es|
    ensures var (es', ok) := InitFrom(es, starts, i);
      !ok ==> exists f :: (i <= f < |es| && !EngineStarts(es, starts, f) &&
                           (forall j :: i <= j < f ==> es'[j].wins == 0) &&
                           (forall j :: f < j < |es| ==> es'[j] == es[j]) &&
                           es'[f].wins == (if es[f].timeControlValid then 0 else es[f].wins))
    decreases |es| - i
  {
    if i < |es| && es[i].timeControlValid {
      var es1 := es[i := es[i].(wins := 0)];
      if starts(i) {
        InitFromFailure(es1, starts, i + 1);
        InitFromOutcome(es1, starts, i + 1);
        var (es', ok) := InitFrom(es1, starts, i + 1);
        if !ok {
          var f :| i + 1 <= f < |es| && !EngineStarts(es1, starts, f) &&
            (forall j :: i + 1 <= j < f ==> es'[j].wins == 0) &&
            (forall j :: f < j < |es| ==> es'[j] == es1[j]) &&
            es'[f].wins == (if es1[f].timeControlValid then 0 else es1[f].wins);
          assert !EngineStarts(es, starts, f);
        }
      } else {
        assert !EngineStarts(es, starts, i);
      }
    } else if i < |es| {
      assert !EngineStarts(es, starts, i);
    }
  }

  /** initialize fails without touching anything when fewer than two
      engines are registered; otherwise it resets the game index and draw
      count and succeeds iff every engine has a valid time control and
      starts, in which case every engine has zero wins. */
  lemma InitializeOutcome(m: MatchState, starts: nat -> bool)
    ensures var (m', ok) := InitializeSpec(m, starts);
      && (|m.engines| < 2 ==> !ok && m' == m)
      && (|m.engines| >= 2 ==>
            && m'.currentGame == 0 && m'.drawCount == 0
            && |m'.engines| == |m.engines|
            && (ok <==> forall j :: 0 <= j < |m.engines| ==> EngineStarts(m.engines, starts, j))
            && (ok ==> forall j :: 0 <= j < |m'.engines| ==> m'.engines[j].wins == 0))
  {
    InitFromOutcome(m.engines, starts, 0);
  }

  // ---------------------------------------------------------------------
  // start

  /** The engines' indices for White and Black in game k. */
  function Colours(k: int): (nat, nat) {
    if k % 2 == 0 then (0, 1) else (1, 0)
  }

  /** What the game loaded from a PGN record holds: its FEN and at most
      `depth` of its moves. */
  function Loaded(rec: Opening, depth: int): (o: Opening)
    requires depth > 0
    ensures o.fen == rec.fen && |o.moves| <= depth && o.moves <= rec.moves
    ensures |rec.moves| <= depth ==> o == rec
  {
    Opening(rec.fen, if |rec.moves| <= depth then rec.moves else rec.moves[..depth])
  }

  /** Which opening the new game gets: a pending FEN or move list, else
      the book's line, else the next game of the PGN file (its first game
      when the file is exhausted after earlier reads), else none. */
  function OpeningFor(rules: Rules, book: Option<Position -> Move>, m: MatchState): Opening
    requires m.bookDepth > 0
  {
    if m.fen != "" || m.openingMoves != [] then
      Opening(if m.fen != "" && rules.validFen(m.fen) then m.fen else "", m.openingMoves)
    else if book.Some? then
      Opening(rules.startingFen, Session.BookLine(rules, book.value, Position(rules.startingFen, []), m.bookDepth))
    else if m.pgnOpen && m.pgnCursor < |m.pgnFile| then Loaded(m.pgnFile[m.pgnCursor], m.bookDepth)
    else if m.pgnOpen && m.pgnGamesRead > 0 && |m.pgnFile| > 0 then Loaded(m.pgnFile[0], m.bookDepth)
    else Opening("", [])
  }

  /** The match state after the choice: a pending override is used up; a
      read from the PGN file advances its cursor, rewinding once the file
      is exhausted after earlier reads, and counts the load. */
  function AfterOpening(m: MatchState, hasBook: bool): MatchState {
    if m.fen != "" || m.openingMoves != [] then m.(fen := "", openingMoves := [])
    else if hasBook || !m.pgnOpen then m
    else if m.pgnCursor < |m.pgnFile| then m.(pgnCursor := m.pgnCursor + 1, pgnGamesRead := m.pgnGamesRead + 1)
    else if m.pgnGamesRead > 0 then
      m.(pgnCursor := if |m.pgnFile| > 0 then 1 else 0, pgnGamesRead := m.pgnGamesRead + 1)
    else m
  }

  /** The match with the colours of its current game assigned. */
  function WithColours(m: MatchState): MatchState {
    m.(white := Some(Colours(m.currentGame).0), black := Some(Colours(m.currentGame).1))
  }

  function StartSpec(rules: Rules, book: Option<Position -> Move>, m: MatchState): (MatchState, GameSetup)
    requires m.bookDepth > 0
  {
    var (w, b) := Colours(m.currentGame);
    var opening := OpeningFor(rules, book, WithColours(m));
    var m1 := AfterOpening(WithColours(m), book.Some?);
    var m2 := if m.repeatOpening && m.currentGame % 2 == 0
              then m1.(fen := opening.fen, openingMoves := opening.moves) else m1;
    (m2, GameSetup(w, b, opening))
  }

  /** Colours alternate: engine 0 is White in even-numbered games and Black
      in odd ones, so each engine has White in exactly one of any two
      consecutive games. */
  lemma ColoursAlternate(k: int)
    ensures Colours(k).0 != Colours(k).1 && Colours(k).0 < 2 && Colours(k).1 < 2
    ensures Colours(k).0 == 0 <==> k % 2 == 0
    ensures Colours(k + 1).0 == Colours(k).1 && Colours(k + 1).1 == Colours(k).0
  {
  }

  /** A pending override wins over the book and the PGN file, and is used
      once; the book wins over the PGN file. */
  lemma OpeningPriority(rules: Rules, book: Option<Position -> Move>, m: MatchState)
    requires m.bookDepth > 0
    ensures var m', o := AfterOpening(m, book.Some?), OpeningFor(rules, book, m);
      && (m.fen != "" || m.openingMoves != [] ==>
            o.moves == m.openingMoves && m'.fen == "" && m'.openingMoves == [] &&
            m'.pgnCursor == m.pgnCursor && m'.pgnGamesRead == m.pgnGamesRead)
      && (m.fen == "" && m.openingMoves == [] && book.Some? ==>
            m' == m && o.fen == rules.startingFen && |o.moves| <= m.bookDepth)
      && (m.fen == "" && m.openingMoves == [] && book.None? && !m.pgnOpen ==> m' == m && o == Opening("", []))
  {
    if m.fen == "" && m.openingMoves == [] && book.Some? {
      Session.BookLineSound(rules, book.value, Position(rules.startingFen, []), m.bookDepth);
    }
  }

  /** From the PGN file, a game is read when one is left; when none is and
      an earlier read succeeded, the file is rewound and its first game
      read (that read succeeds in a valid state); the read counter counts
      the loads. */
  lemma PgnReadAndRewind(rules: Rules, m: MatchState)
    requires Valid(m) && m.pgnOpen && m.fen == "" && m.openingMoves == []
    ensures var m', o := AfterOpening(m, false), OpeningFor(rules, None, m);
      && (m.pgnCursor < |m.pgnFile| ==>
            o == Loaded(m.pgnFile[m.pgnCursor], m.bookDepth) &&
            m'.pgnCursor == m.pgnCursor + 1 && m'.pgnGamesRead == m.pgnGamesRead + 1)
      && (m.pgnCursor >= |m.pgnFile| && m.pgnGamesRead > 0 ==>
            o == Loaded(m.pgnFile[0], m.bookDepth) &&
            m'.pgnCursor == 1 && m'.pgnGamesRead == m.pgnGamesRead + 1)
      && (m.pgnCursor >= |m.pgnFile| && m.pgnGamesRead <= 0 ==> m' == m && o == Opening("", []))
      && Valid(m')
  {
  }

  /** With repeatOpening, an even-numbered game leaves its opening as the
      override of the next game, which therefore replays it with colours
      reversed. */
  lemma RepeatOpeningReplays(rules: Rules, book: Option<Position -> Move>, m: MatchState)
    requires m.bookDepth > 0 && m.repeatOpening && m.currentGame % 2 == 0
    ensures var (m', setup) := StartSpec(rules, book, m);
      m'.fen == setup.opening.fen && m'.openingMoves == setup.opening.moves
    ensures var (m', setup) := StartSpec(rules, book, m);
      var (m'', setup') := StartSpec(rules, book, m'.(currentGame := m.currentGame + 1));
      (setup.opening.moves != [] ==> setup'.opening.moves == setup.opening.moves) &&
      setup'.white == setup.black && setup'.black == setup.white
  {
    ColoursAlternate(m.currentGame);
  }

  // ---------------------------------------------------------------------
  // onGameEnded

  /** The game's result is counted: a draw as a draw, a win for the engine
      that had the winning colour; the game index advances, and another
      game follows iff games remain and the game neither failed nor was won
      by a disconnection. */
  function GameEndedSpec(m: MatchState, r: GameResult): (MatchState, GameEndOutcome)
    requires m.white.Some? && m.white.value < |m.engines|
    requires m.black.Some? && m.black.value < |m.engines|
  {
    var m1 := TallySpec(m, r);
    var saved := if m.pgnOutput != "" then Some(m.currentGame + 1) else None;
    var m2 := m1.(currentGame := m.currentGame + 1);
    var next := if m2.currentGame < m.gameCount && !r.IsError() && !r.IsWinByDisconnection()
                then ScheduleNext else Finish;
    (m2, GameEndOutcome(saved, next))
  }

  /** The result counted: a draw, or a win for the engine that had the
      winning colour. */
  function TallySpec(m: MatchState, r: GameResult): MatchState
    requires m.white.Some? && m.white.value < |m.engines|
    requires m.black.Some? && m.black.value < |m.engines|
  {
    if r.IsDraw() then m.(drawCount := m.drawCount + 1)
    else if r.Decided? && r.winner == Some(White) then
      m.(engines := m.engines[m.white.value := m.engines[m.white.value].(wins := m.engines[m.white.value].wins + 1)])
    else if r.Decided? && r.winner == Some(Black) then
      m.(engines := m.engines[m.black.value := m.engines[m.black.value].(wins := m.engines[m.black.value].wins + 1)])
    else m
  }

  /** The colour engine e has in game k. */
  function SideOf(e: nat, k: int): Side {
    if Colours(k).0 == e then White else Black
  }

  /** Whether result r of game k is a win for engine e. */
  predicate WinFor(e: nat, k: int, r: GameResult) {
    !r.IsDraw() && r.Decided? && r.winner == Some(SideOf(e, k))
  }

  /** Starting a game and ending it with r credits exactly one of: a draw,
      a win for the engine that held the winning colour, or nothing (no
      result, an error); the game index advances by one. */
  lemma GameTally(rules: Rules, book: Option<Position -> Move>, m: MatchState, r: GameResult)
    requires Valid(m) && |m.engines| == 2
    ensures var m1 := StartSpec(rules, book, m).0;
      var (m2, outcome) := GameEndedSpec(m1, r);
      && m2.currentGame == m.currentGame + 1
      && m2.drawCount == m.drawCount + (if r.IsDraw() then 1 else 0)
      && |m2.engines| == 2
      && (forall e :: 0 <= e < 2 ==>
            m2.engines[e].wins == m.engines[e].wins + (if WinFor(e, m.currentGame, r) then 1 else 0))
      && (outcome.next == ScheduleNext <==>
            m.currentGame + 1 < m.gameCount && !r.IsError() && !r.IsWinByDisconnection())
  {
    StartSetsColours(rules, book, m);
    EndTally(StartSpec(rules, book, m).0, r);
  }

  /** start changes no score, only who has which colour. */
  lemma StartSetsColours(rules: Rules, book: Option<Position -> Move>, m: MatchState)
    requires m.bookDepth > 0
    ensures var m1 := StartSpec(rules, book, m).0;
      && m1.engines == m.engines && m1.drawCount == m.drawCount
      && m1.currentGame == m.currentGame && m1.gameCount == m.gameCount
      && m1.white == Some(Colours(m.currentGame).0) && m1.black == Some(Colours(m.currentGame).1)
  {
  }

  lemma EndTally(m: MatchState, r: GameResult)
    requires |m.engines| == 2
    requires m.white == Some(Colours(m.currentGame).0) && m.black == Some(Colours(m.currentGame).1)
    ensures var (m2, outcome) := GameEndedSpec(m, r);
      && m2.currentGame == m.currentGame + 1
      && m2.drawCount == m.drawCount + (if r.IsDraw() then 1 else 0)
      && |m2.engines| == 2
      && (forall e :: 0 <= e < 2 ==>
            m2.engines[e].wins == m.engines[e].wins + (if WinFor(e, m.currentGame, r) then 1 else 0))
      && (outcome.next == ScheduleNext <==>
            m.currentGame + 1 < m.gameCount && !r.IsError() && !r.IsWinByDisconnection())
  {
  }

  /** Each game counts as exactly one of: a draw, a win for engine 0, a
      win for engine 1, or undecided. */
  lemma OneOutcomePerGame(k: int, r: GameResult)
    ensures (if r.IsDraw() then 1 else 0) + (if WinFor(0, k, r) then 1 else 0) + (if WinFor(1, k, r) then 1 else 0)
            + (if !r.IsDraw() && !(r.Decided? && r.winner.Some?) then 1 else 0) == 1
  {
    assert SideOf(0, k) != SideOf(1, k);
    if r.Decided? && r.winner.Some? {
      assert !r.IsDraw();
      if r.winner.value != SideOf(0, k) {
        assert r.winner.value == SideOf(1, k);
      }
    }
  }

  /** The state after games with results rs, each started and then ended. */
  function Series(rules: Rules, book: Option<Position -> Move>, m: MatchState, rs: seq<GameResult>): (m': MatchState)
    requires Valid(m) && |m.engines| == 2
    ensures Valid(m') && |m'.engines| == 2 && m'.currentGame == m.currentGame + |rs|
    decreases |rs|
  {
    if rs == [] then m
    else Series(rules, book, Play(rules, book, m, rs[0]), rs[1..])
  }

  /** One game: started, then ended with result r. */
  function Play(rules: Rules, book: Option<Position -> Move>, m: MatchState, r: GameResult): (m': MatchState)
    requires Valid(m) && |m.engines| == 2
    ensures Valid(m') && |m'.engines| == 2 && m'.currentGame == m.currentGame + 1
  {
    StartSetsColours(rules, book, m);
    StartKeepsValid(rules, book, m);
    EndTally(StartSpec(rules, book, m).0, r);
    GameEndedSpec(StartSpec(rules, book, m).0, r).0
  }

  function CountDraws(rs: seq<GameResult>): nat {
    if rs == [] then 0 else (if rs[0].IsDraw() then 1 else 0) + CountDraws(rs[1..])
  }

  function CountWins(e: nat, k: int, rs: seq<GameResult>): nat
    decreases |rs|
  {
    if rs == [] then 0 else (if WinFor(e, k, rs[0]) then 1 else 0) + CountWins(e, k + 1, rs[1..])
  }

  function CountUndecided(rs: seq<GameResult>): nat {
    if rs == [] then 0
    else (if !rs[0].IsDraw() && !(rs[0].Decided? && rs[0].winner.Some?) then 1 else 0) + CountUndecided(rs[1..])
  }

  lemma StartKeepsValid(rules: Rules, book: Option<Position -> Move>, m: MatchState)
    requires Valid(m)
    ensures Valid(StartSpec(rules, book, m).0)
    ensures StartSpec(rules, book, m).0.engines == m.engines
  {
  }

  /** Over a series of games the score adds up: the draw count grows by the
      draws, each engine's wins by the games it won with the colour it had,
      and draws, wins and undecided games together are all the games. */
  lemma {:induction false} SeriesScore(rules: Rules, book: Option<Position -> Move>, m: MatchState, rs: seq<GameResult>)
    requires Valid(m) && |m.engines| == 2
    ensures var m' := Series(rules, book, m, rs);
      && m'.drawCount == m.drawCount + CountDraws(rs)
      && m'.engines[0].wins == m.engines[0].wins + CountWins(0, m.currentGame, rs)
      && m'.engines[1].wins == m.engines[1].wins + CountWins(1, m.currentGame, rs)
      && CountDraws(rs) + CountWins(0, m.currentGame, rs) + CountWins(1, m.currentGame, rs) + CountUndecided(rs) == |rs|
    decreases |rs|
  {
    if rs != [] {
      var m1 := Play(rules, book, m, rs[0]);
      PlayTally(rules, book, m, rs[0]);
      SeriesScore(rules, book, m1, rs[1..]);
      assert Series(rules, book, m, rs) == Series(rules, book, m1, rs[1..]);
    }
    CountsAddUp(m.currentGame, rs);
  }

  /** One game, as the series counts it. */
  lemma PlayTally(rules: Rules, book: Option<Position -> Move>, m: MatchState, r: GameResult)
    requires Valid(m) && |m.engines| == 2
    ensures var m1 := Play(rules, book, m, r);
      && m1.drawCount == m.drawCount + (if r.IsDraw() then 1 else 0)
      && m1.engines[0].wins == m.engines[0].wins + (if WinFor(0, m.currentGame, r) then 1 else 0)
      && m1.engines[1].wins == m.engines[1].wins + (if WinFor(1, m.currentGame, r) then 1 else 0)
  {
    GameTally(rules, book, m, r);
  }

  lemma {:induction false} CountsAddUp(k: int, rs: seq<GameResult>)
    ensures CountDraws(rs) + CountWins(0, k, rs) + CountWins(1, k, rs) + CountUndecided(rs) == |rs|
    decreases |rs|
  {
    if rs != [] {
      CountsAddUp(k + 1, rs[1..]);
      OneOutcomePerGame(k, rs[0]);
    }
  }

  // ---------------------------------------------------------------------
  // The match object

  class EngineMatch {
    var engines: seq<EngineData>
    var bookDepth: int
    var gameCount: int
    var drawCount: int
    var currentGame: int
    var pgnGamesRead: int
    var white: Option<nat>
    var black: Option<nat>
    var fen: string
    var openingMoves: seq<Move>
    var repeatOpening: bool
    var pgnOpen: bool
    var pgnFile: seq<Opening>
    var pgnCursor: nat
    var pgnOutput: string
    var book: Option<Position -> Move>

    function State(): MatchState
      reads this
    {
      MatchState(engines, bookDepth, gameCount, drawCount, currentGame, pgnGamesRead, white, black,
                 fen, openingMoves, repeatOpening, pgnOpen, pgnFile, pgnCursor, pgnOutput)
    }

    /** A new match: book depth 30, one game, no engines. */
    constructor ()
      ensures State() == MatchState([], DefaultBookDepth, 1, 0, 0, 0, None, None, "", [], false, false, [], 0, "")
      ensures book.None? && Valid(State())
    {
      engines := [];
      bookDepth := DefaultBookDepth;
      gameCount := 1;
      drawCount := 0;
      currentGame := 0;
      pgnGamesRead := 0;
      white := None;
      black := None;
      fen := "";
      openingMoves := [];
      repeatOpening := false;
      pgnOpen := false;
      pgnFile := [];
      pgnCursor := 0;
      pgnOutput := "";
      book := None;
    }

    method AddEngine(command: string, timeControlValid: bool)
      modifies this`engines
      ensures State() == AddEngineSpec(old(State()), command, timeControlValid)
    {
      if |engines| >= 2 {
        return;
      }
      if command == "" {
        return;
      }
      engines := engines + [EngineData(command, timeControlValid, 0)];
    }

    method SetBookDepth(depth: int)
      modifies this`bookDepth
      ensures State() == SetBookDepthSpec(old(State()), depth)
    {
      if depth <= 0 {
        return;
      }
      bookDepth := depth;
    }

    method SetGameCount(n: int)
      modifies this`gameCount
      ensures gameCount == n
    {
      gameCount := n;
    }

    method SetRepeatOpening(repeat: bool)
      modifies this`repeatOpening
      ensures repeatOpening == repeat
    {
      repeatOpening := repeat;
    }

    method SetPgnOutput(filename: string)
      modifies this`pgnOutput
      ensures pgnOutput == filename
    {
      pgnOutput := filename;
    }

    /** The book file, once loaded, as a move oracle. */
    method SetBook(b: Option<Position -> Move>)
      modifies this`book
      ensures book == b
    {
      book := b;
    }

    /** The PGN input: when the file opens, the openings its games give. */
    method SetPgnInput(isOpen: bool, games: seq<Opening>)
      modifies this`pgnOpen, this`pgnFile, this`pgnCursor
      ensures isOpen ==> State() == old(State()).(pgnOpen := true, pgnFile := games, pgnCursor := 0)
      ensures !isOpen ==> State() == old(State())
    {
      if isOpen {
        pgnOpen := true;
        pgnFile := games;
        pgnCursor := 0;
      }
    }

    /** initialize, with `starts(i)` saying whether engine i's process
        starts. */
    method Initialize(starts: nat -> bool) returns (ok: bool)
      modifies this`currentGame, this`drawCount, this`white, this`black, this`engines
      ensures (State(), ok) == InitializeSpec(old(State()), starts)
    {
      if |engines| < 2 {
        return false;
      }
      var es;
      es, ok := StartEngines(engines, starts);
      Reset(es);
    }

    /** A fresh score: game index and draws zeroed, no colours, and the
        engines as the engine loop left them. */
    method Reset(es: seq<EngineData>)
      modifies this`currentGame, this`drawCount, this`white, this`black, this`engines
      ensures State() == ResetSpec(old(State()), es)
    {
      currentGame, drawCount, white, black, engines := 0, 0, None, None, es;
    }

    /** start: choose colours and the opening for the new game. */
    method Start(rules: Rules) returns (setup: GameSetup)
      requires bookDepth > 0
      modifies this`white, this`black, this`fen, this`openingMoves, this`pgnCursor, this`pgnGamesRead
      ensures (State(), setup) == StartSpec(rules, book, old(State()))
    {
      var w, b := AssignColours();
      var opening := PickOpening(rules);
      if repeatOpening && currentGame % 2 == 0 {
        fen, openingMoves := opening.fen, opening.moves;
      }
      setup := GameSetup(w, b, opening);
    }

    /** The colours of the new game. */
    method AssignColours() returns (w: nat, b: nat)
      modifies this`white, this`black
      ensures (w, b) == Colours(currentGame)
      ensures State() == WithColours(old(State()))
    {
      w, b := 1, 0;
      if currentGame % 2 == 0 {
        w, b := 0, 1;
      }
      white, black := Some(w), Some(b);
    }

    method PickOpening(rules: Rules) returns (opening: Opening)
      requires bookDepth > 0
      modifies this`fen, this`openingMoves, this`pgnCursor, this`pgnGamesRead
      ensures State() == AfterOpening(old(State()), book.Some?)
      ensures opening == OpeningFor(rules, book, old(State()))
    {
      opening := Opening("", []);
      if fen != "" || openingMoves != [] {
        if fen != "" {
          if rules.validFen(fen) {
            opening := opening.(fen := fen);
          }
          fen := "";
        }
        if openingMoves != [] {
          opening := opening.(moves := openingMoves);
          openingMoves := [];
        }
      } else if book.Some? {
        opening := Opening(rules.startingFen,
                           Session.BookLine(rules, book.value, Position(rules.startingFen, []), bookDepth));
      } else if pgnOpen {
        if pgnCursor < |pgnFile| {
          opening := Loaded(pgnFile[pgnCursor], bookDepth);
          pgnCursor := pgnCursor + 1;
          pgnGamesRead := pgnGamesRead + 1;
        } else if pgnGamesRead > 0 {
          pgnCursor := 0;
          if pgnCursor < |pgnFile| {
            opening := Loaded(pgnFile[pgnCursor], bookDepth);
            pgnCursor := pgnCursor + 1;
          }
          pgnGamesRead := pgnGamesRead + 1;
        }
      }
    }

    /** onGameEnded, with the ended game's result. */
    method OnGameEnded(r: GameResult) returns (outcome: GameEndOutcome)
      requires white.Some? && white.value < |engines|
      requires black.Some? && black.value < |engines|
      modifies this`drawCount, this`engines, this`currentGame
      ensures (State(), outcome) == GameEndedSpec(old(State()), r)
    {
      Tally(r);
      var saved := if pgnOutput != "" then Some(currentGame + 1) else None;
      currentGame := currentGame + 1;
      if currentGame < gameCount && !r.IsError() && !r.IsWinByDisconnection() {
        outcome := GameEndOutcome(saved, ScheduleNext);
      } else {
        outcome := GameEndOutcome(saved, Finish);
      }
    }

    /** Counting the ended game's result. */
    method Tally(r: GameResult)
      requires white.Some? && white.value < |engines|
      requires black.Some? && black.value < |engines|
      modifies this`drawCount, this`engines
      ensures State() == TallySpec(old(State()), r)
    {
      if r.IsDraw() {
        drawCount := drawCount + 1;
      } else if r.Decided? && r.winner == Some(White) {
        var w := white.value;
        engines := engines[w := engines[w].(wins := engines[w].wins + 1)];
      } else if r.Decided? && r.winner == Some(Black) {
        var b := black.value;
        engines := engines[b := engines[b].(wins := engines[b].wins + 1)];
      }
    }
  }
}
