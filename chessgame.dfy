/** The game session (chessgame.h, chessgame.cpp): two player slots, the
    board, the in-progress flag, the moves and their comments, and the Qt
    signal plumbing that makes the players take turns.

    Signals and slots become explicit: what the session tells its players
    and what it emits is appended to an event log; a player's `ready()`
    signal is the environment method AgentReady; the connections the
    session makes are state (which players' ready signals are connected to
    syncPlayers, whether playersReady restarts the game, how many queued
    playersReady -> gameEnded connections exist, and how many queued
    gameEnded deliveries are pending).  Every operation is specified by a
    function on a snapshot of that state. */
module Session {
  import opened Chess
  import EvalComment

  /** What the session needs to know about a player.  `readyAfterEnd` is
      whether the player is ready once its own endGame has run: that call
      is the player's code, so its effect on readiness is an input here. */
  datatype Player = Player(name: string, variants: set<string>, timeControl: string, ready: bool,
                           readyAfterEnd: bool)

  /** Calls made on the players and signals the session emits. */
  datatype Event =
    | NewGame(side: Side)
    | BookMoveTo(side: Side, move: Move)
    | MoveTo(side: Side, move: Move)
    | Go(side: Side)
    | EndGameTo(side: Side, result: GameResult)
    | MoveMade(move: Move)
    | PlayersReady
    | GameEnded

  datatype StartOutcome = AwaitingPlayers | VariantUnsupported | Started

  /** A snapshot of the session's state. */
  datatype GameState = GameState(
    board: Position,
    players: Pair<Option<Player>>,
    inProgress: bool,
    result: GameResult,
    moves: seq<Move>,
    comments: seq<string>,
    fen: string,
    playerNames: Pair<string>,
    timeControls: Pair<string>,
    hasTags: bool,
    subs: set<Side>,
    startOnReady: bool,
    gameEndedConnections: nat,
    queued: nat,
    events: seq<Event>)

  /** The default cap of setOpeningBook. */
  const DefaultBookMoves := 1000

  function IsReady(p: Option<Player>): bool {
    p.Some? && p.value.ready
  }

  /** A player after being told the game is over. */
  function AfterEndGame(p: Option<Player>): Option<Player> {
    if p.Some? then Some(p.value.(ready := p.value.readyAfterEnd)) else p
  }

  function Readiness(g: GameState): Pair<bool> {
    Pair(IsReady(g.players.white), IsReady(g.players.black))
  }

  predicate BothSeated(g: GameState) {
    g.players.white.Some? && g.players.black.Some?
  }

  /** The FEN setBoard uses: the stored one, or the variant's start. */
  function EffectiveFen(rules: Rules, fen: string): string {
    if fen == "" then rules.startingFen else fen
  }

  /** What every reachable state satisfies: the FEN setBoard would use is
      valid (so its fatal error cannot happen), start is never connected
      to playersReady while a game runs, and a running game has both
      players. */
  predicate Valid(rules: Rules, g: GameState) {
    && rules.validFen(rules.startingFen)
    && rules.validFen(EffectiveFen(rules, g.fen))
    && (g.inProgress ==> !g.startOnReady && BothSeated(g))
  }

  // ---------------------------------------------------------------------
  // The readiness barrier

  function Unready(r: Pair<bool>): (u: set<Side>)
    ensures forall s :: s in u <==> !r.At(s)
    ensures u == {} <==> r.white && r.black
  {
    var u := (if r.white then {} else {White}) + (if r.black then {} else {Black});
    assert !r.white ==> White in u;
    assert !r.black ==> Black in u;
    u
  }

  /** syncPlayers: the new subscriptions and whether playersReady is
      emitted.  With `ignoreSender` a sender is unsubscribed and the call
      proceeds as if there were none.  Without a sender every unready
      player is subscribed; with one, only the sender is unsubscribed. */
  function Sync(ready: Pair<bool>, subs: set<Side>, sender: Option<Side>, ignoreSender: bool): (set<Side>, bool) {
    var subs1 := if ignoreSender && sender.Some? then subs - {sender.value} else subs;
    var snd := if ignoreSender then None else sender;
    if snd.None? then (subs1 + Unready(ready), Unready(ready) == {})
    else (subs1 - {snd.value}, Unready(ready) == {})
  }

  /** playersReady is emitted exactly when both players are ready; a
      generic call leaves every unready player subscribed, a sender call
      leaves the sender unsubscribed. */
  lemma SyncFiresIffReady(ready: Pair<bool>, subs: set<Side>, sender: Option<Side>, ignoreSender: bool)
    ensures var (subs', fired) := Sync(ready, subs, sender, ignoreSender);
      (fired <==> ready.white && ready.black) &&
      (ignoreSender || sender.None? ==> Unready(ready) <= subs') &&
      (sender.Some? && !ignoreSender ==> sender.value !in subs') &&
      subs' <= subs + Unready(ready)
  {
  }

  /** A player's ready() signal: the player is ready, and if its signal is
      connected, syncPlayers runs with it as sender. */
  function Deliver(ready: Pair<bool>, subs: set<Side>, side: Side): (Pair<bool>, set<Side>, bool) {
    var r := ready.With(side, true);
    if side in subs then
      var (subs', fired) := Sync(r, subs, Some(side), false);
      (r, subs', fired)
    else (r, subs, false)
  }

  /** How many times playersReady is emitted while the sides in `ds`
      become ready one after another. */
  function FiresDuring(ready: Pair<bool>, subs: set<Side>, ds: seq<Side>): nat
    decreases |ds|
  {
    if ds == [] then 0
    else
      var (r, subs', fired) := Deliver(ready, subs, ds[0]);
      (if fired then 1 else 0) + FiresDuring(r, subs', ds[1..])
  }

  /** The barrier: after a generic syncPlayers (as start and endGame make
      it), whatever order the players then report ready in, playersReady is
      emitted exactly once if every player that was unready reports, and
      never otherwise. */
  lemma BarrierFiresOnce(ready: Pair<bool>, subs: set<Side>, ds: seq<Side>)
    requires subs <= Unready(ready)
    ensures var (subs1, fired) := Sync(ready, subs, None, true);
      (if fired then 1 else 0) + FiresDuring(ready, subs1, ds) ==
        if forall s :: s in Unready(ready) ==> s in ds then 1 else 0
  {
    var (subs1, fired) := Sync(ready, subs, None, true);
    assert subs1 == Unready(ready);
    if fired {
      NoFiresWhenAllReady(ready, ds);
    } else {
      BarrierInduction(ready, ds);
    }
  }

  lemma {:induction false} NoFiresWhenAllReady(ready: Pair<bool>, ds: seq<Side>)
    requires Unready(ready) == {}
    ensures FiresDuring(ready, {}, ds) == 0
  {
    if ds != [] {
      var r := ready.With(ds[0], true);
      assert Unready(r) == {};
      NoFiresWhenAllReady(r, ds[1..]);
    }
  }

  lemma {:induction false} BarrierInduction(ready: Pair<bool>, ds: seq<Side>)
    requires Unready(ready) != {}
    ensures FiresDuring(ready, Unready(ready), ds) ==
      if forall s :: s in Unready(ready) ==> s in ds then 1 else 0
    decreases |ds|
  {
    var u := Unready(ready);
    if ds == [] {
      var s :| s in u;
    } else {
      var d := ds[0];
      var (r, subs', fired) := Deliver(ready, u, d);
      assert forall s :: s in ds <==> s == d || s in ds[1..];
      if d in u {
        assert Unready(r) == u - {d};
        assert subs' == Unready(r);
        if fired {
          NoFiresWhenAllReady(r, ds[1..]);
        } else {
          BarrierInduction(r, ds[1..]);
        }
      } else {
        assert r == ready;
        BarrierInduction(r, ds[1..]);
      }
    }
  }

  // ---------------------------------------------------------------------
  // Specification of each operation

  function SyncSpec(g: GameState, sender: Option<Side>, ignoreSender: bool): (GameState, bool) {
    var (subs, fired) := Sync(Readiness(g), g.subs, sender, ignoreSender);
    (g.(subs := subs), fired)
  }

  /** Emitting playersReady while start is not connected to it: one
      gameEnded is queued per playersReady -> gameEnded connection. */
  function EmitQueued(g: GameState): GameState {
    g.(events := g.events + [PlayersReady], queued := g.queued + g.gameEndedConnections)
  }

  /** endGame, in the context of a slot whose sender is `sender`. */
  function EndGameSpec(g: GameState, sender: Option<Side>): GameState
    requires g.inProgress ==> !g.startOnReady
  {
    if !g.inProgress then g
    else
      var (g2, fired) := SyncSpec(MarkEndedSpec(g), sender, true);
      if fired then EmitQueued(g2) else g2
  }

  /** The first part of endGame: the game stops, both players hear the
      result (and are as ready as their endGame leaves them), and one more
      playersReady -> gameEnded connection is made. */
  function MarkEndedSpec(g: GameState): GameState {
    g.(inProgress := false,
       players := Pair(AfterEndGame(g.players.white), AfterEndGame(g.players.black)),
       events := g.events + [EndGameTo(White, g.result), EndGameTo(Black, g.result)],
       gameEndedConnections := g.gameEndedConnections + 1)
  }

  function Supports(players: Pair<Option<Player>>, variant: string): bool
    requires players.white.Some? && players.black.Some?
  {
    variant in players.white.value.variants && variant in players.black.value.variants
  }

  function Books(n: nat): (cs: seq<string>)
    ensures |cs| == n && forall i :: 0 <= i < n ==> cs[i] == "book"
  {
    seq(n, _ => "book")
  }

  /** What the replay of the forced opening moves tells the players and
      emits, move by move, from position p0. */
  function ReplayEvents(rules: Rules, p0: Position, ms: seq<Move>): seq<Event> {
    if ms == [] then []
    else
      var init := ms[..|ms| - 1];
      var m := ms[|ms| - 1];
      var side := SideToMove(rules, Position(p0.fen, p0.played + init));
      ReplayEvents(rules, p0, init) + [BookMoveTo(side, m), MoveTo(side.Opposite(), m), MoveMade(m)]
  }

  /** The part of start that runs once both players are ready. */
  function BeginSpec(rules: Rules, variant: string, g: GameState): (GameState, StartOutcome)
    requires BothSeated(g)
  {
    var g1 := g.(startOnReady := false, inProgress := true);
    if !Supports(g.players, variant) then
      (EndGameSpec(g1.(result := Decided(ResultError, None, "")), None), VariantUnsupported)
    else (LaunchSpec(rules, g1), Started)
  }

  /** Setting up the board, telling the players and replaying the forced
      opening moves. */
  function LaunchSpec(rules: Rules, g: GameState): GameState
    requires BothSeated(g)
  {
    GoSpec(rules, ReplaySpec(rules, NewGameSpec(SetBoardSpec(rules, g))))
  }

  /** The players' names and time controls are recorded and each player
      is told a new game begins. */
  function NewGameSpec(g: GameState): GameState
    requires BothSeated(g)
  {
    var w := g.players.white.value;
    var b := g.players.black.value;
    g.(playerNames := Pair(w.name, b.name),
       timeControls := Pair(w.timeControl, b.timeControl),
       hasTags := true,
       events := g.events + [NewGame(White), NewGame(Black)])
  }

  /** The forced opening moves are played from the starting position, each
      as a book move with its comment. */
  function ReplaySpec(rules: Rules, g: GameState): GameState {
    g.(board := Position(g.fen, g.moves),
       comments := g.comments + Books(|g.moves|),
       events := g.events + ReplayEvents(rules, Position(g.fen, []), g.moves))
  }

  /** start: reset the result; wait for the players, or begin. */
  function StartSpec(rules: Rules, variant: string, g: GameState): (GameState, StartOutcome)
    requires BothSeated(g)
  {
    var g0 := g.(result := NoneResult);
    if Unready(Readiness(g0)) != {} then
      (SyncSpec(g0.(startOnReady := true), None, true).0, AwaitingPlayers)
    else BeginSpec(rules, variant, g0)
  }

  /** onMoveMade from the player on side `sender`. */
  function MoveSpec(rules: Rules, g: GameState, sender: Side, move: Move, eval: MoveEvaluation): GameState
    requires g.inProgress ==> !g.startOnReady
  {
    if sender != SideToMove(rules, g.board) then g
    else
      var g1 := RecordSpec(rules, g, sender, move, EvalComment.Comment(eval));
      var g2 := if g1.result.IsNone() then GoSpec(rules, g1) else EndGameSpec(g1, Some(sender));
      AnnounceSpec(g2, move)
  }

  /** An accepted move: its comment, the move itself, the move sent to the
      waiting player, the board after it and the board's result. */
  function RecordSpec(rules: Rules, g: GameState, sender: Side, move: Move, comment: string): GameState {
    PlaySpec(rules, LogSpec(g, sender, move, comment), move)
  }

  /** The comment and the move are recorded and the move is sent to the
      waiting player. */
  function LogSpec(g: GameState, sender: Side, move: Move, comment: string): GameState {
    g.(comments := g.comments + [comment],
       moves := g.moves + [move],
       events := g.events + [MoveTo(sender.Opposite(), move)])
  }

  /** The move is made on the board, and the board's result taken. */
  function PlaySpec(rules: Rules, g: GameState, move: Move): GameState {
    var board := Position(g.board.fen, g.board.played + [move]);
    g.(board := board, result := rules.result(board))
  }

  /** The player to move is told to go. */
  function GoSpec(rules: Rules, g: GameState): GameState {
    g.(events := g.events + [Go(SideToMove(rules, g.board))])
  }

  /** moveMade is emitted. */
  function AnnounceSpec(g: GameState, move: Move): GameState {
    g.(events := g.events + [MoveMade(move)])
  }

  function ForfeitSpec(g: GameState, sender: Option<Side>, r: GameResult): GameState
    requires g.inProgress ==> !g.startOnReady
  {
    if !g.inProgress then g else EndGameSpec(g.(result := r), sender)
  }

  /** The player on `side` becomes ready or busy. */
  function ReadySpec(g: GameState, side: Side, ready: bool): GameState
    requires g.players.At(side).Some?
  {
    g.(players := g.players.With(side, Some(g.players.At(side).value.(ready := ready))))
  }

  /** The player on `side` emits ready(); a playersReady it causes runs
      start if start is waiting for it. */
  function AgentReadySpec(rules: Rules, variant: string, g: GameState, side: Side): GameState
    requires g.players.At(side).Some?
    requires BothSeated(g)
  {
    var g1 := ReadySpec(g, side, true);
    if side !in g.subs then g1
    else
      var (g2, fired) := SyncSpec(g1, Some(side), false);
      if !fired then g2
      else
        var g3 := EmitQueued(g2);
        if g3.startOnReady then BeginSpec(rules, variant, g3).0 else g3
  }

  function SetBoardSpec(rules: Rules, g: GameState): GameState {
    var fen := EffectiveFen(rules, g.fen);
    g.(fen := fen, board := Position(fen, []))
  }

  function SetFenSpec(rules: Rules, g: GameState, fen: string): (GameState, bool) {
    if !rules.validFen(fen) then (g, false)
    else (g.(board := Position(fen, []), fen := fen), true)
  }

  /** The opening line a book gives from p: at most n moves, each legal and
      not a repetition, ending at the first book move that is not. */
  function BookLine(rules: Rules, book: Position -> Move, p: Position, n: int): seq<Move>
    decreases if n < 0 then 0 else n
  {
    if n <= 0 then []
    else
      var m := book(p);
      if !rules.isLegal(p, m) || rules.isRepeat(p, m) then []
      else [m] + BookLine(rules, book, Position(p.fen, p.played + [m]), n - 1)
  }

  function SetOpeningBookSpec(rules: Rules, g: GameState, book: Position -> Move, maxMoves: int): GameState {
    var g1 := SetBoardSpec(rules, g);
    var line := BookLine(rules, book, g1.board, maxMoves);
    g1.(moves := line, board := Position(g1.fen, line))
  }

  // ---------------------------------------------------------------------
  // Properties of the operations

  /** Every operation keeps the session valid. */
  lemma EndGameKeepsValid(rules: Rules, g: GameState, sender: Option<Side>, r: GameResult)
    requires Valid(rules, g)
    ensures Valid(rules, EndGameSpec(g, sender))
    ensures Valid(rules, ForfeitSpec(g, sender, r))
  {
  }

  lemma MoveKeepsValid(rules: Rules, g: GameState, side: Side, move: Move, eval: MoveEvaluation)
    requires Valid(rules, g)
    ensures Valid(rules, MoveSpec(rules, g, side, move, eval))
  {
    var g1 := RecordSpec(rules, g, side, move, EvalComment.Comment(eval));
    if side == SideToMove(rules, g.board) && !g1.result.IsNone() {
      EndGameKeepsValid(rules, g1, Some(side), g1.result);
    }
  }

  lemma BoardSetupKeepsValid(rules: Rules, g: GameState, fen: string, book: Position -> Move, n: int)
    requires Valid(rules, g)
    ensures Valid(rules, SetFenSpec(rules, g, fen).0)
    ensures Valid(rules, SetOpeningBookSpec(rules, g, book, n))
  {
  }

  lemma StartKeepsValid(rules: Rules, variant: string, g: GameState)
    requires Valid(rules, g) && BothSeated(g) && !g.inProgress
    ensures Valid(rules, StartSpec(rules, variant, g).0)
  {
    var g0 := g.(result := NoneResult);
    if Unready(Readiness(g0)) == {} {
      BeginKeepsValid(rules, variant, g0);
    }
  }

  lemma AgentReadyKeepsValid(rules: Rules, variant: string, g: GameState, side: Side)
    requires Valid(rules, g) && BothSeated(g)
    ensures Valid(rules, AgentReadySpec(rules, variant, g, side))
  {
    var g1 := ReadySpec(g, side, true);
    if side in g.subs {
      var (g2, fired) := SyncSpec(g1, Some(side), false);
      if fired && EmitQueued(g2).startOnReady {
        BeginKeepsValid(rules, variant, EmitQueued(g2));
      }
    }
  }

  /** The game begun is in progress with both players seated, or has
      already ended on an unsupported variant. */
  lemma BeginKeepsValid(rules: Rules, variant: string, g: GameState)
    requires Valid(rules, g) && BothSeated(g)
    ensures Valid(rules, BeginSpec(rules, variant, g).0)
  {
  }

  /** endGame does nothing unless a game is in progress; otherwise it
      clears the flag, tells each player the result once, adds one queued
      playersReady -> gameEnded connection, and emits playersReady (queueing
      gameEnded) exactly when both players are ready after their own
      endGame has run. */
  lemma EndGameOnce(g: GameState, sender: Option<Side>)
    requires g.inProgress ==> !g.startOnReady
    ensures !g.inProgress ==> EndGameSpec(g, sender) == g
    ensures var g' := EndGameSpec(g, sender);
      g.inProgress ==>
        && !g'.inProgress
        && g'.result == g.result && g'.moves == g.moves && g'.board == g.board
        && g'.gameEndedConnections == g.gameEndedConnections + 1
        && g'.players == Pair(AfterEndGame(g.players.white), AfterEndGame(g.players.black))
        && (var fired := IsReady(AfterEndGame(g.players.white)) && IsReady(AfterEndGame(g.players.black));
            && g'.events == g.events + [EndGameTo(White, g.result), EndGameTo(Black, g.result)]
                            + (if fired then [PlayersReady] else [])
            && g'.queued == g.queued + (if fired then g.gameEndedConnections + 1 else 0))
  {
  }

  /** start resets the result; with a player not ready it only connects
      itself to playersReady and subscribes the unready players, and the
      game is not in progress. */
  lemma StartWaitsForPlayers(rules: Rules, variant: string, g: GameState)
    requires BothSeated(g) && !g.inProgress
    requires !(Readiness(g).white && Readiness(g).black)
    ensures var (g', outcome) := StartSpec(rules, variant, g);
      && outcome == AwaitingPlayers
      && g'.result == NoneResult && !g'.inProgress && g'.startOnReady
      && Unready(Readiness(g)) <= g'.subs
      && g'.events == g.events && g'.moves == g.moves && g'.board == g.board
  {
  }

  /** With both players ready but one lacking the variant, the result is an
      error and the game ends before the board is set or either player
      hears of a new game. */
  lemma StartRejectsUnsupportedVariant(rules: Rules, variant: string, g: GameState)
    requires BothSeated(g) && !g.inProgress
    requires Readiness(g).white && Readiness(g).black
    requires !Supports(g.players, variant)
    ensures var (g', outcome) := StartSpec(rules, variant, g);
      && outcome == VariantUnsupported
      && g'.result == Decided(ResultError, None, "") && !g'.inProgress
      && g'.board == g.board && g'.fen == g.fen && g'.comments == g.comments
      && g'.events == g.events + [EndGameTo(White, g'.result), EndGameTo(Black, g'.result)]
           + (if g.players.white.value.readyAfterEnd && g.players.black.value.readyAfterEnd then [PlayersReady] else [])
      && forall i :: 0 <= i < |g'.events| && g'.events[i].NewGame? ==> i < |g.events|
  {
  }

  /** A started game: in progress, the board set up from the FEN with the
      forced moves played, one "book" comment per forced move, and the
      player to move told to go. */
  lemma StartPlaysOpening(rules: Rules, variant: string, g: GameState)
    requires BothSeated(g) && !g.inProgress
    requires Readiness(g).white && Readiness(g).black
    requires Supports(g.players, variant)
    ensures var (g', outcome) := StartSpec(rules, variant, g);
      && outcome == Started && g'.inProgress && !g'.startOnReady
      && g'.result == NoneResult
      && g'.board == Position(EffectiveFen(rules, g.fen), g.moves)
      && g'.comments == g.comments + Books(|g.moves|)
      && g'.events[|g'.events| - 1] == Go(SideToMove(rules, g'.board))
  {
  }

  /** Each forced move is sent as a book move to the player to move and as
      a move to the other player, then announced, in order. */
  lemma {:induction false} ReplayShape(rules: Rules, p0: Position, ms: seq<Move>)
    ensures |ReplayEvents(rules, p0, ms)| == 3 * |ms|
    ensures forall i :: 0 <= i < |ms| ==>
      var side := SideToMove(rules, Position(p0.fen, p0.played + ms[..i]));
      ReplayEvents(rules, p0, ms)[3 * i..3 * i + 3] ==
        [BookMoveTo(side, ms[i]), MoveTo(side.Opposite(), ms[i]), MoveMade(ms[i])]
  {
    if ms != [] {
      var init := ms[..|ms| - 1];
      ReplayShape(rules, p0, init);
      var es := ReplayEvents(rules, p0, ms);
      var ei := ReplayEvents(rules, p0, init);
      forall i | 0 <= i < |ms|
        ensures var side := SideToMove(rules, Position(p0.fen, p0.played + ms[..i]));
          es[3 * i..3 * i + 3] == [BookMoveTo(side, ms[i]), MoveTo(side.Opposite(), ms[i]), MoveMade(ms[i])]
      {
        if i < |init| {
          assert ms[..i] == init[..i];
          assert es[3 * i..3 * i + 3] == ei[3 * i..3 * i + 3];
        } else {
          assert ms[..i] == init;
        }
      }
    }
  }

  /** One more forced move extends the replay by its three events. */
  lemma ReplayStep(rules: Rules, p0: Position, ms: seq<Move>, i: nat)
    requires i < |ms| && p0.played == []
    ensures ReplayEvents(rules, p0, ms[..i + 1]) ==
      ReplayEvents(rules, p0, ms[..i])
        + [BookMoveTo(SideToMove(rules, Position(p0.fen, ms[..i])), ms[i]),
           MoveTo(SideToMove(rules, Position(p0.fen, ms[..i])).Opposite(), ms[i]),
           MoveMade(ms[i])]
  {
    assert ms[..i + 1][..i] == ms[..i];
    assert p0.played + ms[..i] == ms[..i];
  }

  /** A move from the player not on turn changes nothing. */
  lemma MoveFromWaiterDiscarded(rules: Rules, g: GameState, sender: Side, move: Move, eval: MoveEvaluation)
    requires g.inProgress ==> !g.startOnReady
    requires sender != SideToMove(rules, g.board)
    ensures MoveSpec(rules, g, sender, move, eval) == g
  {
  }

  /** An accepted move appends exactly one move and one comment (the
      evaluation comment), plays the move, adopts the board's result, and
      then either tells the opponent to go or ends the game; moveMade is
      emitted last. */
  lemma MoveAccepted(rules: Rules, g: GameState, sender: Side, move: Move, eval: MoveEvaluation)
    requires g.inProgress && !g.startOnReady
    requires sender == SideToMove(rules, g.board)
    ensures var g' := MoveSpec(rules, g, sender, move, eval);
      var board := Position(g.board.fen, g.board.played + [move]);
      && g'.moves == g.moves + [move]
      && g'.comments == g.comments + [EvalComment.Comment(eval)]
      && g'.board == board
      && g'.result == rules.result(board)
      && g'.events[|g.events|] == MoveTo(sender.Opposite(), move)
      && g'.events[|g'.events| - 1] == MoveMade(move)
      && (rules.result(board).IsNone() ==>
            g'.inProgress && g'.events == g.events + [MoveTo(sender.Opposite(), move), Go(sender.Opposite()), MoveMade(move)])
      && (!rules.result(board).IsNone() ==> !g'.inProgress)
  {
    SideToMoveAfter(rules, g.board, move);
  }

  /** onForfeit does nothing outside a game; in one it adopts the result
      and ends the game. */
  lemma ForfeitEnds(g: GameState, sender: Option<Side>, r: GameResult)
    requires g.inProgress ==> !g.startOnReady
    ensures !g.inProgress ==> ForfeitSpec(g, sender, r) == g
    ensures g.inProgress ==> !ForfeitSpec(g, sender, r).inProgress && ForfeitSpec(g, sender, r).result == r
  {
  }

  /** setFenString fails on an invalid FEN and then changes nothing. */
  lemma SetFenKeepsOnFailure(rules: Rules, g: GameState, fen: string)
    ensures var (g', ok) := SetFenSpec(rules, g, fen);
      (ok <==> rules.validFen(fen)) &&
      (!ok ==> g' == g) &&
      (ok ==> g'.fen == fen && g'.board == Position(fen, []))
  {
  }

  /** The book line: no longer than the cap, each move the book's choice,
      legal and not a repetition at its position, and when shorter than
      the cap, the book's next move is illegal or a repetition. */
  lemma {:induction false} BookLineSound(rules: Rules, book: Position -> Move, p: Position, n: int)
    ensures var line := BookLine(rules, book, p, n);
      && |line| <= (if n < 0 then 0 else n)
      && (forall i :: 0 <= i < |line| ==>
            var q := Position(p.fen, p.played + line[..i]);
            line[i] == book(q) && rules.isLegal(q, line[i]) && !rules.isRepeat(q, line[i]))
      && (|line| < n ==>
            var q := Position(p.fen, p.played + line);
            !rules.isLegal(q, book(q)) || rules.isRepeat(q, book(q)))
    decreases if n < 0 then 0 else n
  {
    assert p.played + [] == p.played;
    if n > 0 {
      var m := book(p);
      if rules.isLegal(p, m) && !rules.isRepeat(p, m) {
        var p1 := Position(p.fen, p.played + [m]);
        BookLineSound(rules, book, p1, n - 1);
        var line := BookLine(rules, book, p, n);
        var rest := BookLine(rules, book, p1, n - 1);
        assert line == [m] + rest;
        forall i | 0 <= i < |line|
          ensures var q := Position(p.fen, p.played + line[..i]);
            line[i] == book(q) && rules.isLegal(q, line[i]) && !rules.isRepeat(q, line[i])
        {
          if i == 0 {
            assert p.played + line[..0] == p.played;
          } else {
            assert p.played + line[..i] == p1.played + rest[..i - 1];
          }
        }
        assert p.played + line == p1.played + rest;
      }
    }
  }

  /** The replay loop of start: each forced move is sent to the player to
      move as a book move and to the other player as a move, played on the
      board and announced, with a "book" comment. */
  method ReplayMoves(rules: Rules, fen: string, ms: seq<Move>) returns (pos: Position, evs: seq<Event>, cs: seq<string>)
    ensures pos == Position(fen, ms)
    ensures evs == ReplayEvents(rules, Position(fen, []), ms)
    ensures cs == Books(|ms|)
  {
    pos, evs, cs := Position(fen, []), [], [];
    for i := 0 to |ms|
      invariant pos == Position(fen, ms[..i])
      invariant evs == ReplayEvents(rules, Position(fen, []), ms[..i])
      invariant cs == Books(i)
    {
      var m := ms[i];
      var mover := SideToMove(rules, pos);
      ReplayStep(rules, Position(fen, []), ms, i);
      assert Books(i + 1) == Books(i) + ["book"];
      evs := evs + [BookMoveTo(mover, m), MoveTo(mover.Opposite(), m), MoveMade(m)];
      pos := Position(pos.fen, pos.played + [m]);
      cs := cs + ["book"];
    }
    assert ms[..|ms|] == ms;
  }

  // ---------------------------------------------------------------------
  // The session object

  class ChessGame {
    const rules: Rules
    const variant: string
    var board: Position
    var players: Pair<Option<Player>>
    var gameInProgress: bool
    var result: GameResult
    var moves: seq<Move>
    var comments: seq<string>
    var fen: string
    var playerNames: Pair<string>
    var timeControls: Pair<string>
    var hasTags: bool
    var readySubscriptions: set<Side>
    var startOnReady: bool
    var gameEndedConnections: nat
    var queuedGameEnded: nat
    var events: seq<Event>

    function State(): GameState
      reads this
    {
      GameState(board, players, gameInProgress, result, moves, comments, fen, playerNames,
                timeControls, hasTags, readySubscriptions, startOnReady, gameEndedConnections,
                queuedGameEnded, events)
    }

    /** A new session: two empty player slots and no game in progress.  The
        variant's starting FEN must be one the board accepts. */
    constructor (rules: Rules, variant: string)
      requires rules.validFen(rules.startingFen)
      ensures this.rules == rules && this.variant == variant
      ensures State() == GameState(Position(rules.startingFen, []), Pair(None, None), false, NoneResult,
                                   [], [], "", Pair("", ""), Pair("", ""), false, {}, false, 0, 0, [])
      ensures Valid(rules, State())
    {
      this.rules := rules;
      this.variant := variant;
      board := Position(rules.startingFen, []);
      players := Pair(None, None);
      gameInProgress := false;
      result := NoneResult;
      moves := [];
      comments := [];
      fen := "";
      playerNames := Pair("", "");
      timeControls := Pair("", "");
      hasTags := false;
      readySubscriptions := {};
      startOnReady := false;
      gameEndedConnections := 0;
      queuedGameEnded := 0;
      events := [];
    }

    function PlayerOf(side: Side): (p: Option<Player>)
      reads this
      ensures p == players.At(side)
    {
      players.At(side)
    }

    /** The player to move is the one who waits once it has moved. */
    function PlayerToMove(): (p: Option<Player>)
      reads this
      ensures forall m :: p == players.At(SideToMove(rules, Position(board.fen, board.played + [m])).Opposite())
    {
      players.At(SideToMove(rules, board))
    }

    /** The waiting player is the one to move once a move is made. */
    function PlayerToWait(): (p: Option<Player>)
      reads this
      ensures forall m :: p == players.At(SideToMove(rules, Position(board.fen, board.played + [m])))
    {
      players.At(SideToMove(rules, board).Opposite())
    }

    function ArePlayersReady(): (b: bool)
      reads this
      requires players.white.Some? && players.black.Some?
      ensures b <==> Unready(Readiness(State())) == {}
    {
      players.white.value.ready && players.black.value.ready
    }

    method SetPlayer(side: Side, player: Player)
      modifies this
      ensures State() == old(State()).(players := old(players).With(side, Some(player)))
    {
      players := players.With(side, Some(player));
    }

    method SyncPlayers(sender: Option<Side>, ignoreSender: bool := false) returns (fired: bool)
      modifies this`readySubscriptions
      ensures (State(), fired) == SyncSpec(old(State()), sender, ignoreSender)
    {
      ghost var g := State();
      var r := Readiness(g);
      var snd := sender;
      var subs := readySubscriptions;
      if ignoreSender && snd.Some? {
        subs := subs - {snd.value};
        snd := None;
      }
      if snd.None? {
        var ready := true;
        ghost var subs0 := subs;
        for i := 0 to 2
          invariant ready == ((i < 1 || r.white) && (i < 2 || r.black))
          invariant subs ==
            subs0 + (if i >= 1 && !r.white then {White} else {}) + (if i >= 2 && !r.black then {Black} else {})
        {
          var s := if i == 0 then White else Black;
          if !IsReady(players.At(s)) {
            ready := false;
            subs := subs + {s};
          }
        }
        fired := ready;
        assert subs == subs0 + Unready(r);
      } else {
        subs := subs - {snd.value};
        fired := IsReady(players.white) && IsReady(players.black);
      }
      assert (subs, fired) == Sync(r, g.subs, sender, ignoreSender);
      readySubscriptions := subs;
    }

    /** endGame, called from a slot whose sender is `sender`. */
    method EndGame(sender: Option<Side>)
      requires Valid(rules, State())
      modifies this`gameInProgress, this`players, this`events, this`gameEndedConnections, this`readySubscriptions, this`queuedGameEnded
      ensures State() == EndGameSpec(old(State()), sender)
      ensures Valid(rules, State())
    {
      if !gameInProgress {
        return;
      }
      MarkEnded();
      var fired := SyncPlayers(sender, true);
      if fired {
        // start is not connected to playersReady while a game runs
        EmitPlayersReady();
      }
    }

    /** The first part of endGame, before the barrier is armed. */
    method MarkEnded()
      modifies this`gameInProgress, this`players, this`events, this`gameEndedConnections
      ensures State() == MarkEndedSpec(old(State()))
    {
      gameInProgress := false;
      players := Pair(AfterEndGame(players.white), AfterEndGame(players.black));
      events := events + [EndGameTo(White, result), EndGameTo(Black, result)];
      gameEndedConnections := gameEndedConnections + 1;
    }

    /** playersReady is emitted while start is not connected to it: each
        playersReady -> gameEnded connection queues one gameEnded. */
    method EmitPlayersReady()
      modifies this`events, this`queuedGameEnded
      ensures State() == EmitQueued(old(State()))
    {
      events := events + [PlayersReady];
      queuedGameEnded := queuedGameEnded + gameEndedConnections;
    }

    method SetBoard()
      requires Valid(rules, State())
      modifies this
      ensures State() == SetBoardSpec(rules, old(State()))
      ensures Valid(rules, State())
    {
      if fen == "" {
        fen := rules.startingFen;
      }
      // the FEN is valid, so the board accepts it
      board := Position(fen, []);
    }

    /** Whether both players support the session's variant, asked of
        White first. */
    method PlayersSupportVariant() returns (b: bool)
      requires BothSeated(State())
      ensures b == Supports(players, variant)
    {
      for i := 0 to 2
        invariant i >= 1 ==> variant in players.white.value.variants
        invariant i >= 2 ==> variant in players.black.value.variants
      {
        var p := players.At(if i == 0 then White else Black).value;
        if variant !in p.variants {
          return false;
        }
      }
      b := true;
    }

    /** The part of start that runs with both players ready. */
    method Begin() returns (outcome: StartOutcome)
      requires Valid(rules, State()) && BothSeated(State())
      modifies this
      ensures (State(), outcome) == BeginSpec(rules, variant, old(State()))
      ensures Valid(rules, State())
    {
      startOnReady := false;
      gameInProgress := true;
      var supported := PlayersSupportVariant();
      if !supported {
        result := Decided(ResultError, None, "");
        EndGame(None);
        return VariantUnsupported;
      }
      Launch();
      outcome := Started;
    }

    method Launch()
      requires Valid(rules, State()) && BothSeated(State())
      modifies this
      ensures State() == LaunchSpec(rules, old(State()))
    {
      SetBoard();
      NewGameForPlayers();
      ReplayOpening();
      TellToGo();
    }

    /** Records the players' names and time controls and tells each
        player a new game begins. */
    method NewGameForPlayers()
      requires BothSeated(State())
      modifies this`playerNames, this`timeControls, this`events, this`hasTags
      ensures State() == NewGameSpec(old(State()))
    {
      var w := players.white.value;
      var b := players.black.value;
      playerNames := Pair(w.name, b.name);
      timeControls := Pair(w.timeControl, b.timeControl);
      events := events + [NewGame(White), NewGame(Black)];
      hasTags := true;
    }

    /** Plays the forced opening moves on a freshly set board. */
    method ReplayOpening()
      modifies this`board, this`events, this`comments
      ensures State() == ReplaySpec(rules, old(State()))
    {
      var pos, evs, cs := ReplayMoves(rules, fen, moves);
      board, events, comments := pos, events + evs, comments + cs;
    }

    /** start: called directly, not from a player's signal. */
    method Start() returns (outcome: StartOutcome)
      requires Valid(rules, State()) && BothSeated(State()) && !gameInProgress
      modifies this
      ensures (State(), outcome) == StartSpec(rules, variant, old(State()))
      ensures Valid(rules, State())
    {
      result := NoneResult;
      if !(IsReady(players.white) && IsReady(players.black)) {
        startOnReady := true;
        var fired := SyncPlayers(None, true);
        return AwaitingPlayers;
      }
      outcome := Begin();
    }

    /** onMoveMade: the player on `sender` made `move`, reporting `eval`.
        The move is legal and a game is running, as the source asserts. */
    method OnMoveMade(sender: Side, move: Move, eval: MoveEvaluation)
      requires Valid(rules, State()) && gameInProgress
      requires rules.isLegal(board, move)
      modifies this`gameInProgress, this`players, this`events, this`gameEndedConnections, this`readySubscriptions, this`queuedGameEnded,
               this`comments, this`moves, this`board, this`result
      ensures State() == MoveSpec(rules, old(State()), sender, move, eval)
      ensures Valid(rules, State())
    {
      if sender != SideToMove(rules, board) {
        return;
      }
      var comment := EvalComment.Comment(eval);
      RecordMove(sender, move, comment);
      if result.IsNone() {
        TellToGo();
      } else {
        EndGame(Some(sender));
      }
      AnnounceMove(move);
    }

    /** The player to move is told to go. */
    method TellToGo()
      modifies this`events
      ensures State() == GoSpec(rules, old(State()))
    {
      events := events + [Go(SideToMove(rules, board))];
    }

    /** moveMade is emitted. */
    method AnnounceMove(move: Move)
      modifies this`events
      ensures State() == AnnounceSpec(old(State()), move)
    {
      events := events + [MoveMade(move)];
    }

    /** The accepted move: its comment, the move itself, the move sent to
        the waiting player, the board and its result. */
    method RecordMove(sender: Side, move: Move, comment: string)
      modifies this`comments, this`moves, this`events, this`board, this`result
      ensures State() == RecordSpec(rules, old(State()), sender, move, comment)
    {
      comments, moves, events := comments + [comment], moves + [move], events + [MoveTo(sender.Opposite(), move)];
      MakeMove(move);
    }

    /** The move made on the board, and the board's result taken. */
    method MakeMove(move: Move)
      modifies this`board, this`result
      ensures State() == PlaySpec(rules, old(State()), move)
    {
      var b := Position(board.fen, board.played + [move]);
      board, result := b, rules.result(b);
    }

    method OnForfeit(sender: Option<Side>, r: GameResult)
      requires Valid(rules, State())
      modifies this`gameInProgress, this`players, this`events, this`gameEndedConnections, this`readySubscriptions, this`queuedGameEnded,
               this`result
      ensures State() == ForfeitSpec(old(State()), sender, r)
      ensures Valid(rules, State())
    {
      if !gameInProgress {
        return;
      }
      result := r;
      EndGame(sender);
    }

    /** The player on `side` becomes ready and emits ready(). */
    method AgentReady(side: Side)
      requires Valid(rules, State()) && BothSeated(State())
      modifies this
      ensures State() == AgentReadySpec(rules, variant, old(State()), side)
      ensures Valid(rules, State())
    {
      SetReady(side, true);
      if side !in readySubscriptions {
        return;
      }
      var fired := SyncPlayers(Some(side));
      if !fired {
        return;
      }
      EmitPlayersReady();
      if startOnReady {
        var outcome := Begin();
      }
    }

    /** The player on `side` becomes ready or busy; this is the player's
        own state, which the session reads through isReady. */
    method SetReady(side: Side, ready: bool)
      requires players.At(side).Some?
      modifies this`players
      ensures State() == ReadySpec(old(State()), side, ready)
    {
      players := players.With(side, Some(players.At(side).value.(ready := ready)));
    }

    /** The event loop delivers one queued gameEnded signal. */
    method ProcessQueuedEvent() returns (delivered: bool)
      modifies this
      ensures delivered <==> old(queuedGameEnded) > 0
      ensures delivered ==> State() == old(State()).(queued := old(queuedGameEnded) - 1, events := old(events) + [GameEnded])
      ensures !delivered ==> State() == old(State())
    {
      if queuedGameEnded == 0 {
        return false;
      }
      queuedGameEnded := queuedGameEnded - 1;
      events := events + [GameEnded];
      delivered := true;
    }

    method SetFenString(fen: string) returns (ok: bool)
      modifies this
      ensures (State(), ok) == SetFenSpec(rules, old(State()), fen)
      ensures Valid(rules, old(State())) ==> Valid(rules, State())
    {
      if !rules.validFen(fen) {
        return false;
      }
      board := Position(fen, []);
      this.fen := fen;
      ok := true;
    }

    /** setOpeningBook: the book is consulted from the start position, up
        to `maxMoves` times. */
    method SetOpeningBook(book: Position -> Move, maxMoves: int := DefaultBookMoves)
      requires Valid(rules, State()) && !gameInProgress
      modifies this
      ensures State() == SetOpeningBookSpec(rules, old(State()), book, maxMoves)
      ensures Valid(rules, State())
    {
      SetBoard();
      moves := [];
      PlayBookLine(book, maxMoves);
    }

    /** The book loop of setOpeningBook, from a freshly set board. */
    method PlayBookLine(book: Position -> Move, maxMoves: int)
      requires board == Position(fen, []) && moves == []
      modifies this`board, this`moves
      ensures moves == BookLine(rules, book, old(board), maxMoves)
      ensures board == Position(fen, moves)
    {
      ghost var p0 := board;
      var i := 0;
      while i < maxMoves
        invariant board == Position(p0.fen, moves) && |moves| == i
        invariant moves + BookLine(rules, book, board, maxMoves - i) == BookLine(rules, book, p0, maxMoves)
        decreases maxMoves - i
      {
        var m := book(board);
        if !rules.isLegal(board, m) || rules.isRepeat(board, m) {
          assert BookLine(rules, book, board, maxMoves - i) == [];
          assert moves + [] == moves;
          break;
        }
        ghost var rest := BookLine(rules, book, Position(board.fen, board.played + [m]), maxMoves - i - 1);
        assert BookLine(rules, book, board, maxMoves - i) == [m] + rest;
        assert moves + ([m] + rest) == (moves + [m]) + rest;
        moves := moves + [m];
        board := Position(board.fen, moves);
        i := i + 1;
      }
      if i >= maxMoves {
        assert BookLine(rules, book, board, maxMoves - i) == [];
        assert moves + [] == moves;
      }
    }

    method SetOpeningMoves(ms: seq<Move>)
      requires !gameInProgress
      modifies this
      ensures State() == old(State()).(moves := ms)
    {
      moves := ms;
    }
  }
}
