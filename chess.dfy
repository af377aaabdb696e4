/** Shared vocabulary of the match runner: sides, game results, move
    evaluations, and an abstract board.  The chess rules themselves
    (legality, repetition, results, FEN parsing, tablebases) are foreign
    code; they enter the model as the function values of a `Rules` record. */
module Chess {

  datatype Option<+T> = None | Some(value: T)

  datatype Side = White | Black {
    function Opposite(): (s: Side)
      ensures s != this
    {
      if this == White then Black else White
    }
  }

  /** Two values indexed by side, like the source's `m_player[2]`. */
  datatype Pair<T> = Pair(white: T, black: T) {
    function At(s: Side): T {
      if s == White then white else black
    }

    function With(s: Side, v: T): (p: Pair<T>)
      ensures p.At(s) == v && p.At(s.Opposite()) == At(s.Opposite())
    {
      if s == White then Pair(v, black) else Pair(white, v)
    }
  }

  /** The kind of a decided result (Chess::Result::Type). */
  datatype ResultType =
    | Win | Draw | Resignation | Timeout | Adjudication
    | Disconnection | NoResult | ResultError

  /** A game result: none yet, or decided with a kind, an optional winner
      and a free-text description. */
  datatype GameResult =
    | NoneResult
    | Decided(kind: ResultType, winner: Option<Side>, description: string)
  {
    /** No result yet: the type is NoResult, whether or not the value
        carries a description. */
    predicate IsNone() {
      NoneResult? || kind == NoResult
    }

    /** A decided result without a winner that is neither "no result" nor
        an error. */
    predicate IsDraw() {
      Decided? && winner.None? && kind != NoResult && kind != ResultError
    }

    /** The code `WinByDisconnection`: the opponent of a disconnected
        player wins. */
    predicate IsWinByDisconnection() {
      Decided? && kind == Disconnection && winner.Some?
    }

    predicate IsError() {
      Decided? && kind == ResultError
    }

    /** The PGN short form of the result. */
    function ShortString(): string {
      if Decided? && winner == Some(White) then "1-0"
      else if Decided? && winner == Some(Black) then "0-1"
      else if IsDraw() then "1/2-1/2"
      else "*"
    }
  }

  /** Moves are opaque tokens; only the board oracle interprets them. */
  type Move = int

  /** What an engine reports about its last move: nothing, or a search
      depth, a score in centipawns and the time used in milliseconds. */
  datatype MoveEvaluation =
    | NoEvaluation
    | Evaluation(depth: int, score: int, time: int)
  {
    /** An empty evaluation reports depth 0 and score 0. */
    function Depth(): int {
      if Evaluation? then depth else 0
    }

    function Score(): int {
      if Evaluation? then score else 0
    }
  }

  /** A board is a starting FEN and the moves played on it since. */
  datatype Position = Position(fen: string, played: seq<Move>)

  /** The foreign chess rules, as function values. */
  datatype Rules = Rules(
    startingFen: string,
    validFen: string -> bool,
    startingSide: string -> Side,
    isLegal: (Position, Move) -> bool,
    isRepeat: (Position, Move) -> bool,
    result: Position -> GameResult)

  /** The side to move alternates from the FEN's starting side. */
  function SideToMove(rules: Rules, p: Position): Side {
    if |p.played| % 2 == 0 then rules.startingSide(p.fen)
    else rules.startingSide(p.fen).Opposite()
  }

  lemma SideToMoveAfter(rules: Rules, p: Position, m: Move)
    ensures SideToMove(rules, Position(p.fen, p.played + [m])) == SideToMove(rules, p).Opposite()
  {
  }

  /** C and C++ integer division, which truncates toward zero. */
  function CDiv(a: int, b: int): int
    requires b > 0
  {
    if a >= 0 then a / b else -((-a) / b)
  }
}
