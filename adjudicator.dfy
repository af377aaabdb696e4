/** Early adjudication of a game from the engines' evaluations
    (gameadjudicator.cpp): the tablebase rule, the draw rule and the resign
    rule, applied in that order after every move. */
module Adjudication {
  import opened Chess

  /** What addEval reads from the board after the move: the side to move,
      the number of plies played, and the tablebase verdict (an input, since
      the tablebase probe is foreign). */
  datatype BoardView = BoardView(sideToMove: Side, plyCount: int, tablebaseResult: GameResult)

  /** The adjudicator's fields as one value. */
  datatype AdjState = AdjState(
    drawMoveNum: int,
    drawMoveCount: int,
    drawScore: int,
    drawScoreCount: int,
    resignMoveCount: int,
    resignScore: int,
    resignScoreCount: Pair<int>,
    tbEnabled: bool,
    result: GameResult)

  const DrawRuleResult: GameResult := Decided(Adjudication, None, "TCEC draw rule")

  function WinRuleResult(winner: Side): GameResult {
    Decided(Adjudication, Some(winner), "TCEC win rule")
  }

  function Abs(x: int): int {
    if x < 0 then -x else x
  }

  /** The thresholds and the tablebase switch, which addEval never changes. */
  predicate SameSettings(s: AdjState, t: AdjState) {
    && s.drawMoveNum == t.drawMoveNum && s.drawMoveCount == t.drawMoveCount
    && s.drawScore == t.drawScore && s.resignMoveCount == t.resignMoveCount
    && s.resignScore == t.resignScore && s.tbEnabled == t.tbEnabled
  }

  /** The effect of one addEval call, for the evaluation `e` of the move
      just made on board `b`. */
  function Step(s: AdjState, b: BoardView, e: MoveEvaluation): AdjState {
    var side := b.sideToMove.Opposite();
    var s1 := if s.tbEnabled then s.(result := b.tablebaseResult) else s;
    if s.tbEnabled && !b.tablebaseResult.IsNone() then s1
    else if e.Depth() <= 0 then
      s1.(drawScoreCount := 0, resignScoreCount := s1.resignScoreCount.With(side, 0))
    else
      var s2 :=
        if s1.drawMoveNum > 0 then
          s1.(drawScoreCount := if Abs(e.Score()) <= s1.drawScore then s1.drawScoreCount + 1 else 0)
        else s1;
      if s1.drawMoveNum > 0 && CDiv(b.plyCount, 2) >= s1.drawMoveNum
         && s2.drawScoreCount >= s1.drawMoveCount * 2
      then s2.(result := DrawRuleResult)
      else if s2.resignMoveCount > 0 then
        var c := if e.Score() <= s2.resignScore then s2.resignScoreCount.At(side) + 1 else 0;
        var s3 := s2.(resignScoreCount := s2.resignScoreCount.With(side, c));
        if c >= s2.resignMoveCount then s3.(result := WinRuleResult(side.Opposite())) else s3
      else s2
  }

  class GameAdjudicator {
    var drawMoveNum: int
    var drawMoveCount: int
    var drawScore: int
    var drawScoreCount: int
    var resignMoveCount: int
    var resignScore: int
    var resignScoreCount: Pair<int>
    var tbEnabled: bool
    var result: GameResult

    function State(): AdjState
      reads this
    {
      AdjState(drawMoveNum, drawMoveCount, drawScore, drawScoreCount,
               resignMoveCount, resignScore, resignScoreCount, tbEnabled, result)
    }

    /** Every threshold and counter zero, tablebases off, no result. */
    constructor ()
      ensures State() == AdjState(0, 0, 0, 0, 0, 0, Pair(0, 0), false, NoneResult)
    {
      drawMoveNum, drawMoveCount, drawScore, drawScoreCount := 0, 0, 0, 0;
      resignMoveCount, resignScore := 0, 0;
      resignScoreCount := Pair(0, 0);
      tbEnabled := false;
      result := NoneResult;
    }

    method SetDrawThreshold(moveNumber: int, moveCount: int, score: int)
      requires moveNumber >= 0 && moveCount >= 0
      modifies this
      ensures State() == old(State()).(drawMoveNum := moveNumber, drawMoveCount := moveCount,
                                       drawScore := score, drawScoreCount := 0)
    {
      drawMoveNum := moveNumber;
      drawMoveCount := moveCount;
      drawScore := score;
      drawScoreCount := 0;
    }

    method SetResignThreshold(moveCount: int, score: int)
      requires moveCount >= 0
      modifies this
      ensures State() == old(State()).(resignMoveCount := moveCount, resignScore := score,
                                       resignScoreCount := Pair(0, 0))
    {
      resignMoveCount := moveCount;
      resignScore := score;
      resignScoreCount := Pair(0, 0);
    }

    method SetTablebaseAdjudication(enable: bool)
      modifies this
      ensures State() == old(State()).(tbEnabled := enable)
    {
      tbEnabled := enable;
    }

    method AddEval(board: BoardView, eval: MoveEvaluation)
      modifies this
      ensures State() == Step(old(State()), board, eval)
    {
      var side := board.sideToMove.Opposite();

      if tbEnabled {
        result := board.tablebaseResult;
        if !result.IsNone() {
          return;
        }
      }

      // A move without a search (a book move, or one forced by the user)
      if eval.Depth() <= 0 {
        drawScoreCount := 0;
        resignScoreCount := resignScoreCount.With(side, 0);
        return;
      }

      if drawMoveNum > 0 {
        if Abs(eval.Score()) <= drawScore {
          drawScoreCount := drawScoreCount + 1;
        } else {
          drawScoreCount := 0;
        }
        if CDiv(board.plyCount, 2) >= drawMoveNum && drawScoreCount >= drawMoveCount * 2 {
          result := DrawRuleResult;
          return;
        }
      }

      if resignMoveCount > 0 {
        var count := resignScoreCount.At(side);
        if eval.Score() <= resignScore {
          count := count + 1;
        } else {
          count := 0;
        }
        resignScoreCount := resignScoreCount.With(side, count);
        if count >= resignMoveCount {
          result := WinRuleResult(side.Opposite());
        }
      }
    }

    method ResetDrawMoveCount()
      modifies this
      ensures State() == old(State()).(drawScoreCount := 0)
    {
      drawScoreCount := 0;
    }

    function Result(): (r: GameResult)
      reads this
      ensures r == State().result
    {
      result
    }
  }

  // ---------------------------------------------------------------------
  // Properties of one evaluation

  /** No decisive tablebase verdict cuts the call short: tablebases are
      off, or the lookup decides nothing, and the other rules run. */
  predicate NoVerdict(s: AdjState, b: BoardView) {
    !(s.tbEnabled && !b.tablebaseResult.IsNone())
  }

  /** The result the other rules start from: the (non-decisive) tablebase
      verdict when tablebases are on, the old result otherwise. */
  function Carried(s: AdjState, b: BoardView): GameResult {
    if s.tbEnabled then b.tablebaseResult else s.result
  }

  /** addEval never touches the thresholds or the tablebase switch. */
  lemma StepKeepsSettings(s: AdjState, b: BoardView, e: MoveEvaluation)
    ensures SameSettings(s, Step(s, b, e))
  {
  }

  /** With tablebases on, a decisive tablebase verdict becomes the result
      and nothing else changes; otherwise the verdict (none) replaces the old
      result before the other rules run. */
  lemma TablebaseFirst(s: AdjState, b: BoardView, e: MoveEvaluation)
    requires s.tbEnabled
    ensures !b.tablebaseResult.IsNone() ==> Step(s, b, e) == s.(result := b.tablebaseResult)
    ensures Step(s, b, e).result in {b.tablebaseResult, DrawRuleResult, WinRuleResult(b.sideToMove)}
  {
  }

  /** A move without a search zeroes the draw counter and the mover's
      resign counter, keeps the other side's, and decides nothing. */
  lemma ForcedMoveResets(s: AdjState, b: BoardView, e: MoveEvaluation)
    requires NoVerdict(s, b)
    requires e.Depth() <= 0
    ensures var t := Step(s, b, e);
      && t.drawScoreCount == 0
      && t.resignScoreCount.At(b.sideToMove.Opposite()) == 0
      && t.resignScoreCount.At(b.sideToMove) == s.resignScoreCount.At(b.sideToMove)
      && t.result == Carried(s, b)
  {
  }

  /** The draw counter counts evaluations within the draw score and is
      zeroed by any other searched evaluation. */
  lemma DrawCounterRule(s: AdjState, b: BoardView, e: MoveEvaluation)
    requires NoVerdict(s, b)
    requires e.Depth() > 0 && s.drawMoveNum > 0
    ensures Step(s, b, e).drawScoreCount ==
      if Abs(e.Score()) <= s.drawScore then s.drawScoreCount + 1 else 0
  {
  }

  /** Unless a decisive tablebase verdict returns first, the draw rule
      fires exactly when the game is past the configured move number and
      both sides have stayed within the draw score for the configured
      number of moves; it then leaves the resign counters alone, so a draw
      wins over a resignation in the same call. */
  lemma DrawRuleExactly(s: AdjState, b: BoardView, e: MoveEvaluation)
    requires NoVerdict(s, b) && e.Depth() > 0 && s.drawMoveNum > 0
    requires !s.tbEnabled ==> s.result != DrawRuleResult
    ensures var t := Step(s, b, e);
      (t.result == DrawRuleResult) <==>
        (CDiv(b.plyCount, 2) >= s.drawMoveNum && t.drawScoreCount >= 2 * s.drawMoveCount)
    ensures Step(s, b, e).result == DrawRuleResult ==>
      Step(s, b, e).resignScoreCount == s.resignScoreCount
    ensures Step(s, b, e).result != DrawRuleResult ==>
      Step(s, b, e).result in {Carried(s, b), WinRuleResult(b.sideToMove)}
  {
  }

  /** Whether the draw rule adjudicates a draw in this addEval call (a
      searched move, the draw rule on, past the move number, and the
      updated draw counter at the configured count). */
  predicate DrawFires(s: AdjState, b: BoardView, e: MoveEvaluation) {
    && e.Depth() > 0 && s.drawMoveNum > 0 && CDiv(b.plyCount, 2) >= s.drawMoveNum
    && (if Abs(e.Score()) <= s.drawScore then s.drawScoreCount + 1 else 0) >= 2 * s.drawMoveCount
  }

  /** The resign rule, whenever neither a decisive tablebase verdict nor
      the draw rule returns first: the
      mover's counter counts evaluations at or below the resign score, and
      reaching the configured count awards the win to the mover's
      opponent. */
  lemma ResignRule(s: AdjState, b: BoardView, e: MoveEvaluation)
    requires NoVerdict(s, b) && e.Depth() > 0 && s.resignMoveCount > 0
    requires !DrawFires(s, b, e)
    ensures var mover := b.sideToMove.Opposite();
      var c := if e.Score() <= s.resignScore then s.resignScoreCount.At(mover) + 1 else 0;
      var t := Step(s, b, e);
      && t.resignScoreCount == s.resignScoreCount.With(mover, c)
      && t.result == (if c >= s.resignMoveCount then WinRuleResult(b.sideToMove) else Carried(s, b))
  {
  }

  /** With no thresholds and no tablebases the adjudicator never decides. */
  lemma InertWithoutRules(s: AdjState, b: BoardView, e: MoveEvaluation)
    requires !s.tbEnabled && s.drawMoveNum == 0 && s.resignMoveCount == 0
    ensures Step(s, b, e).result == s.result
  {
  }

  // ---------------------------------------------------------------------
  // Properties of a sequence of evaluations

  datatype Input = Input(board: BoardView, eval: MoveEvaluation)

  /** The state after feeding the inputs in order. */
  function Run(s: AdjState, xs: seq<Input>): AdjState {
    if xs == [] then s
    else var last := xs[|xs| - 1]; Step(Run(s, xs[..|xs| - 1]), last.board, last.eval)
  }

  lemma {:induction false} RunKeepsSettings(s: AdjState, xs: seq<Input>)
    ensures SameSettings(s, Run(s, xs))
  {
    if xs != [] {
      RunKeepsSettings(s, xs[..|xs| - 1]);
    }
  }

  /** No input of the run meets a decisive tablebase verdict. */
  predicate NoVerdictAlong(s: AdjState, xs: seq<Input>) {
    forall i :: 0 <= i < |xs| ==> NoVerdict(s, xs[i].board)
  }

  predicate DrawQualifies(s: AdjState, x: Input) {
    x.eval.Depth() > 0 && Abs(x.eval.Score()) <= s.drawScore
  }

  /** The number of inputs at the end of xs that qualify for the draw rule. */
  function TrailingDrawRun(s: AdjState, xs: seq<Input>): nat {
    if xs == [] || !DrawQualifies(s, xs[|xs| - 1]) then 0
    else TrailingDrawRun(s, xs[..|xs| - 1]) + 1
  }

  /** With the draw rule on and no decisive tablebase verdict along the
      way, the draw counter is the length of the current run of qualifying
      evaluations (added to the old counter when the run spans every
      input). */
  lemma {:induction false} DrawCountIsTrailingRun(s: AdjState, xs: seq<Input>)
    requires NoVerdictAlong(s, xs) && s.drawMoveNum > 0
    ensures Run(s, xs).drawScoreCount ==
      if TrailingDrawRun(s, xs) == |xs| then s.drawScoreCount + |xs| else TrailingDrawRun(s, xs)
  {
    if xs != [] {
      var init := xs[..|xs| - 1];
      assert NoVerdictAlong(s, init) by {
        forall i | 0 <= i < |init| ensures NoVerdict(s, init[i].board) {
          assert init[i] == xs[i];
        }
      }
      DrawCountIsTrailingRun(s, init);
      RunKeepsSettings(s, init);
      DrawCountStep(s, Run(s, init), xs[|xs| - 1]);
    }
  }

  /** One addEval call on a state `t` with the settings of `s`, without a
      decisive verdict: the draw counter grows on a qualifying evaluation
      and is zeroed by any other. */
  lemma DrawCountStep(s: AdjState, t: AdjState, x: Input)
    requires SameSettings(s, t) && s.drawMoveNum > 0 && NoVerdict(t, x.board)
    ensures Step(t, x.board, x.eval).drawScoreCount ==
      if DrawQualifies(s, x) then t.drawScoreCount + 1 else 0
  {
  }

  /** The inputs whose move was made by `side`. */
  function MovesBy(side: Side, xs: seq<Input>): seq<Input> {
    if xs == [] then []
    else
      var last := xs[|xs| - 1];
      MovesBy(side, xs[..|xs| - 1]) + (if last.board.sideToMove.Opposite() == side then [last] else [])
  }

  predicate ResignQualifies(s: AdjState, x: Input) {
    x.eval.Depth() > 0 && x.eval.Score() <= s.resignScore
  }

  function TrailingResignRun(s: AdjState, xs: seq<Input>): nat {
    if xs == [] || !ResignQualifies(s, xs[|xs| - 1]) then 0
    else TrailingResignRun(s, xs[..|xs| - 1]) + 1
  }

  /** Whether the draw rule never fires while the inputs are fed in
      order. */
  predicate NoDrawAlong(s: AdjState, xs: seq<Input>) {
    xs == [] ||
    (var last := xs[|xs| - 1];
     NoDrawAlong(s, xs[..|xs| - 1]) && !DrawFires(Run(s, xs[..|xs| - 1]), last.board, last.eval))
  }

  /** With no decisive tablebase verdict, and as long as the draw rule does
      not fire, a
      side's resign counter is the length of the current run of its own
      evaluations at or below the resign score; the opponent's moves
      neither extend nor break it. */
  lemma {:induction false} ResignCountIsTrailingRun(s: AdjState, xs: seq<Input>, side: Side)
    requires NoVerdictAlong(s, xs) && s.resignMoveCount > 0 && NoDrawAlong(s, xs)
    ensures var mine := MovesBy(side, xs);
      Run(s, xs).resignScoreCount.At(side) ==
        if TrailingResignRun(s, mine) == |mine| then s.resignScoreCount.At(side) + |mine|
        else TrailingResignRun(s, mine)
  {
    if xs != [] {
      var init := xs[..|xs| - 1];
      var last := xs[|xs| - 1];
      assert NoVerdictAlong(s, init) by {
        forall i | 0 <= i < |init| ensures NoVerdict(s, init[i].board) {
          assert init[i] == xs[i];
        }
      }
      ResignCountIsTrailingRun(s, init, side);
      RunKeepsSettings(s, init);
      ResignCountStep(s, Run(s, init), last, side);
      var mine := MovesBy(side, xs);
      if last.board.sideToMove.Opposite() == side {
        assert mine[..|mine| - 1] == MovesBy(side, init);
      } else {
        assert mine == MovesBy(side, init);
      }
    }
  }

  /** One addEval call on a state `t` with the settings of `s`, without a
      decisive verdict or a draw: a side's resign counter grows on its own
      qualifying move, is zeroed by its own other moves, and is untouched
      by the opponent's. */
  lemma ResignCountStep(s: AdjState, t: AdjState, x: Input, side: Side)
    requires SameSettings(s, t) && s.resignMoveCount > 0
    requires NoVerdict(t, x.board) && !DrawFires(t, x.board, x.eval)
    ensures Step(t, x.board, x.eval).resignScoreCount.At(side) ==
      if x.board.sideToMove.Opposite() != side then t.resignScoreCount.At(side)
      else if ResignQualifies(s, x) then t.resignScoreCount.At(side) + 1
      else 0
  {
  }

  /** The draw rule's worked example: from fresh counters and with no
      decisive tablebase verdict, 2 * moveCount consecutive qualifying
      evaluations past the move number, none of them losing enough for the
      resign rule when it is on, leave the game undecided until the last
      one, which adjudicates the draw. */
  lemma {:induction false} DrawAfterConsecutiveQualifying(s: AdjState, xs: seq<Input>)
    requires NoVerdictAlong(s, xs) && s.drawMoveNum > 0 && s.drawMoveCount > 0
    requires s.drawScoreCount == 0 && s.result == NoneResult
    requires |xs| == 2 * s.drawMoveCount
    requires forall i :: 0 <= i < |xs| ==>
      && DrawQualifies(s, xs[i]) && CDiv(xs[i].board.plyCount, 2) >= s.drawMoveNum
      && (s.resignMoveCount > 0 ==> !ResignQualifies(s, xs[i]))
    ensures Run(s, xs[..|xs| - 1]).result.IsNone()
    ensures !s.tbEnabled ==> Run(s, xs[..|xs| - 1]).result == NoneResult
    ensures Run(s, xs).result == DrawRuleResult
  {
    UndecidedBeforeThreshold(s, xs, |xs| - 1);
    var init := xs[..|xs| - 1];
    assert xs[..|xs|][..|xs| - 1] == init;
    TrailingRunOfQualifying(s, xs);
    DrawCountIsTrailingRun(s, xs);
    RunKeepsSettings(s, init);
  }

  lemma {:induction false} TrailingRunOfQualifying(s: AdjState, xs: seq<Input>)
    requires forall i :: 0 <= i < |xs| ==> DrawQualifies(s, xs[i])
    ensures TrailingDrawRun(s, xs) == |xs|
  {
    if xs != [] {
      TrailingRunOfQualifying(s, xs[..|xs| - 1]);
    }
  }

  lemma {:induction false} UndecidedBeforeThreshold(s: AdjState, xs: seq<Input>, j: nat)
    requires NoVerdictAlong(s, xs) && s.drawMoveNum > 0
    requires s.drawScoreCount == 0 && s.result == NoneResult
    requires j < 2 * s.drawMoveCount && j <= |xs|
    requires forall i :: 0 <= i < |xs| ==>
      DrawQualifies(s, xs[i]) && (s.resignMoveCount > 0 ==> !ResignQualifies(s, xs[i]))
    ensures Run(s, xs[..j]).result.IsNone()
    ensures !s.tbEnabled ==> Run(s, xs[..j]).result == NoneResult
  {
    if j > 0 {
      var pre := xs[..j];
      assert pre[..j - 1] == xs[..j - 1];
      UndecidedBeforeThreshold(s, xs, j - 1);
      TrailingRunOfQualifying(s, pre);
      DrawCountIsTrailingRun(s, pre);
      RunKeepsSettings(s, pre[..j - 1]);
    }
  }

  /** The resign rule's worked example: once a side's own evaluations have
      all been at or below the resign score for the configured number of its
      moves, with no decisive tablebase verdict and no draw adjudicated
      meanwhile, its last such move
      awards the game to the opponent. */
  lemma ResignAfterConsecutiveLosing(s: AdjState, xs: seq<Input>, side: Side)
    requires NoVerdictAlong(s, xs) && s.resignMoveCount > 0 && NoDrawAlong(s, xs)
    requires s.resignScoreCount.At(side) == 0
    requires xs != [] && xs[|xs| - 1].board.sideToMove.Opposite() == side
    requires forall i :: 0 <= i < |MovesBy(side, xs)| ==> ResignQualifies(s, MovesBy(side, xs)[i])
    requires |MovesBy(side, xs)| == s.resignMoveCount
    ensures Run(s, xs).result == WinRuleResult(side.Opposite())
  {
    var init := xs[..|xs| - 1];
    var last := xs[|xs| - 1];
    var mine := MovesBy(side, init);
    var all := MovesBy(side, xs);
    assert all == mine + [last];
    forall i | 0 <= i < |mine| ensures ResignQualifies(s, mine[i]) {
      assert mine[i] == all[i];
    }
    assert ResignQualifies(s, last) by {
      assert all[|all| - 1] == last;
    }
    ResignTrailingAll(s, mine);
    ResignCountIsTrailingRun(s, init, side);
    RunKeepsSettings(s, init);
    var before := Run(s, init);
    assert before.resignScoreCount.At(side) == |mine|;
    assert Run(s, xs) == Step(before, last.board, last.eval);
  }

  lemma {:induction false} ResignTrailingAll(s: AdjState, xs: seq<Input>)
    requires forall i :: 0 <= i < |xs| ==> ResignQualifies(s, xs[i])
    ensures TrailingResignRun(s, xs) == |xs|
  {
    if xs != [] {
      ResignTrailingAll(s, xs[..|xs| - 1]);
    }
  }
}
