/** A PGN game record (pgngame.cpp): a tag map ordered like QMap, the list
    of moves with their comments and the starting side.  Tag setters and
    getters are stated as functions on the map with their round trips;
    `read` folds an abstract token stream, and `write` is a serialiser into
    a string whose movetext wrapping is proved against a line layout. */
module Pgn {
  import opened Chess
  import opened Text

  type Tags = map<string, string>

  /** One recorded move: its text and the comment after it.  (The position
      key and the generic move of the source are not modelled.) */
  datatype MoveData = MoveData(moveString: string, comment: string)

  datatype PgnMode = Minimal | Verbose

  // ---------------------------------------------------------------------
  // The tag map

  /** QMap::value: the stored value, or "" for an absent tag. */
  function Value(tags: Tags, tag: string): string {
    if tag in tags then tags[tag] else ""
  }

  /** setTag: an empty value removes the tag, any other is stored. */
  function PutTag(tags: Tags, tag: string, value: string): Tags {
    if value == "" then tags - {tag} else tags[tag := value]
  }

  lemma SetTagRoundTrip(tags: Tags, tag: string, value: string, other: string)
    ensures Value(PutTag(tags, tag, value), tag) == value
    ensures tag in PutTag(tags, tag, value) <==> value != ""
    ensures other != tag ==> Value(PutTag(tags, tag, value), other) == Value(tags, other)
  {
  }

  /** variant(): the Variant tag when present, otherwise "standard". */
  function VariantOf(tags: Tags): string {
    if "Variant" in tags then tags["Variant"] else "standard"
  }

  /** setVariant: "standard" is stored as the absence of the tag. */
  function PutVariant(tags: Tags, variant: string): Tags {
    if variant == "standard" then tags - {"Variant"} else tags["Variant" := variant]
  }

  lemma VariantRoundTrip(tags: Tags, variant: string)
    ensures VariantOf(PutVariant(tags, variant)) == variant
    ensures "Variant" in PutVariant(tags, variant) <==> variant != "standard"
    ensures forall k :: k != "Variant" ==> Value(PutVariant(tags, variant), k) == Value(tags, k)
  {
  }

  /** setStartingFenString: a FEN sets FEN and SetUp "1", an empty one
      removes both. */
  function PutStartingFen(tags: Tags, fen: string): Tags {
    if fen == "" then tags - {"FEN", "SetUp"} else tags["FEN" := fen]["SetUp" := "1"]
  }

  lemma StartingFenRoundTrip(tags: Tags, fen: string)
    ensures Value(PutStartingFen(tags, fen), "FEN") == fen
    ensures "FEN" in PutStartingFen(tags, fen) <==> fen != ""
    ensures "SetUp" in PutStartingFen(tags, fen) <==> fen != ""
    ensures fen != "" ==> PutStartingFen(tags, fen)["SetUp"] == "1"
    ensures forall k :: k != "FEN" && k != "SetUp" ==> Value(PutStartingFen(tags, fen), k) == Value(tags, k)
  {
  }

  /** The type of a result; an undecided result has type NoResult. */
  function TypeOf(r: GameResult): ResultType {
    if r.NoneResult? then NoResult else r.kind
  }

  /** The Termination tag that setResult writes for a result type. */
  function TerminationOf(t: ResultType): Option<string> {
    match t
    case Adjudication => Some("adjudication")
    case Timeout => Some("time forfeit")
    case Disconnection => Some("abandoned")
    case NoResult => Some("unterminated")
    case _ => None
  }

  function PutResult(tags: Tags, r: GameResult): Tags {
    var t := tags["Result" := r.ShortString()];
    match TerminationOf(TypeOf(r))
    case None => t - {"Termination"}
    case Some(s) => t["Termination" := s]
  }

  /** setResult stores the short form, sets Termination for the four
      abnormal types and removes it for every other. */
  lemma ResultTags(tags: Tags, r: GameResult)
    ensures Value(PutResult(tags, r), "Result") == r.ShortString()
    ensures "Termination" in PutResult(tags, r) <==>
      TypeOf(r) in {Adjudication, Timeout, Disconnection, NoResult}
    ensures TypeOf(r) == Adjudication ==> Value(PutResult(tags, r), "Termination") == "adjudication"
    ensures TypeOf(r) == Timeout ==> Value(PutResult(tags, r), "Termination") == "time forfeit"
    ensures TypeOf(r) == Disconnection ==> Value(PutResult(tags, r), "Termination") == "abandoned"
    ensures TypeOf(r) == NoResult ==> Value(PutResult(tags, r), "Termination") == "unterminated"
    ensures forall k :: k != "Result" && k != "Termination" ==> Value(PutResult(tags, r), k) == Value(tags, k)
  {
  }

  /** round(): the Round tag read as an integer, 0 when it is not one. */
  function RoundOf(tags: Tags): int {
    match ParseInt(Value(tags, "Round"))
    case None => 0
    case Some(n) => n
  }

  lemma RoundRoundTrip(tags: Tags, round: int)
    ensures RoundOf(tags["Round" := IntToString(round)]) == round
  {
    IntToStringRoundTrip(round);
  }

  /** setResultDescription: appended to the last move's comment, after ", "
      when that comment is not empty; nothing happens without a
      description or without moves. */
  function AppendDescription(moves: seq<MoveData>, description: string): seq<MoveData> {
    if description == "" || moves == [] then moves
    else
      var last := moves[|moves| - 1];
      var c := if last.comment == "" then description else last.comment + ", " + description;
      moves[..|moves| - 1] + [last.(comment := c)]
  }

  lemma DescriptionAppended(moves: seq<MoveData>, description: string)
    ensures var ms := AppendDescription(moves, description);
      |ms| == |moves| &&
      (description == "" || moves == [] ==> ms == moves) &&
      (forall i :: 0 <= i < |moves| - 1 ==> ms[i] == moves[i]) &&
      (description != "" && moves != [] ==>
        ms[|ms| - 1].moveString == moves[|moves| - 1].moveString &&
        ms[|ms| - 1].comment ==
          moves[|moves| - 1].comment + (if moves[|moves| - 1].comment == "" then "" else ", ") + description)
  {
  }

  // ---------------------------------------------------------------------
  // Reading a game from a token stream

  /** The tokens of the PGN stream (the tokenizer itself is foreign). */
  datatype Token =
    | PgnTag(name: string, value: string)
    | PgnMove(san: string)
    | PgnComment(text: string)
    | PgnResult(text: string)
    | PgnNag(text: string)
    | NoToken
    | OtherToken

  /** The stream's board: its variant, the FEN it was set to and the move
      texts played on it. */
  datatype PgnBoard = PgnBoard(variant: string, fen: string, sans: seq<string>)

  /** The foreign board operations that reading relies on. */
  datatype BoardRules = BoardRules(
    knownVariant: string -> bool,
    isRandomVariant: string -> bool,
    defaultFen: string -> string,
    validFen: (string, string) -> bool,
    startingSide: (string, string) -> Side,
    isLegal: (PgnBoard, string) -> bool)

  datatype ReadState = ReadState(tags: Tags, moves: seq<MoveData>, startingSide: Option<Side>, board: PgnBoard)

  /** Setting the board up before the first move: the Variant tag (or the
      stream's variant, recorded as a tag when not standard), then the FEN
      tag or the variant's default FEN.  The boolean says whether it
      succeeded; a recorded Variant tag stays even when the FEN fails. */
  function SetUpBoard(br: BoardRules, st: ReadState): (ReadState, bool) {
    var tmp := Value(st.tags, "Variant");
    if tmp != "" && !br.knownVariant(tmp) then (st, false)
    else
      var variant := if tmp != "" then tmp else st.board.variant;
      var tags := if tmp == "" && variant != "standard" then st.tags["Variant" := variant] else st.tags;
      var st1 := st.(tags := tags, board := PgnBoard(variant, st.board.fen, st.board.sans));
      var fenTag := Value(tags, "FEN");
      if fenTag == "" && br.isRandomVariant(variant) then (st1, false)
      else
        var fen := if fenTag == "" then br.defaultFen(variant) else fenTag;
        if !br.validFen(variant, fen) then (st1, false)
        else (st1.(startingSide := Some(br.startingSide(variant, fen)), board := PgnBoard(variant, fen, [])), true)
  }

  /** parseMove: no tags or an illegal move fail; a legal move is recorded
      with an empty comment and played on the board. */
  function ParseMove(br: BoardRules, st: ReadState, san: string): (ReadState, bool) {
    if st.tags == map[] then (st, false)
    else
      var (st1, ok) := if st.moves == [] then SetUpBoard(br, st) else (st, true);
      if !ok then (st1, false)
      else if !br.isLegal(st1.board, san) then (st1, false)
      else
        (st1.(moves := st1.moves + [MoveData(san, "")],
              board := st1.board.(sans := st1.board.sans + [san])), true)
  }

  /** One token of the read loop: the new state and whether to stop. */
  function ReadStep(br: BoardRules, maxMoves: int, st: ReadState, t: Token): (ReadState, bool) {
    match t
    case PgnTag(name, value) => (st.(tags := st.tags[name := value]), false)
    case PgnMove(san) =>
      var (st1, ok) := ParseMove(br, st, san);
      (st1, !ok || |st1.moves| >= maxMoves)
    case PgnComment(text) =>
      if st.moves == [] then (st, false)
      else
        var last := st.moves[|st.moves| - 1];
        (st.(moves := st.moves[..|st.moves| - 1] + [last.(comment := last.comment + text)]), false)
    case PgnResult(text) => (st.(tags := st.tags["Result" := text]), true)
    case PgnNag(_) => (st, false)
    case NoToken => (st, true)
    case OtherToken => (st, false)
  }

  /** The read loop over the rest of the stream. */
  function ReadFold(br: BoardRules, maxMoves: int, st: ReadState, ts: seq<Token>): ReadState
    decreases |ts|
  {
    if ts == [] then st
    else
      var (st1, stop) := ReadStep(br, maxMoves, st, ts[0]);
      if stop then st1 else ReadFold(br, maxMoves, st1, ts[1..])
  }

  /** read(): clear, nothing more without a next game, the token loop, then
      failure without tags or PlyCount set to the number of moves. */
  function ReadGame(br: BoardRules, streamVariant: string, hasGame: bool, ts: seq<Token>, maxMoves: int): (bool, ReadState) {
    var st0 := ReadState(map[], [], None, PgnBoard(streamVariant, "", []));
    if !hasGame then (false, st0)
    else
      var st := ReadFold(br, maxMoves, st0, ts);
      if st.tags == map[] then (false, st)
      else (true, st.(tags := st.tags["PlyCount" := IntToString(|st.moves|)]))
  }

  /** Reading stops once the moves reach maxMoves (a first move is always
      taken), so a read game never holds more. */
  lemma {:induction false} ReadFoldBounded(br: BoardRules, maxMoves: int, st: ReadState, ts: seq<Token>)
    requires |st.moves| == 0 || |st.moves| < maxMoves
    ensures |ReadFold(br, maxMoves, st, ts).moves| <= if maxMoves < 1 then 1 else maxMoves
    decreases |ts|
  {
    if ts != [] {
      var (st1, stop) := ReadStep(br, maxMoves, st, ts[0]);
      if !stop {
        ReadFoldBounded(br, maxMoves, st1, ts[1..]);
      }
    }
  }

  lemma ReadBounded(br: BoardRules, streamVariant: string, hasGame: bool, ts: seq<Token>, maxMoves: int)
    ensures |ReadGame(br, streamVariant, hasGame, ts, maxMoves).1.moves| <= if maxMoves < 1 then 1 else maxMoves
  {
    ReadFoldBounded(br, maxMoves, ReadState(map[], [], None, PgnBoard(streamVariant, "", [])), ts);
  }

  /** A successful read has tags and records PlyCount as the move count; a
      read without a game or without tags fails. */
  lemma ReadOutcome(br: BoardRules, streamVariant: string, hasGame: bool, ts: seq<Token>, maxMoves: int)
    ensures var (ok, st) := ReadGame(br, streamVariant, hasGame, ts, maxMoves);
      (ok ==> hasGame && Value(st.tags, "PlyCount") == IntToString(|st.moves|)) &&
      (!ok <==> !hasGame || st.tags == map[])
  {
  }

  /** A result token overwrites the Result tag and ends the game; nothing
      after it is read. */
  lemma ResultTokenEnds(br: BoardRules, maxMoves: int, st: ReadState, text: string, rest: seq<Token>)
    ensures ReadFold(br, maxMoves, st, [PgnResult(text)] + rest) == st.(tags := st.tags["Result" := text])
  {
  }

  /** A comment before any move is dropped; otherwise it is appended to the
      last move's comment and nothing else changes. */
  lemma CommentOnLastMove(br: BoardRules, maxMoves: int, st: ReadState, text: string)
    ensures var (st1, stop) := ReadStep(br, maxMoves, st, PgnComment(text));
      !stop && st1.tags == st.tags && |st1.moves| == |st.moves| &&
      (st.moves == [] ==> st1 == st) &&
      (forall i :: 0 <= i < |st.moves| - 1 ==> st1.moves[i] == st.moves[i]) &&
      (st.moves != [] ==>
        st1.moves[|st.moves| - 1] ==
          st.moves[|st.moves| - 1].(comment := st.moves[|st.moves| - 1].comment + text))
  {
  }

  /** A move is recorded only if it is legal on the board as set up, and
      then exactly one move is appended. */
  lemma MoveRecordedOnlyIfLegal(br: BoardRules, st: ReadState, san: string)
    ensures var (st1, ok) := ParseMove(br, st, san);
      (ok ==> st.tags != map[] && |st1.moves| == |st.moves| + 1 &&
              st1.moves[|st.moves|] == MoveData(san, "") && st1.moves[..|st.moves|] == st.moves &&
              |st1.board.sans| > 0 &&
              br.isLegal(st1.board.(sans := st1.board.sans[..|st1.board.sans| - 1]), san)) &&
      (!ok ==> st1.moves == st.moves)
  {
  }

  // ---------------------------------------------------------------------
  // Writing

  /** The seven tag roster of section 8.1.1 of the PGN standard. */
  const Roster: seq<string> := ["Event", "Site", "Date", "Round", "White", "Black", "Result"]

  /** writeTag: an empty value is written as "?". */
  function TagLine(tag: string, value: string): string {
    "[" + tag + " \"" + (if value == "" then "?" else value) + "\"]\n"
  }

  function TagLines(tags: Tags, keys: seq<string>): string {
    if keys == [] then ""
    else TagLines(tags, keys[..|keys| - 1]) + TagLine(keys[|keys| - 1], Value(tags, keys[|keys| - 1]))
  }

  /** The keys, in the given order, that Verbose mode adds after the
      roster: those outside the roster whose value is not empty. */
  function ExtraKeys(tags: Tags, keys: seq<string>): (ks: seq<string>)
    ensures forall k :: k in ks ==> k in keys
  {
    if keys == [] then []
    else
      var k := keys[|keys| - 1];
      ExtraKeys(tags, keys[..|keys| - 1]) + (if k !in Roster && Value(tags, k) != "" then [k] else [])
  }

  function Header(tags: Tags, mode: PgnMode): string {
    TagLines(tags, Roster) +
    (if mode == Verbose then TagLines(tags, ExtraKeys(tags, SortedKeys(tags.Keys)))
     else if "FEN" in tags then TagLines(tags, ["FEN", "SetUp"])
     else "")
  }

  /** write emits nothing for a game without tags; otherwise the seven
      roster tags in their fixed order, then the mode's extra tags (Minimal:
      FEN and SetUp, only when a FEN is present), then the movetext and the
      result. */
  lemma WriteSections(tags: Tags, moves: seq<MoveData>, start: Option<Side>, mode: PgnMode)
    ensures tags == map[] ==> Render(tags, moves, start, mode) == ""
    ensures tags != map[] ==>
      var lines := Layout(MoveTokens(moves, start, mode));
      Render(tags, moves, start, mode) ==
        TagLines(tags, Roster)
        + (if mode == Verbose then TagLines(tags, ExtraKeys(tags, SortedKeys(tags.Keys)))
           else if "FEN" in tags then TagLine("FEN", tags["FEN"]) + TagLine("SetUp", Value(tags, "SetUp"))
           else "")
        + LinesText(lines) + ResultText(LastWidth(lines), Value(tags, "Result"))
  {
    if mode == Minimal && "FEN" in tags {
      var fs := ["FEN", "SetUp"];
      assert fs[..1][..0] == [] && fs[..1] == fs[..|fs| - 1];
      assert TagLines(tags, fs[..1]) == TagLine("FEN", tags["FEN"]);
      assert TagLines(tags, fs) == TagLine("FEN", tags["FEN"]) + TagLine("SetUp", Value(tags, "SetUp"));
      assert Header(tags, mode) == TagLines(tags, Roster) + TagLines(tags, fs);
    }
  }

  lemma RosterLines(tags: Tags)
    ensures TagLines(tags, Roster) ==
      TagLine("Event", Value(tags, "Event")) + TagLine("Site", Value(tags, "Site"))
      + TagLine("Date", Value(tags, "Date")) + TagLine("Round", Value(tags, "Round"))
      + TagLine("White", Value(tags, "White")) + TagLine("Black", Value(tags, "Black"))
      + TagLine("Result", Value(tags, "Result"))
  {
    var r := Roster;
    ghost var l := seq(7, i requires 0 <= i < 7 => TagLine(r[i], Value(tags, r[i])));
    assert TagLines(tags, r[..1]) == l[0] by {
      assert r[..1][..0] == [];
    }
    assert TagLines(tags, r[..2]) == l[0] + l[1] by {
      assert r[..2][..1] == r[..1];
    }
    assert TagLines(tags, r[..3]) == l[0] + l[1] + l[2] by {
      assert r[..3][..2] == r[..2];
    }
    assert TagLines(tags, r[..4]) == l[0] + l[1] + l[2] + l[3] by {
      assert r[..4][..3] == r[..3];
    }
    assert TagLines(tags, r[..5]) == l[0] + l[1] + l[2] + l[3] + l[4] by {
      assert r[..5][..4] == r[..4];
    }
    assert TagLines(tags, r[..6]) == l[0] + l[1] + l[2] + l[3] + l[4] + l[5] by {
      assert r[..6][..5] == r[..5];
    }
    assert TagLines(tags, r) == l[0] + l[1] + l[2] + l[3] + l[4] + l[5] + l[6] by {
      assert r[..6] == r[..|r| - 1];
    }
  }

  /** Verbose mode writes every non-empty tag outside the roster, each once,
      in QMap's increasing key order. */
  lemma VerboseExtraTags(tags: Tags)
    ensures var ks := ExtraKeys(tags, SortedKeys(tags.Keys));
      (forall k :: k in ks <==> k in tags && k !in Roster && tags[k] != "") &&
      StrictlyIncreasing(ks)
  {
    ExtraKeysFilter(tags, SortedKeys(tags.Keys));
  }

  lemma {:induction false} ExtraKeysFilter(tags: Tags, keys: seq<string>)
    requires StrictlyIncreasing(keys)
    ensures var ks := ExtraKeys(tags, keys);
      (forall k :: k in ks <==> k in keys && k !in Roster && Value(tags, k) != "") &&
      StrictlyIncreasing(ks)
  {
    if keys != [] {
      var init := keys[..|keys| - 1];
      var k := keys[|keys| - 1];
      assert StrictlyIncreasing(init);
      ExtraKeysFilter(tags, init);
      assert keys == init + [k];
      var ks := ExtraKeys(tags, init);
      forall i | 0 <= i < |ks|
        ensures LessEq(ks[i], k) && ks[i] != k
      {
        assert ks[i] in init;
      }
      if k !in Roster && Value(tags, k) != "" {
        GreatestLast(ks, k);
      }
    }
  }

  /** The side to move before move i of the movetext: the source flips an
      integer with `!`, so a record without a starting side numbers its
      moves like one that starts with Black. */
  function SideAt(start: Option<Side>, i: nat): Side {
    var s := if start == Some(White) then White else Black;
    if i % 2 == 0 then s else s.Opposite()
  }

  /** A move number precedes the first move and every White move. */
  predicate Numbered(start: Option<Side>, i: nat) {
    i == 0 || SideAt(start, i) == White
  }

  /** The number written before move i when it is numbered. */
  function FullMoveNumber(start: Option<Side>, i: nat): nat {
    if start == Some(White) then i / 2 + 1 else (i + 1) / 2 + 1
  }

  function MoveText(m: MoveData, mode: PgnMode): string {
    m.moveString + (if mode == Verbose && m.comment != "" then " {" + m.comment + "}" else "")
  }

  /** The token written for move i. */
  function MoveToken(start: Option<Side>, i: nat, m: MoveData, mode: PgnMode): string {
    (if Numbered(start, i) then IntToString(FullMoveNumber(start, i)) + ". " else "") + MoveText(m, mode)
  }

  function MoveTokens(moves: seq<MoveData>, start: Option<Side>, mode: PgnMode): (ts: seq<string>)
    ensures |ts| == |moves|
    ensures forall i :: 0 <= i < |moves| ==> ts[i] == MoveToken(start, i, moves[i], mode)
  {
    seq(|moves|, i requires 0 <= i < |moves| => MoveToken(start, i, moves[i], mode))
  }

  /** Width of a line of tokens joined by single spaces. */
  function Width(line: seq<string>): int {
    if line == [] then 0
    else if |line| == 1 then |line[0]|
    else Width(line[..|line| - 1]) + |line[|line| - 1]| + 1
  }

  function Join(line: seq<string>): string {
    if line == [] then ""
    else if |line| == 1 then line[0]
    else Join(line[..|line| - 1]) + " " + line[|line| - 1]
  }

  function LastWidth(lines: seq<seq<string>>): int {
    if lines == [] then 0 else Width(lines[|lines| - 1])
  }

  /** The movetext lines: a token starts a new line when the current one is
      empty or the token would take it to 80 columns. */
  function Layout(ts: seq<string>): seq<seq<string>> {
    if ts == [] then [] else AddToken(Layout(ts[..|ts| - 1]), ts[|ts| - 1])
  }

  /** Placing one more token after the lines so far. */
  function AddToken(lines: seq<seq<string>>, t: string): seq<seq<string>> {
    if LastWidth(lines) == 0 || LastWidth(lines) + |t| >= 80 then lines + [[t]]
    else lines[..|lines| - 1] + [lines[|lines| - 1] + [t]]
  }

  /** Each line is written after a newline. */
  function LinesText(lines: seq<seq<string>>): string {
    if lines == [] then ""
    else LinesText(lines[..|lines| - 1]) + "\n" + Join(lines[|lines| - 1])
  }

  function Flatten(lines: seq<seq<string>>): seq<string> {
    if lines == [] then [] else Flatten(lines[..|lines| - 1]) + lines[|lines| - 1]
  }

  /** The result after the movetext, on a new line when it would reach 80
      columns. */
  function ResultText(lineLength: int, result: string): string {
    if lineLength + |result| >= 80 then "\n" + result + "\n\n" else " " + result + "\n\n"
  }

  /** What write(out, mode) emits. */
  function Render(tags: Tags, moves: seq<MoveData>, start: Option<Side>, mode: PgnMode): string {
    if tags == map[] then ""
    else
      var lines := Layout(MoveTokens(moves, start, mode));
      Header(tags, mode) + LinesText(lines) + ResultText(LastWidth(lines), Value(tags, "Result"))
  }

  lemma {:induction false} WidthIsLength(line: seq<string>)
    ensures Width(line) == |Join(line)|
  {
    if |line| > 1 {
      WidthIsLength(line[..|line| - 1]);
    }
  }

  /** The layout keeps every token, in order, and no line is empty. */
  lemma {:induction false} LayoutKeepsTokens(ts: seq<string>)
    ensures Flatten(Layout(ts)) == ts
    ensures forall j :: 0 <= j < |Layout(ts)| ==> |Layout(ts)[j]| > 0
  {
    if ts != [] {
      var init := ts[..|ts| - 1];
      LayoutKeepsTokens(init);
      AddTokenKeepsTokens(Layout(init), ts[|ts| - 1]);
      assert ts == init + [ts[|ts| - 1]];
    }
  }

  /** Placing a token appends it to the flattened lines and empties no
      line. */
  lemma AddTokenKeepsTokens(lines: seq<seq<string>>, t: string)
    requires forall j :: 0 <= j < |lines| ==> |lines[j]| > 0
    ensures Flatten(AddToken(lines, t)) == Flatten(lines) + [t]
    ensures forall j :: 0 <= j < |AddToken(lines, t)| ==> |AddToken(lines, t)[j]| > 0
  {
    if LastWidth(lines) == 0 || LastWidth(lines) + |t| >= 80 {
      assert (lines + [[t]])[..|lines|] == lines;
    } else {
      var n := |lines| - 1;
      var lines' := lines[..n] + [lines[n] + [t]];
      assert lines'[..n] == lines[..n];
      assert lines == lines[..n] + [lines[n]];
      assert Flatten(lines) == Flatten(lines[..n]) + lines[n];
    }
  }

  /** Lines of two or more tokens are at most 80 columns wide. */
  predicate JoinedLinesFit(lines: seq<seq<string>>) {
    forall j :: 0 <= j < |lines| && |lines[j]| >= 2 ==> Width(lines[j]) <= 80
  }

  lemma AddTokenFits(lines: seq<seq<string>>, t: string)
    requires JoinedLinesFit(lines)
    ensures JoinedLinesFit(AddToken(lines, t))
  {
    if !(LastWidth(lines) == 0 || LastWidth(lines) + |t| >= 80) {
      var n := |lines| - 1;
      var last := lines[n] + [t];
      assert last[..|last| - 1] == lines[n];
      assert Width(last) == Width(lines[n]) + |t| + 1;
      var lines' := lines[..n] + [last];
      forall j | 0 <= j < |lines'| && |lines'[j]| >= 2
        ensures Width(lines'[j]) <= 80
      {
        if j < n {
          assert lines'[j] == lines[j];
        }
      }
    }
  }

  /** A line holding two or more tokens is at most 80 characters long:
      only a single token longer than that can make a longer line. */
  lemma {:induction false} LayoutWidthBound(ts: seq<string>)
    ensures JoinedLinesFit(Layout(ts))
  {
    if ts != [] {
      LayoutWidthBound(ts[..|ts| - 1]);
      AddTokenFits(Layout(ts[..|ts| - 1]), ts[|ts| - 1]);
    }
  }

  /** Every written movetext line of two or more moves has at most 80
      characters. */
  lemma LineLengthBound(ts: seq<string>, j: int)
    requires 0 <= j < |Layout(ts)| && |Layout(ts)[j]| >= 2
    ensures |Join(Layout(ts)[j])| <= 80
  {
    LayoutWidthBound(ts);
    WidthIsLength(Layout(ts)[j]);
  }

  /** Move numbers in closed form: White-first records number the even
      plies 1, 2, 3, ...; otherwise the first move is 1 and every White
      move after it continues from 2. */
  lemma MoveNumbering(start: Option<Side>, i: nat)
    ensures start == Some(White) ==> (Numbered(start, i) <==> i % 2 == 0)
    ensures start != Some(White) ==> (Numbered(start, i) <==> i == 0 || i % 2 == 1)
    ensures Numbered(start, i) && i > 0 ==> FullMoveNumber(start, i) == FullMoveNumber(start, i - 1) + 1
    ensures FullMoveNumber(start, 0) == 1
  {
  }

  /** How many moves before move i carry a number. */
  function NumberedBefore(start: Option<Side>, i: nat): nat {
    if start == Some(White) then (i + 1) / 2
    else if i == 0 then 0
    else 1 + i / 2
  }

  /** What the movetext loop's counters do at move i. */
  lemma NumberingStep(start: Option<Side>, i: nat)
    ensures SideAt(start, i + 1) == SideAt(start, i).Opposite()
    ensures (SideAt(start, i) == White || i == 0) <==> Numbered(start, i)
    ensures Numbered(start, i) ==> NumberedBefore(start, i) + 1 == FullMoveNumber(start, i)
    ensures NumberedBefore(start, i + 1) == NumberedBefore(start, i) + (if Numbered(start, i) then 1 else 0)
  {
  }

  lemma TagLinesSnoc(tags: Tags, keys: seq<string>, k: string)
    ensures TagLines(tags, keys + [k]) == TagLines(tags, keys) + TagLine(k, Value(tags, k))
  {
    assert (keys + [k])[..|keys|] == keys;
  }

  lemma ExtraKeysSnoc(tags: Tags, keys: seq<string>, k: string)
    ensures ExtraKeys(tags, keys + [k]) ==
      ExtraKeys(tags, keys) + (if k !in Roster && Value(tags, k) != "" then [k] else [])
  {
    assert (keys + [k])[..|keys|] == keys;
  }

  // ---------------------------------------------------------------------
  // The record

  class PgnGame {
    var tags: Tags
    var moves: seq<MoveData>
    var startingSide: Option<Side>

    constructor ()
      ensures tags == map[] && moves == [] && startingSide == Some(White)
    {
      tags := map[];
      moves := [];
      startingSide := Some(White);
    }

    /** isNull: no tags and no moves. */
    function IsNull(): (b: bool)
      reads this
      ensures b <==> |tags| == 0 && |moves| == 0
    {
      tags == map[] && moves == []
    }

    /** clear: no starting side, no tags, no moves. */
    method Clear()
      modifies this
      ensures tags == map[] && moves == [] && startingSide == None
      ensures IsNull()
    {
      startingSide := None;
      tags := map[];
      moves := [];
    }

    /** addMove (the ECO classification it also performs is foreign). */
    method AddMove(data: MoveData)
      modifies this`moves
      ensures moves == old(moves) + [data]
    {
      moves := moves + [data];
    }

    function TagValue(tag: string): (v: string)
      reads this
      ensures tag !in tags ==> v == ""
      ensures tag in tags ==> v == tags[tag]
    {
      Value(tags, tag)
    }

    method SetTag(tag: string, value: string)
      modifies this`tags
      ensures tags == PutTag(old(tags), tag, value)
      ensures TagValue(tag) == value
    {
      if value == "" {
        tags := tags - {tag};
      } else {
        tags := tags[tag := value];
      }
    }

    function Event(): (v: string)
      reads this
      ensures v == Value(tags, "Event")
    {
      TagValue("Event")
    }

    function Site(): (v: string)
      reads this
      ensures v == Value(tags, "Site")
    {
      TagValue("Site")
    }

    /** setEvent and setSite store even an empty value. */
    method SetEvent(event: string)
      modifies this`tags
      ensures tags == old(tags)["Event" := event]
    {
      tags := tags["Event" := event];
    }

    method SetSite(site: string)
      modifies this`tags
      ensures tags == old(tags)["Site" := site]
    {
      tags := tags["Site" := site];
    }

    function Round(): (n: int)
      reads this
      ensures n == RoundOf(tags)
    {
      RoundOf(tags)
    }

    method SetRound(round: int)
      modifies this`tags
      ensures tags == old(tags)["Round" := IntToString(round)]
      ensures Round() == round
    {
      tags := tags["Round" := IntToString(round)];
      RoundRoundTrip(old(tags), round);
    }

    function PlayerName(side: Side): (name: string)
      reads this
      ensures name == Value(tags, if side == White then "White" else "Black")
    {
      if side == White then TagValue("White") else TagValue("Black")
    }

    method SetPlayerName(side: Side, name: string)
      modifies this`tags
      ensures tags == old(tags)[(if side == White then "White" else "Black") := name]
      ensures PlayerName(side) == name
    {
      if side == White {
        tags := tags["White" := name];
      } else {
        tags := tags["Black" := name];
      }
    }

    method SetResult(result: GameResult)
      modifies this`tags
      ensures tags == PutResult(old(tags), result)
    {
      tags := tags["Result" := result.ShortString()];
      var t := TerminationOf(TypeOf(result));
      if t.Some? {
        tags := tags["Termination" := t.value];
      } else {
        tags := tags - {"Termination"};
      }
    }

    function Variant(): (v: string)
      reads this
      ensures v == VariantOf(tags)
    {
      if "Variant" in tags then tags["Variant"] else "standard"
    }

    method SetVariant(variant: string)
      modifies this`tags
      ensures tags == PutVariant(old(tags), variant)
      ensures Variant() == variant
    {
      if variant == "standard" {
        tags := tags - {"Variant"};
      } else {
        tags := tags["Variant" := variant];
      }
    }

    /** A standard game: standard variant and no FEN tag. */
    function IsStandard(): (b: bool)
      reads this
      ensures b <==> VariantOf(tags) == "standard" && "FEN" !in tags
    {
      Variant() == "standard" && "FEN" !in tags
    }

    function StartingFenString(): (fen: string)
      reads this
      ensures fen == Value(tags, "FEN")
    {
      TagValue("FEN")
    }

    method SetStartingSide(side: Side)
      modifies this`startingSide
      ensures startingSide == Some(side)
    {
      startingSide := Some(side);
    }

    method SetStartingFenString(side: Side, fen: string)
      modifies this`startingSide, this`tags
      ensures startingSide == Some(side)
      ensures tags == PutStartingFen(old(tags), fen)
      ensures StartingFenString() == fen
    {
      startingSide := Some(side);
      if fen == "" {
        tags := tags - {"FEN"};
        tags := tags - {"SetUp"};
      } else {
        tags := tags["FEN" := fen];
        tags := tags["SetUp" := "1"];
      }
    }

    method SetResultDescription(description: string)
      modifies this`moves
      ensures moves == AppendDescription(old(moves), description)
    {
      if description == "" || moves == [] {
        return;
      }
      var last := moves[|moves| - 1];
      var comment := last.comment;
      if comment != "" {
        comment := comment + ", ";
      }
      comment := comment + description;
      assert comment == if last.comment == "" then description else last.comment + ", " + description;
      moves := moves[..|moves| - 1] + [last.(comment := comment)];
    }

    /** read(in, maxMoves) over the stream's remaining tokens; `hasGame` is
        the answer of the stream's nextGame. */
    method Read(br: BoardRules, streamVariant: string, hasGame: bool, ts: seq<Token>, maxMoves: int)
      returns (ok: bool)
      modifies this
      ensures var (ok', st) := ReadGame(br, streamVariant, hasGame, ts, maxMoves);
        ok == ok' && tags == st.tags && moves == st.moves && startingSide == st.startingSide
    {
      Clear();
      ghost var st0 := ReadState(map[], [], None, PgnBoard(streamVariant, "", []));
      if !hasGame {
        return false;
      }
      var board := PgnBoard(streamVariant, "", []);
      var i := 0;
      while i < |ts|
        invariant 0 <= i <= |ts|
        invariant ReadFold(br, maxMoves, ReadState(tags, moves, startingSide, board), ts[i..]) ==
                  ReadFold(br, maxMoves, st0, ts)
      {
        var st := ReadState(tags, moves, startingSide, board);
        var (st1, stop) := ReadStep(br, maxMoves, st, ts[i]);
        tags, moves, startingSide, board := st1.tags, st1.moves, st1.startingSide, st1.board;
        if stop {
          assert ReadFold(br, maxMoves, st, ts[i..]) == st1;
          break;
        }
        assert ts[i..][1..] == ts[i + 1..];
        i := i + 1;
      }
      if tags == map[] {
        return false;
      }
      tags := tags["PlyCount" := IntToString(|moves|)];
      ok := true;
    }

    /** write(out, mode), returning the text written. */
    method Write(mode: PgnMode) returns (out: string)
      ensures out == Render(tags, moves, startingSide, mode)
    {
      if tags == map[] {
        return "";
      }
      var header := WriteTags(tags, mode);
      var text, lineLength := WriteMovetext(moves, startingSide, mode);
      out := header + text + ResultText(lineLength, Value(tags, "Result"));
    }
  }

  /** The tag section of write: the roster, then the extra tags of the
      mode. */
  method WriteTags(tags: Tags, mode: PgnMode) returns (out: string)
    ensures out == Header(tags, mode)
  {
    out := WriteTagList(tags, Roster);
    if mode == Verbose {
      var extra := WriteExtraTags(tags, SortedKeys(tags.Keys));
      out := out + extra;
    } else if "FEN" in tags {
      var setup := WriteTagList(tags, ["FEN", "SetUp"]);
      out := out + setup;
    }
  }

  /** writeTag for each of the given tags in turn. */
  method WriteTagList(tags: Tags, keys: seq<string>) returns (out: string)
    ensures out == TagLines(tags, keys)
  {
    out := "";
    for i := 0 to |keys|
      invariant out == TagLines(tags, keys[..i])
    {
      TagLinesSnoc(tags, keys[..i], keys[i]);
      assert keys[..i + 1] == keys[..i] + [keys[i]];
      out := out + TagLine(keys[i], Value(tags, keys[i]));
    }
    assert keys[..|keys|] == keys;
  }

  /** The Verbose loop over the keys in map order, skipping roster tags
      and empty values. */
  method WriteExtraTags(tags: Tags, ks: seq<string>) returns (extra: string)
    ensures extra == TagLines(tags, ExtraKeys(tags, ks))
  {
    extra := "";
    for j := 0 to |ks|
      invariant extra == TagLines(tags, ExtraKeys(tags, ks[..j]))
    {
      var k := ks[j];
      assert ks[..j + 1] == ks[..j] + [k];
      ExtraKeysSnoc(tags, ks[..j], k);
      var value := if k in tags then tags[k] else "";
      assert value == Value(tags, k);
      if k !in Roster && value != "" {
        TagLinesSnoc(tags, ExtraKeys(tags, ks[..j]), k);
        assert ExtraKeys(tags, ks[..j + 1]) == ExtraKeys(tags, ks[..j]) + [k];
        extra := extra + TagLine(k, value);
      } else {
        assert ExtraKeys(tags, ks[..j]) + [] == ExtraKeys(tags, ks[..j]);
      }
    }
    assert ks[..|ks|] == ks;
  }

  /** The movetext loop of write: each move's token, numbered where due,
      placed by the 80-column rule; also the final line length. */
  method WriteMovetext(moves: seq<MoveData>, start: Option<Side>, mode: PgnMode)
    returns (text: string, lineLength: int)
    ensures text == LinesText(Layout(MoveTokens(moves, start, mode)))
    ensures lineLength == LastWidth(Layout(MoveTokens(moves, start, mode)))
  {
    ghost var ts := MoveTokens(moves, start, mode);
    ghost var lines: seq<seq<string>> := [];
    text := "";
    lineLength := 0;
    var movenum := 0;
    var side := if start == Some(White) then White else Black;
    for i := 0 to |moves|
      invariant side == SideAt(start, i)
      invariant movenum == NumberedBefore(start, i)
      invariant lines == Layout(ts[..i])
      invariant text == LinesText(lines)
      invariant lineLength == LastWidth(lines)
    {
      var str;
      str, movenum := NextToken(start, i, side, movenum, moves[i], mode);
      NumberingStep(start, i);
      LayoutSnoc(ts, i);
      AddTokenText(lines, str);
      lines := AddToken(lines, str);
      if lineLength == 0 || lineLength + |str| >= 80 {
        text := text + "\n" + str;
        lineLength := |str|;
      } else {
        text := text + " " + str;
        lineLength := lineLength + |str| + 1;
      }
      side := side.Opposite();
    }
    assert ts[..|moves|] == ts;
  }

  /** One move's token in the movetext loop, advancing the move number
      when the move is numbered. */
  method NextToken(start: Option<Side>, i: nat, side: Side, movenum: int, data: MoveData, mode: PgnMode)
    returns (str: string, movenum': int)
    requires side == SideAt(start, i) && movenum == NumberedBefore(start, i)
    ensures str == MoveToken(start, i, data, mode)
    ensures movenum' == NumberedBefore(start, i + 1)
  {
    NumberingStep(start, i);
    var prefix := "";
    movenum' := movenum;
    if side == White || i == 0 {
      movenum' := movenum + 1;
      prefix := IntToString(movenum') + ". ";
    }
    var text := data.moveString;
    if mode == Verbose && data.comment != "" {
      text := text + " {" + data.comment + "}";
    }
    assert text == MoveText(data, mode);
    str := prefix + text;
  }

  lemma LayoutSnoc(ts: seq<string>, i: nat)
    requires i < |ts|
    ensures Layout(ts[..i + 1]) == AddToken(Layout(ts[..i]), ts[i])
  {
    assert ts[..i + 1][..i] == ts[..i];
  }

  /** Adding one token to the layout: the text grows by a newline or a
      space and the token, and the current line's width follows. */
  lemma AddTokenText(lines: seq<seq<string>>, t: string)
    ensures var lines' := AddToken(lines, t);
      if LastWidth(lines) == 0 || LastWidth(lines) + |t| >= 80 then
        LinesText(lines') == LinesText(lines) + "\n" + t && LastWidth(lines') == |t|
      else
        LinesText(lines') == LinesText(lines) + " " + t && LastWidth(lines') == LastWidth(lines) + |t| + 1
  {
    if LastWidth(lines) == 0 || LastWidth(lines) + |t| >= 80 {
      assert (lines + [[t]])[..|lines|] == lines;
    } else {
      var n := |lines| - 1;
      var last := lines[n] + [t];
      var lines' := lines[..n] + [last];
      assert lines'[..n] == lines[..n];
      assert last[..|last| - 1] == lines[n];
      assert Join(last) == Join(lines[n]) + " " + t;
      assert LinesText(lines) == LinesText(lines[..n]) + "\n" + Join(lines[n]);
    }
  }
}
