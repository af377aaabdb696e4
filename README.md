# Cute Chess match runner, modelled in Dafny

This project models the sequential, event-driven core of the Cute Chess
match runner and proves properties of it. The core consists of:

- **Game adjudicator** (`Adjudication`): after every move it applies the
  tablebase rule, the TCEC draw rule and the TCEC win (resign) rule to the
  engines' evaluations, in that order.
- **Game session** (`Session`): two player slots, a board, and the
  in-progress flag. It covers the readiness barrier (`syncPlayers`),
  starting a game and replaying its forced opening, accepting or discarding
  moves, forfeits, ending the game, and building an opening line from a book.
- **Evaluation comment** (`EvalComment`): the PGN comment the session
  attaches to an engine's move.
- **Engine match** (`Match`): the command-line scheduler. It registers two
  engines, initializes them, alternates colours, picks each game's opening
  (override, book or PGN file), tallies the score, and decides whether
  another game follows.
- **PGN record** (`Pgn`): the tag map with its setters and getters, `read`
  over a token stream, and `write` with the seven-tag roster and movetext
  wrapped at 80 columns.
- **Gauntlet pairing** (`Gauntlet`): player 0 meets every other player in
  turn.

Shared vocabulary lives in `Chess`: sides, results, evaluations, and an
abstract board. `Text` holds decimal strings and the key order of a `QMap`.

Objects whose fields the source updates in place are classes. Each method
is proved against a specification function of the old state
(`ensures State() == XSpec(old(State()), …)`). The properties the source
promises are proved as lemmas about those functions.

The chess rules themselves are foreign code: legality, repetition, results,
FEN parsing and the side to move. They enter as the function values of
`Chess.Rules`. A position is a FEN plus the moves played on it. The side to
move alternates from the FEN's starting side.

Qt signals and slots become explicit state and an event log:

- The calls made on the players and the signals emitted are appended to
  the log.
- The ready signals connected to `syncPlayers` are a set of sides.
- `start` being connected to `playersReady` is a flag.
- The queued `playersReady → gameEnded` connections are a count.
- Deliveries of `gameEnded` that are pending in the event loop are a
  counter, drained by `ProcessQueuedEvent`.

## Model

| member | source | states |
|---|---|---|
| Chess.SideToMoveAfter | projects/lib/src/chessgame.cpp:41-53 | after one more move the side to move is the other side, so the player to move and the player to wait swap |
| Text.IntToStringRoundTrip | projects/lib/src/pgngame.cpp:393-396 | the decimal text written for an integer parses back to that integer |
| Text.SortedKeys | projects/lib/src/pgngame.cpp:243-248 | a map's keys are visited once each, in strictly increasing string order, as a QMap iterates them |
| EvalComment.CommentRoundTrip | projects/lib/src/chessgame.cpp:83-102 | the move comment determines the evaluation's meaning: an empty evaluation gives an empty comment; otherwise the comment carries score and depth exactly when depth > 0, plus the time rounded to whole seconds |
| EvalComment.PawnsRoundTrip | projects/lib/src/chessgame.cpp:91-94 | the score printed in pawns to two decimals, with "+" before a positive score, is exactly the centipawn score |
| Adjudication.GameAdjudicator.constructor | projects/lib/src/gameadjudicator.cpp:22-33 | all thresholds and counters start at zero, tablebases are off, and there is no result |
| Adjudication.GameAdjudicator.SetDrawThreshold | projects/lib/src/gameadjudicator.cpp:35-44 | stores the draw thresholds and zeroes the draw counter, changing nothing else |
| Adjudication.GameAdjudicator.SetResignThreshold | projects/lib/src/gameadjudicator.cpp:46-54 | stores the resign thresholds and zeroes both sides' resign counters, changing nothing else |
| Adjudication.GameAdjudicator.SetTablebaseAdjudication | projects/lib/src/gameadjudicator.cpp:56-59 | only the tablebase switch changes |
| Adjudication.GameAdjudicator.AddEval | projects/lib/src/gameadjudicator.cpp:61-110 | the new state is one step of the rules, crediting the evaluation to the mover (the side not to move after the move) |
| Adjudication.GameAdjudicator.ResetDrawMoveCount | projects/lib/src/gameadjudicator.cpp:112-115 | only the draw counter changes, to zero |
| Adjudication.GameAdjudicator.Result | projects/lib/src/gameadjudicator.cpp:117-120 | returns the cached result |
| Adjudication.StepKeepsSettings | projects/lib/src/gameadjudicator.cpp:61-110 | addEval never changes a threshold or the tablebase switch |
| Adjudication.TablebaseFirst | projects/lib/src/gameadjudicator.cpp:66-71 | with tablebases on, a decisive tablebase verdict becomes the result and nothing else changes; a non-decisive one overwrites the result, which afterwards is that verdict or a rule's result |
| Adjudication.ForcedMoveResets | projects/lib/src/gameadjudicator.cpp:74-79 | a move with depth ≤ 0 zeroes the draw counter and the mover's resign counter, keeps the other side's counter, and decides nothing |
| Adjudication.DrawCounterRule | projects/lib/src/gameadjudicator.cpp:82-87 | with the draw rule on, the draw counter grows when abs(score) ≤ drawScore and is zeroed otherwise |
| Adjudication.DrawRuleExactly | projects/lib/src/gameadjudicator.cpp:66-94 | with no decisive tablebase verdict (tablebases off, or on with a non-decisive lookup), the draw is adjudicated exactly when plyCount/2 ≥ drawMoveNum (C division) and the counter is ≥ 2·drawMoveCount; it then returns before the resign rule, and otherwise the result is the carried-over one or a resignation |
| Adjudication.ResignRule | projects/lib/src/gameadjudicator.cpp:66-109 | with no decisive tablebase verdict and whenever the draw rule does not return first (it may be enabled), the mover's resign counter grows on score ≤ resignScore and resets otherwise; reaching resignMoveCount awards the win to the mover's opponent, else the result is the carried-over one |
| Adjudication.InertWithoutRules | projects/lib/src/gameadjudicator.cpp:61-110 | with both thresholds 0 and tablebases off, addEval never changes the result |
| Adjudication.RunKeepsSettings | projects/lib/src/gameadjudicator.cpp:61-110 | a whole sequence of addEval calls keeps the settings |
| Adjudication.DrawCountIsTrailingRun | projects/lib/src/gameadjudicator.cpp:66-87 | with no decisive tablebase verdict along the run (tablebases may be on), the draw counter is the length of the current run of qualifying evaluations |
| Adjudication.DrawCountStep | projects/lib/src/gameadjudicator.cpp:66-87 | one call without a decisive tablebase verdict grows the draw counter on a qualifying evaluation and zeroes it otherwise |
| Adjudication.ResignCountIsTrailingRun | projects/lib/src/gameadjudicator.cpp:66-106 | with no decisive tablebase verdict and as long as the draw rule never fires, a side's resign counter is the length of the current run of its own losing evaluations; the opponent's moves do not affect it |
| Adjudication.ResignCountStep | projects/lib/src/gameadjudicator.cpp:66-106 | one call without a decisive verdict or a draw grows a side's resign counter on its own losing move, zeroes it on its other moves, and leaves it alone on the opponent's |
| Adjudication.DrawAfterConsecutiveQualifying | projects/lib/src/gameadjudicator.cpp:66-109 | from fresh counters, with no decisive tablebase verdict and, when the resign rule is on, no evaluation at or below the resign score, 2·drawMoveCount qualifying evaluations past the move number leave the game undecided until the last one, which draws |
| Adjudication.ResignAfterConsecutiveLosing | projects/lib/src/gameadjudicator.cpp:66-109 | with no decisive tablebase verdict and no draw adjudicated along the way, resignMoveCount losing evaluations of one side award the game to its opponent at that side's last one |
| Gauntlet.GauntletTournament.constructor | projects/lib/src/gauntlettournament.cpp:23-28 | the next opponent starts at -1 |
| Gauntlet.GauntletTournament.Type | projects/lib/src/gauntlettournament.cpp:30-33 | the type is "gauntlet" |
| Gauntlet.GauntletTournament.GetPairings | projects/lib/src/gauntlettournament.cpp:35-40 | no pairings are listed |
| Gauntlet.GauntletTournament.OnGameAboutToStart | projects/lib/src/gauntlettournament.cpp:42-50 | the game about to start is marked flipped when White is not human and Black is player 0, keeps its own flag otherwise, and the tournament is unchanged |
| Gauntlet.GauntletTournament.InitializePairing | projects/lib/src/gauntlettournament.cpp:52-55 | the next opponent is player 1 |
| Gauntlet.GauntletTournament.GamesPerCycle | projects/lib/src/gauntlettournament.cpp:57-60 | a cycle has one game per player other than player 0 |
| Gauntlet.GauntletTournament.NextPair | projects/lib/src/gauntlettournament.cpp:62-79 | the result and the new opponent/round are one step of the pairing rule |
| Gauntlet.GauntletTournament.HasGauntletRatingsOrder | projects/lib/src/gauntlettournament.cpp:81-84 | always true |
| Gauntlet.NoPairAfterFinalGame | projects/lib/src/gauntlettournament.cpp:64-65 | from the final game on, nothing is paired and the state is unchanged |
| Gauntlet.SamePairWithinEncounter | projects/lib/src/gauntlettournament.cpp:66-67 | inside an encounter the current pair is reused and the state is unchanged |
| Gauntlet.NewEncounter | projects/lib/src/gauntlettournament.cpp:69-78 | a new encounter pairs (0, opponent) and advances the opponent; past the last player it wraps to 1 and the round grows by 1 |
| Gauntlet.GauntletSchedule | projects/lib/src/gauntlettournament.cpp:62-79 | from initializePairing, the game opening encounter e pairs player 0 with player 1 + e mod (n−1) in round r0 + e div (n−1), so player 0 meets every other player once per round and never itself |
| Gauntlet.StateAfterGames | projects/lib/src/gauntlettournament.cpp:62-79 | before each game, the pairing state is a closed form of the number of encounters started |
| Pgn.SetTagRoundTrip | projects/lib/src/pgngame.cpp:370-376 | an empty value removes the tag, any other is stored; tagValue then returns the value ("" if absent), and other tags are unchanged |
| Pgn.VariantRoundTrip | projects/lib/src/pgngame.cpp:430-436 | variant() returns what setVariant stored; "standard" is stored as the absence of the tag |
| Pgn.StartingFenRoundTrip | projects/lib/src/pgngame.cpp:443-456 | a non-empty FEN sets FEN and SetUp "1", an empty one removes both, and startingFenString returns the FEN given |
| Pgn.ResultTags | projects/lib/src/pgngame.cpp:406-428 | the Result tag is the short result; Termination is "adjudication", "time forfeit", "abandoned" or "unterminated" for the four abnormal types and is removed otherwise |
| Pgn.RoundRoundTrip | projects/lib/src/pgngame.cpp:333-336 | round() reads back the number setRound wrote |
| Pgn.DescriptionAppended | projects/lib/src/pgngame.cpp:458-467 | no change for an empty description or no moves; otherwise the description goes at the end of the last move's comment, after ", " only if that comment was non-empty |
| Pgn.ReadBounded | projects/lib/src/pgngame.cpp:175-177 | a read game never holds more than maxMoves moves (at least one move is always taken) |
| Pgn.ReadOutcome | projects/lib/src/pgngame.cpp:160-218 | read fails without a next game or without tags; on success PlyCount is the number of moves |
| Pgn.ResultTokenEnds | projects/lib/src/pgngame.cpp:182-193 | a result token overwrites the Result tag and ends reading |
| Pgn.CommentOnLastMove | projects/lib/src/pgngame.cpp:178-181 | a comment is appended to the last move's comment and dropped when there is no move |
| Pgn.MoveRecordedOnlyIfLegal | projects/lib/src/pgngame.cpp:100-158 | a move is recorded, with an empty comment, only if the game has tags and the move is legal on the board as set up |
| Pgn.WriteSections | projects/lib/src/pgngame.cpp:228-254 | nothing is written for an untagged game; otherwise the roster, then the mode's extra tags (Minimal: FEN and SetUp only when FEN is present), then the movetext and the result |
| Pgn.RosterLines | projects/lib/src/pgngame.cpp:233-238 | the seven roster tags are written in the order Event, Site, Date, Round, White, Black, Result, with "?" for an empty value |
| Pgn.VerboseExtraTags | projects/lib/src/pgngame.cpp:241-248 | Verbose mode writes each non-empty tag outside the roster exactly once, in increasing key order |
| Pgn.LayoutKeepsTokens | projects/lib/src/pgngame.cpp:261-286 | the movetext lines hold every move token in order, and no line is empty |
| Pgn.AddTokenKeepsTokens | projects/lib/src/pgngame.cpp:273-283 | placing one token, on the current line or a new one, appends it to the tokens and empties no line |
| Pgn.LineLengthBound | projects/lib/src/pgngame.cpp:273-283 | a movetext line of two or more tokens has at most 80 characters |
| Pgn.MoveNumbering | projects/lib/src/pgngame.cpp:264-267 | a move number precedes the first move and every White move, counting up from 1 |
| Pgn.NumberingStep | projects/lib/src/pgngame.cpp:258-285 | at each move the side flips and the move counter advances exactly on numbered moves |
| Pgn.PgnGame.IsNull | projects/lib/src/pgngame.cpp:44-47 | a game is null iff it has no tags and no moves |
| Pgn.PgnGame.constructor | projects/lib/src/pgngame.cpp:38-42 | a new record has no tags and no moves, with White to start |
| Pgn.PgnGame.Clear | projects/lib/src/pgngame.cpp:49-55 | clear empties tags and moves, clears the starting side, and leaves the game null |
| Pgn.PgnGame.AddMove | projects/lib/src/pgngame.cpp:62-73 | appends exactly the given move |
| Pgn.PgnGame.TagValue | projects/lib/src/pgngame.cpp:313-316 | the stored value, or "" for an absent tag |
| Pgn.PgnGame.SetTag | projects/lib/src/pgngame.cpp:370-376 | the tag map after setTag, after which tagValue returns the value |
| Pgn.PgnGame.Event | projects/lib/src/pgngame.cpp:318-321 | the Event tag, "" when absent |
| Pgn.PgnGame.Site | projects/lib/src/pgngame.cpp:323-326 | the Site tag, "" when absent |
| Pgn.PgnGame.SetEvent | projects/lib/src/pgngame.cpp:378-381 | stores the Event tag, even an empty one, and nothing else |
| Pgn.PgnGame.SetSite | projects/lib/src/pgngame.cpp:383-386 | stores the Site tag, even an empty one, and nothing else |
| Pgn.PgnGame.Round | projects/lib/src/pgngame.cpp:333-336 | the Round tag as an integer |
| Pgn.PgnGame.SetRound | projects/lib/src/pgngame.cpp:393-396 | stores the round's decimal text, which round() reads back |
| Pgn.PgnGame.PlayerName | projects/lib/src/pgngame.cpp:338-346 | the White or Black tag of the side |
| Pgn.PgnGame.SetPlayerName | projects/lib/src/pgngame.cpp:398-404 | stores the name under White or Black, which playerName reads back |
| Pgn.PgnGame.SetResult | projects/lib/src/pgngame.cpp:406-428 | the tags after setResult |
| Pgn.PgnGame.Variant | projects/lib/src/pgngame.cpp:353-358 | the Variant tag, or "standard" when absent |
| Pgn.PgnGame.SetVariant | projects/lib/src/pgngame.cpp:430-436 | the tags after setVariant, after which variant() returns the value |
| Pgn.PgnGame.IsStandard | projects/lib/src/pgngame.cpp:308-311 | standard iff the variant is standard and there is no FEN tag |
| Pgn.PgnGame.StartingFenString | projects/lib/src/pgngame.cpp:365-368 | the FEN tag, "" when absent |
| Pgn.PgnGame.SetStartingSide | projects/lib/src/pgngame.cpp:438-441 | only the starting side changes |
| Pgn.PgnGame.SetStartingFenString | projects/lib/src/pgngame.cpp:443-456 | sets the starting side and the FEN/SetUp tags; startingFenString reads the FEN back |
| Pgn.PgnGame.SetResultDescription | projects/lib/src/pgngame.cpp:458-467 | the moves after appending the description |
| Pgn.PgnGame.Read | projects/lib/src/pgngame.cpp:160-218 | the read loop yields the tags, moves and result of the read specification |
| Pgn.PgnGame.Write | projects/lib/src/pgngame.cpp:228-292 | the text written is the rendering of tags and movetext that the lemmas above describe |
| Pgn.WriteTags | projects/lib/src/pgngame.cpp:233-254 | the tag section is the roster followed by the mode's extra tags |
| Pgn.WriteTagList | projects/lib/src/pgngame.cpp:220-226 | writes one tag line per key, in order |
| Pgn.WriteExtraTags | projects/lib/src/pgngame.cpp:241-249 | the Verbose loop writes exactly the tag lines of the keys outside the roster with non-empty values |
| Pgn.WriteMovetext | projects/lib/src/pgngame.cpp:256-286 | the movetext loop writes the layout of the numbered move tokens and ends with the length of the last line |
| Pgn.NextToken | projects/lib/src/pgngame.cpp:263-272 | one move's token, with its number when due, and the advanced move counter |
| Session.SyncFiresIffReady | projects/lib/src/chessgame.cpp:194-228 | playersReady is emitted iff both players are ready; generic mode subscribes every unready player, sender mode unsubscribes the sender, and ignoreSender turns a sender call into generic mode |
| Session.BarrierFiresOnce | projects/lib/src/chessgame.cpp:194-228 | after a generic sync, in any order of ready signals, playersReady fires exactly once if every unready player reports, and never otherwise |
| Session.EndGameOnce | projects/lib/src/chessgame.cpp:55-67 | endGame does nothing unless a game is in progress; otherwise it clears the flag, tells each player the result once, leaves each player as ready as its own endGame makes it, queues one more gameEnded connection, and emits playersReady iff both players are ready after those calls |
| Session.StartWaitsForPlayers | projects/lib/src/chessgame.cpp:230-239 | start resets the result; with a player not ready it only subscribes and waits, and the game is not in progress |
| Session.StartRejectsUnsupportedVariant | projects/lib/src/chessgame.cpp:241-257 | if a player lacks the variant, the result becomes ResultError and the game ends (playersReady only if both players are ready after endGame) before the board is set or any player is told of a new game |
| Session.StartPlaysOpening | projects/lib/src/chessgame.cpp:259-283 | a started game is in progress, with the board set from the FEN, the forced moves played, one "book" comment per forced move, and the player to move told to go |
| Session.ReplayShape | projects/lib/src/chessgame.cpp:270-280 | each forced move is sent as a book move to the mover and as a move to the waiter, then announced, in order |
| Session.MoveFromWaiterDiscarded | projects/lib/src/chessgame.cpp:76-80 | a move from the player not on turn changes nothing |
| Session.MoveAccepted | projects/lib/src/chessgame.cpp:82-114 | an accepted move appends one move and its evaluation comment and adopts the board's result; the opponent is told to go if there is no result, otherwise the game ends; moveMade comes last |
| Session.ForfeitEnds | projects/lib/src/chessgame.cpp:116-123 | onForfeit does nothing outside a game; in one it adopts the result and ends the game |
| Session.SetFenKeepsOnFailure | projects/lib/src/chessgame.cpp:147-153 | setFenString succeeds iff the board accepts the FEN; on failure nothing changes |
| Session.BookLineSound | projects/lib/src/chessgame.cpp:155-172 | the opening line has at most maxMoves moves, each the book's choice and legal and non-repeating at its position, and stops early only at a book move that is not |
| Session.EndGameKeepsValid | projects/lib/src/chessgame.cpp:55-67 | endGame and onForfeit keep the session invariant |
| Session.MoveKeepsValid | projects/lib/src/chessgame.cpp:69-114 | onMoveMade keeps the session invariant |
| Session.BoardSetupKeepsValid | projects/lib/src/chessgame.cpp:147-172 | setFenString and setOpeningBook keep the session invariant, so setBoard's fatal error cannot happen |
| Session.StartKeepsValid | projects/lib/src/chessgame.cpp:230-283 | start, called with no game in progress, keeps the session invariant |
| Session.AgentReadyKeepsValid | projects/lib/src/chessgame.cpp:194-228 | a player's ready signal, and the start it may trigger, keep the session invariant |
| Session.BeginKeepsValid | projects/lib/src/chessgame.cpp:241-283 | beginning a game with both players seated keeps the session invariant |
| Session.ReplayMoves | projects/lib/src/chessgame.cpp:270-280 | the replay loop ends on the position after all forced moves, with the replay's events and one "book" comment per move |
| Session.ChessGame.constructor | projects/lib/src/chessgame.cpp:26-34 | two empty player slots, no game in progress, and the variant's starting position |
| Session.ChessGame.PlayerOf | projects/lib/src/chessgame.h:67-68 | the player in the slot of a side |
| Session.ChessGame.PlayerToMove | projects/lib/src/chessgame.cpp:41-46 | the player to move is the one who waits once it has moved |
| Session.ChessGame.PlayerToWait | projects/lib/src/chessgame.cpp:48-53 | the waiting player is the one to move once a move is made |
| Session.ChessGame.ArePlayersReady | projects/lib/src/chessgame.cpp:189-192 | true iff no player is unready |
| Session.ChessGame.SetPlayer | projects/lib/src/chessgame.cpp:134-145 | only the side's slot changes |
| Session.ChessGame.SyncPlayers | projects/lib/src/chessgame.cpp:194-228 | subscriptions and emission follow the sync specification; ignoreSender defaults to false |
| Session.ChessGame.EndGame | projects/lib/src/chessgame.cpp:55-67 | the state after endGame, with readiness read after the players' endGame calls, keeping the invariant |
| Session.ChessGame.MarkEnded | projects/lib/src/chessgame.cpp:60-65 | the game is no longer in progress, White then Black are told the result and take the readiness their endGame leaves them in, and one more queued gameEnded connection exists |
| Session.ChessGame.EmitPlayersReady | projects/lib/src/chessgame.cpp:227 | playersReady is logged and queues one gameEnded delivery per queued connection |
| Session.ChessGame.SetBoard | projects/lib/src/chessgame.cpp:180-187 | an empty FEN becomes the variant's starting FEN, and the board is set to it |
| Session.ChessGame.PlayersSupportVariant | projects/lib/src/chessgame.cpp:242-250 | true iff both players support the session's variant |
| Session.ChessGame.Begin | projects/lib/src/chessgame.cpp:241-283 | the part of start that runs with both players ready: an unsupported variant ends the game with an error, otherwise the game is launched |
| Session.ChessGame.Launch | projects/lib/src/chessgame.cpp:259-283 | sets the board, tells the players of a new game, replays the forced moves and tells the player to move to go |
| Session.ChessGame.NewGameForPlayers | projects/lib/src/chessgame.cpp:261-268 | records the players' names and time controls and tells White, then Black, of a new game |
| Session.ChessGame.ReplayOpening | projects/lib/src/chessgame.cpp:270-280 | plays every forced move on the board, each with a "book" comment and the events of the replay |
| Session.ChessGame.TellToGo | projects/lib/src/chessgame.cpp:109 | the player to move on the current board is told to go, and nothing else changes |
| Session.ChessGame.Start | projects/lib/src/chessgame.cpp:230-283 | the state and outcome of start |
| Session.ChessGame.OnMoveMade | projects/lib/src/chessgame.cpp:69-114 | the state after a move from a player |
| Session.ChessGame.RecordMove | projects/lib/src/chessgame.cpp:83-107 | the comment and the move are recorded, the waiting player is sent the move, the board plays it and its result is adopted |
| Session.ChessGame.MakeMove | projects/lib/src/chessgame.cpp:105-107 | the board plays the move and the session takes the board's result, nothing else changes |
| Session.ChessGame.AnnounceMove | projects/lib/src/chessgame.cpp:113 | moveMade is logged and nothing else changes |
| Session.ChessGame.OnForfeit | projects/lib/src/chessgame.cpp:116-123 | the state after a forfeit |
| Session.ChessGame.SetFenString | projects/lib/src/chessgame.cpp:147-153 | the state and success of setFenString |
| Session.ChessGame.SetOpeningBook | projects/lib/src/chessgame.cpp:155-172 | the moves become the book line from the starting position, with a cap defaulting to 1000 |
| Session.ChessGame.PlayBookLine | projects/lib/src/chessgame.cpp:161-171 | the loop plays exactly the book line from the freshly set board |
| Session.ChessGame.SetOpeningMoves | projects/lib/src/chessgame.cpp:174-178 | only the forced moves change |
| Session.ChessGame.ProcessQueuedEvent | projects/lib/src/chessgame.cpp:65 | a queued gameEnded, if any, is delivered once; otherwise nothing changes |
| Session.ChessGame.AgentReady | projects/lib/src/chessgame.cpp:194-232 | a player's ready signal runs syncPlayers if connected, and start if both are ready and start is waiting |
| Session.ChessGame.SetReady | projects/lib/src/chessgame.cpp:189-192 | only the side's player's ready flag, which isReady reports, changes |
| Match.AddEngineRule | projects/cli/src/enginematch.cpp:53-66 | a third engine or an empty command is ignored; an accepted engine starts with zero wins |
| Match.BookDepthRule | projects/cli/src/enginematch.cpp:68-76 | a depth ≤ 0 is refused and the previous one kept, so the depth stays positive |
| Match.InitFromOutcome | projects/cli/src/enginematch.cpp:155-202 | the engine loop succeeds iff every engine has a valid time control and starts; it keeps every command and time control, and on success every engine has zero wins |
| Match.InitFromFailure | projects/cli/src/enginematch.cpp:155-189 | a failed loop stopped at an engine that failed: the engines before it have zero wins, it has zero wins only if its time control was valid, and the engines after it are untouched |
| Match.StartEngines | projects/cli/src/enginematch.cpp:155-202 | the loop over the engines ends with the engines and the success the engine-loop specification gives |
| Match.InitializeOutcome | projects/cli/src/enginematch.cpp:139-206 | with fewer than two engines it fails and changes nothing; otherwise it resets game index and draw count, and succeeds iff every engine is valid and starts, leaving all wins at zero |
| Match.ColoursAlternate | projects/cli/src/enginematch.cpp:276-285 | engine 0 is White in even-numbered games and Black in odd ones |
| Match.OpeningPriority | projects/cli/src/enginematch.cpp:289-305 | a pending FEN/move override wins and is cleared; else the book; else the PGN input |
| Match.PgnReadAndRewind | projects/cli/src/enginematch.cpp:306-319 | the next PGN game is read while one is left; after an earlier success, an exhausted file is rewound once and reread; the counter counts loads |
| Match.RepeatOpeningReplays | projects/cli/src/enginematch.cpp:321-325 | with repeatOpening, an even-numbered game's opening becomes the next game's override, played with colours reversed |
| Match.GameTally | projects/cli/src/enginematch.cpp:217-268 | a draw adds a draw, otherwise only the engine holding the winning colour gains a win; the index advances by 1; the next game is scheduled iff games remain and the result is neither an error nor a win by disconnection |
| Match.SeriesScore | projects/cli/src/enginematch.cpp:217-329 | over any series of games, draws and each engine's wins add up to the games drawn and won with the colour it had, and together with undecided games they account for every game |
| Match.OneOutcomePerGame | projects/cli/src/enginematch.cpp:222-240 | each game counts as exactly one of a draw, a win for engine 0, a win for engine 1, or neither |
| Match.StartKeepsValid | projects/cli/src/enginematch.cpp:270-329 | start keeps the match invariant and never changes the engines |
| Match.Loaded | projects/cli/src/enginematch.cpp:306-319 | a game loaded from the PGN input keeps its FEN and a prefix of its moves no longer than the book depth |
| Match.EngineMatch.constructor | projects/cli/src/enginematch.cpp:31-45 | book depth 30, one game, counters at zero |
| Match.EngineMatch.AddEngine | projects/cli/src/enginematch.cpp:53-66 | the engines after addEngine |
| Match.EngineMatch.SetBookDepth | projects/cli/src/enginematch.cpp:68-76 | the depth after setBookDepth |
| Match.EngineMatch.SetGameCount | projects/cli/src/enginematch.cpp:108-111 | stores the number of games |
| Match.EngineMatch.SetPgnOutput | projects/cli/src/enginematch.cpp:119-122 | stores the output file name |
| Match.EngineMatch.SetRepeatOpening | projects/cli/src/enginematch.cpp:124-127 | stores the repeat-opening switch |
| Match.EngineMatch.SetPgnInput | projects/cli/src/enginematch.cpp:113-117 | when the file opens, its games become the PGN input from the first; otherwise nothing changes |
| Match.EngineMatch.Initialize | projects/cli/src/enginematch.cpp:139-206 | the state and success of initialize |
| Match.EngineMatch.Reset | projects/cli/src/enginematch.cpp:147-150 | the game index and draw count become zero, no engine has a colour, and the engines are those the loop left |
| Match.EngineMatch.Start | projects/cli/src/enginematch.cpp:270-329 | the colours and opening of the new game, and the state after start |
| Match.EngineMatch.AssignColours | projects/cli/src/enginematch.cpp:276-285 | engine 0 takes White in even-numbered games and engine 1 otherwise, and only the colours change |
| Match.EngineMatch.PickOpening | projects/cli/src/enginematch.cpp:289-319 | the opening chosen by priority, and the match state after choosing |
| Match.EngineMatch.OnGameEnded | projects/cli/src/enginematch.cpp:217-268 | the score, index and next step after a game |
| Match.EngineMatch.Tally | projects/cli/src/enginematch.cpp:222-240 | a draw adds a draw; a win adds one to the engine that held the winning colour; nothing else changes |

## Left out

- I/O and foreign code. The following are parameters or oracles here:
  - engine processes, modelled as a start oracle per engine;
  - the working directory;
  - the book file (a move oracle);
  - the PGN input file (the openings its games give);
  - the PGN output file (the round number a game is saved under);
  - the two-second timer (a "schedule next" outcome);
  - a player's own `endGame`, modelled only by the readiness it leaves the
    player in (`readyAfterEnd`), which `Session.ChessGame.EndGame` reads;
  - debug logging.
- `killEngines`, `setBookFile` (loading the book), opening the PGN input file, the file form of
  `PgnGame::write`, and `QDate` in `date`/`setDate`: I/O, not modelled.
- The `PgnStream` tokenizer is not modelled: `read` takes a token sequence.
  The NAG range check only logs, so it is left out.
- The `PolyglotBook` lookup, ECO classification in `addMove`, and
  `createBoard`/`BoardFactory` are not part of this model. The board is
  `Chess.Rules`.
- Floating point: the evaluation comment is built from integer centipawns.
  It gives the same text for scores whose two-decimal rendering is exact.
- Qt connections are idempotent sets and flags here. Duplicate connections
  (several identical `playersReady → start` links) collapse into one.
- Strings are sequences of Unicode characters. Two things therefore match
  QString only for characters of the Basic Multilingual Plane:
  - string order, which compares characters as numbers where QString
    compares UTF-16 units (the order of tag keys);
  - string length, used for the movetext line widths (`Pgn.Width`,
    `Pgn.LastWidth`, `Pgn.ResultText`) against the 80-column limit in
    `write`, where `QString::size()` counts UTF-16 units.
- Integer overflow is not modelled (all integers are unbounded).
- `Session.ChessGame.Start`: requires that no game is in progress, which
  the source does not assert. A restart during a game would let endGame
  re-enter start through playersReady.
- `Session.ChessGame.OnMoveMade`: requires a game in progress and a legal
  move, which the source checks only with Q_ASSERT. The replay of forced
  moves in start likewise assumes they are legal and does not check it.
- `Session.ChessGame.PlayerToMove`: the board here always has a side to
  move, so the null player the source returns for `NoSide` does not arise.
- `bookMove` with a null book (a null move) is not modelled. The source
  asserts the book is non-null in setOpeningBook.
- This version of chessgame.cpp uses session fields (moves, comments, FEN,
  result, time controls, hasTags) that are declared neither in chessgame.h
  nor in pgngame.cpp. Here they are fields of the session and separate from
  `Pgn.PgnGame`. The session's comment for an empty evaluation is the
  `NoEvaluation` case; `MoveEvaluation::isEmpty` is not part of this model.
- `Pgn.PgnGame.Round`: the round is read back only from the canonical
  decimal text `setRound` writes; other text reads as 0.
- `Match.EngineMatch.Start`: `ChessGame::load` is not part of this model.
  A loaded PGN game contributes its FEN and its first bookDepth moves.
  The game object `start` creates and starts is the `Session` model.
- `setEvent`, `setSite`, `setVariant` and `setDebugMode` of the match only
  store settings for the games it creates (tags, the board variant,
  logging). The match model holds neither tags nor a board, so they are
  not modelled.
- `Match.EngineMatch.Initialize`: the engines' names, protocols, settings
  and debug connections are not modelled.
- Gauntlet: `gameNumber % gamesPerEncounter` is used only to test for
  zero, where C's and Dafny's remainders agree. The base class's counts
  are constructor parameters.
