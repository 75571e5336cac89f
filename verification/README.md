# LichessBot core, modelled in Dafny

This project models the decision-making core of a Lichess bot that plays
with a UCI chess engine. It covers four parts:

- **The opening book** (`util/BookHandler.js`, modules `MoveCodec` and `Book`).
  A move is packed into two bytes: six bits for the origin square, six for
  the destination and four for the promotion piece. A book file is a run of
  records. Each record holds a 32-byte position key, a count byte, and that
  many packed moves with scores. The loader builds a map from key to moves.
  It keeps at most `movesPerPosition` moves per key and refuses a repeated
  key.
- **The engine driver** (`util/Engine.js`, module `Uci`). This covers the
  commands written to the engine, the listener that parses the engine's
  output lines (`option`, `uciok`, `readyok`, `id`, `info`, `bestmove`), and
  the ponder-time bookkeeping. The driver is the class `Uci.Engine`. Its
  state is the list of commands written, the listener fields and the ponder
  clock.
- **One game** (`lichess/structures/Game.js`, module `Lichess`). The game
  stream dispatcher keeps a board in step with `gameFull` and `gameState`
  events and emits `ourTurn`. `move` requests the move endpoint. The chess
  rules are a parameter (`Rules<P>`): a FEN loader, a partial move function
  and the side to move. A throw is `None`.
- **The per-game control** (`index.js`, module `Bot`). This covers the
  challenge filter, the engine setup, the `ourTurn` listener with ponder
  hit and miss, and the `calculatedMove` listener with its
  `ignoreEngineMove` flag.

JavaScript semantics the logic depends on are written out in module `Js`:

- `split` always yields at least one piece, and `join`;
- truthiness of strings, and `undefined` as `None`;
- `slice` clamping, and `at(-1)`;
- number-to-text in template literals, and `parseInt`.

A JavaScript throw is modelled as the handler stopping where it happens. A
command method returns `ok == false` and writes nothing when the engine
process was never spawned, because writing to its `stdin` throws.

## Model

| member | source | states |
|---|---|---|
| MoveCodec.FromToBits | util/BookHandler.js:26-36 | the bit list of `positionToBitArray`, read back least significant bit first, is the number modulo 2^width |
| MoveCodec.BitsToSquare | util/BookHandler.js:38-56 | six bits always decode to a valid square whose number is the bits' value, with 0 read as 64 (the wrap at line 49) |
| MoveCodec.RankNumberIsParseInt | util/BookHandler.js:30-32 | the rank lookup agrees with `parseInt` on the one-character rank text |
| MoveCodec.SquareRoundTrip | util/BookHandler.js:26-56 | a valid square encoded to six bits decodes to the same square |
| MoveCodec.PromotionName | util/BookHandler.js:58-64 | a promotion code has a name exactly when it is at most 4, and that name's code is the code (inverse of `promotionResult`) |
| MoveCodec.MoveToBuffer | util/BookHandler.js:77-101 | a move converts exactly when both two-character squares have a number (a file a-h and a rank that `parseInt` reads, so ranks 0 and 9 also convert and "a9" packs as 9, the same as "b1") and the promotion name is known; the result is two bytes whose big-endian value packs origin, destination and promotion code |
| MoveCodec.BufferToMove | util/BookHandler.js:66-75 | a two-byte buffer decodes exactly when its top four bits are at most 4, and the result is then always a valid move text |
| MoveCodec.DecodeFields | util/BookHandler.js:66-75 | a decodable buffer reads as its low six bits (origin), the next six (destination) and the top four (promotion) |
| MoveCodec.MoveRoundTrip | util/BookHandler.js:66-101 | every valid move text converts to a buffer and back to the same text |
| MoveCodec.PromotionOutOfRange | util/BookHandler.js:58-64 | a buffer whose first byte is 0x50 or more has promotion bits with no name, so decoding it throws |
| MoveCodec.SquareIndexInjective | util/BookHandler.js:15-24 | different valid squares have different square numbers |
| MoveCodec.AllSquaresNumbered | util/BookHandler.js:106-116 | the k-th generated square is valid and has number k + 1, so the 64 squares are distinct |
| MoveCodec.GeneratePositions | util/BookHandler.js:106-116 | the nested loops produce the 64 squares a1..a8, b1..b8, ..., h1..h8 |
| MoveCodec.CheckPositionEncoding | util/BookHandler.js:118-130 | all 64 x 64 origin/destination pairs are visited, and each pair's round trip is asserted inside the loop, so the module's self-check never throws |
| Book.ReadMove | util/BookHandler.js:165-172 | a successful read of one book move advances the cursor by at least two bytes within the buffer and yields a valid move text |
| Book.MovesOfWithin | util/BookHandler.js:154-172 | the move reader of a buffer only moves forward and stays within the buffer |
| Book.ReadAllWithin | util/BookHandler.js:165-173 | reading a record's moves ends between its start and the end of the buffer |
| Book.ReadMovesKeepsFirst | util/BookHandler.js:165-173 | the per-position cap keeps the first `cap` moves in file order while every move is still read, so cursor and outcome are those of reading without the cap |
| Book.RecordKeepsFirst | util/BookHandler.js:163-173 | a record's stored moves are the first `cap` of all its moves, and reading them ends where and as reading all of them does |
| Book.LoadKeepsEarlier | util/BookHandler.js:151-174 | loading never removes or changes an entry that was already in the position list |
| Book.DuplicateKeyFails | util/BookHandler.js:151-161 | at any record, a key already present fails the load, counts the record and changes no entry |
| Book.LoadCountsRecords | util/BookHandler.js:151-152 | the record count grows at least as much as the number of keys, and after a successful load by exactly the number of new keys |
| Book.LoadWithinCap | util/BookHandler.js:169 | no position ever holds more than `movesPerPosition` moves |
| Book.KeepIdempotent | util/BookHandler.js:169 | applying the cap twice is applying it once |
| Book.RecordStarts | util/BookHandler.js:151-173 | the offsets where the records begin, following each record's move count, lie in the buffer in increasing order at least a header apart |
| Book.LoadStep | util/BookHandler.js:151-173 | a record with a new key stores the first `cap` of its moves, and the load and the record offsets both continue after its moves or end with it |
| Book.LoadFindsRecords | util/BookHandler.js:151-176 | after a successful load every record begun was counted and its key maps to the first `cap` of that record's moves in file order |
| Book.LoadedKeysFresh | util/BookHandler.js:151-161 | after a successful load no record's key was present before and no two records share a key |
| Book.RepeatedKeyFails | util/BookHandler.js:158-161 | a record repeating the key of an earlier record in the same buffer makes the load fail |
| Book.BookHandler.constructor | util/BookHandler.js:140-145 | a new handler has an empty position list, is not loaded, has the given cap and has counted no records |
| Book.BookHandler.LoadFile | util/BookHandler.js:147-183 | the new list, count and outcome are those of the reference load; `loaded` becomes true only on success, and a failure keeps what was read |
| Book.BookHandler.LoadRecords | util/BookHandler.js:151-175 | the two loops update the position list in place to the reference load's list, count and outcome |
| Book.BookHandler.ReadRecord | util/BookHandler.js:163-173 | the inner loop leaves the record's key mapped to the reference capped read of its moves, with that read's end and outcome, changing no other entry |
| Book.BookHandler.IsLoaded | util/BookHandler.js:190-192 | reports the `loaded` flag, which `LoadFile` sets only on success |
| Book.BookHandler.GetTotal | util/BookHandler.js:221-223 | reports the records begun over all loads, never fewer than the stored positions |
| Book.BookHandler.SearchFen | util/BookHandler.js:198-202 | a key's moves are found exactly when the key is present, and they are the stored list |
| Uci.Accumulate | util/Engine.js:132-133 | one word is joined with a space onto a non-empty field, or becomes the field; no other field changes |
| Uci.ParseOption | util/Engine.js:122-144 | the token loop builds the option that the reference scan describes |
| Uci.OptionVars | util/Engine.js:136-139 | each `var X` appends the following token to the `var` list in order, and without a `var` token there is no list |
| Uci.OptionWords | util/Engine.js:128-134 | after a keyword other than `var`, the plain words that follow are stored under it joined by single spaces |
| Uci.InfoKeys | util/Engine.js:175-184 | an `info` line fills only InfoList keys, plus "undefined" for words before the first keyword |
| Uci.InfoWords | util/Engine.js:175-184 | after an InfoList keyword not yet filled, the following plain words are stored under it joined with single spaces |
| Uci.InfoLeadingWords | util/Engine.js:175-184 | the plain words between `info` and the first keyword are stored under "undefined" joined with single spaces |
| Uci.ScanInfoLine | util/Engine.js:170-184 | the token loop builds the text fields the reference scan describes |
| Uci.ParseScore | util/Engine.js:186-199 | the score loop builds the reference score map |
| Uci.ScoreKeys | util/Engine.js:192-198 | the score object holds exactly the ScoreList keywords that occur in the score text |
| Uci.ScoreLastOccurrence | util/Engine.js:192-198 | a score keyword maps to the token after its last occurrence, or `undefined` when it is the final token |
| Uci.ParseWdl | util/Engine.js:201-207 | every wdl part is replaced by its `parseInt`, in place and in order |
| Uci.WdlRoundTrip | util/Engine.js:201-207 | a win/draw/loss triple written as text is read back as the three numbers |
| Uci.ParseInfo | util/Engine.js:169-211 | the `info` case builds the reference info object: the scanned fields with `score` and `wdl` re-parsed when truthy, and the raw line |
| Uci.BuildInfo | util/Engine.js:186-209 | the re-parsing step yields the reference info object for the scanned fields |
| Uci.GoWordsNumbers | util/Engine.js:312-314 | the times and increments in a `go` command are read back by `parseInt` as the numbers given |
| Uci.GoCommandTokens | util/Engine.js:312-314 | a `go` command splits into `go wtime W btime B winc I binc I`, plus `infinite` when asked |
| Uci.PositionHeadTokens | util/Engine.js:265-268 | for any FEN, the head splits into `position`, then an empty token (from the doubled space) and `fen` unless the FEN is "startpos", then the FEN's own pieces |
| Uci.PositionCommandTokens | util/Engine.js:265-268 | for any FEN and space-free moves, the command splits into the head's tokens, then `moves` and exactly the moves when the move text is not empty |
| Uci.IdRoundTrip | util/Engine.js:157-164 | the text after `id name ` is recovered exactly, whatever spaces it holds |
| Uci.BestMoveRoundTrip | util/Engine.js:214-225 | `bestmove M ponder P` yields both moves, and `bestmove M` yields no ponder move |
| Uci.OnLineOptions | util/Engine.js:121-146 | a line appends its parsed option exactly when it is an `option` line, and no other line changes the option list |
| Uci.OnLineState | util/Engine.js:121-230 | `uciok` is what makes the engine ready; `bestmove` sets or clears the ponder move; any unknown instruction changes nothing |
| Uci.OnLineEvents | util/Engine.js:114-232 | each line emits at most one event, appended after the earlier ones |
| Uci.IdEvent | util/Engine.js:157-168 | an `id` line emits the identity exactly when both the name and the authors are non-empty |
| Uci.ClockSteps | util/Engine.js:289-328 | every ponder step keeps the clock's invariant, after which the ponder time is never `NaN`; pondering is on after `go ponder` and off after the other steps |
| Uci.PonderMissCountsOnce | util/Engine.js:289-328 | `NoPonderHit` then `StopCalculating` counts the ponder interval once, because `StopCalculating` checks `#isPondering` |
| Uci.EndPonderTwice | util/Engine.js:289-294 | `NoPonderHit` called twice adds the interval twice, because it does not check `#isPondering` |
| Uci.PonderTimeMonotone | util/Engine.js:308-310 | the reported ponder time never decreases as time passes |
| Uci.PonderInterval | util/Engine.js:289-328 | one interval, from `go ponder` to its stop, adds exactly its length to the total |
| Uci.SetOptionCommands | util/Engine.js:242-244 | one `setoption name K value V` per configured option, in order |
| Uci.Engine.constructor | util/Engine.js:57-66 | a new driver has no process, no commands, no options, is not ready, and is not pondering with total 0 |
| Uci.Engine.StartEngine | util/Engine.js:68-87 | the process is spawned; nothing else changes |
| Uci.Engine.WriteEngineCommand | util/Engine.js:105-108 | the command is appended exactly when a process exists; otherwise it throws and nothing changes |
| Uci.Engine.ProposeUCI | util/Engine.js:234-236 | writes `uci` |
| Uci.Engine.AskReady | util/Engine.js:238-240 | writes `isready` |
| Uci.Engine.SetOption | util/Engine.js:242-244 | writes `setoption name K value V` |
| Uci.Engine.QuitEngine | util/Engine.js:246-253 | writes `quit` |
| Uci.Engine.SendPositionFEN | util/Engine.js:255-258 | writes `position fen F` only for a truthy FEN; an absent or empty FEN writes nothing and cannot throw |
| Uci.Engine.SendPositionJoined | util/Engine.js:265-268 | writes the position command for the FEN and the move text |
| Uci.Engine.CalculateMove | util/Engine.js:312-314 | writes the `go` command with the one increment as both `winc` and `binc` |
| Uci.Engine.CalculateDepth | util/Engine.js:316-318 | writes `go depth D` |
| Uci.Engine.CalculateTime | util/Engine.js:320-322 | writes `go movetime T` |
| Uci.Engine.GoPonder | util/Engine.js:296-301 | writes `go ponder ...`, then starts pondering at `now`; a throw leaves the clock as it was |
| Uci.Engine.NoPonderHit | util/Engine.js:289-294 | ends pondering and adds the time since the last `go ponder` unless that time is `undefined` |
| Uci.Engine.PonderHit | util/Engine.js:284-287 | writes `ponderhit`, then ends pondering as `NoPonderHit` does |
| Uci.Engine.StopCalculating | util/Engine.js:324-328 | ends pondering only if it is on, then writes `stop` |
| Uci.Engine.GetPonderTime | util/Engine.js:308-310 | the total plus the running interval while pondering, never `NaN` |
| Uci.Engine.IsPondering | util/Engine.js:350-352 | whether pondering is on |
| Uci.Engine.GetPonder | util/Engine.js:346-348 | the ponder move of the last `bestmove` |
| Uci.Engine.HandleLine | util/Engine.js:115-231 | the listener updates its fields and events as the reference line function does, and writes no command |
| Uci.Engine.HandleId | util/Engine.js:157-168 | the `id` case updates the name or the authors and emits the identity as the reference function does |
| Uci.Engine.HandleBestMove | util/Engine.js:214-227 | the `bestmove` case sets the ponder move and emits `calculatedMove` as the reference function does |
| Lichess.DecodeMove | lichess/structures/Game.js:156-165 | characters 0-1 are the origin and 2-3 the destination; there is a promotion exactly when the text has five characters, and it is the fifth |
| Lichess.DecodeMoveKeepsText | lichess/structures/Game.js:156-165 | decoding loses nothing exactly when the move text has at most five characters |
| Lichess.MoveObjectRoundTrip | lichess/structures/Game.js:156-165 | a move object with two-character squares and a one-character promotion survives writing and decoding |
| Lichess.ReplayAppend | lichess/structures/Game.js:49-55 | replaying a list is replaying its first part, then the rest from where that stopped |
| Lichess.Colour | lichess/structures/Game.js:57-58 | the colour is "w" exactly when the white player is the logged-in user, otherwise "b" |
| Lichess.MovePathDraw | lichess/structures/Game.js:133-135 | the path ends in the draw offer exactly when a draw is offered, and the move is recoverable from it |
| Lichess.Game.constructor | lichess/structures/Game.js:22-33 | a new game has the start board, no state or colour, no events and no requests |
| Lichess.Game.HandleStream | lichess/structures/Game.js:35-115 | each stream event updates the game as its case prescribes; a state event keeps the stored `gameFull`; chat and opponent-gone only re-emit; other events change nothing; no requests are made |
| Lichess.Game.OnGameFull | lichess/structures/Game.js:38-69 | the FEN is loaded unless it is "startpos", the moves are replayed, then the colour and state are set and `gameFull` is emitted, followed by `ourTurn` exactly when the side to move is ours; a throw stops at that point |
| Lichess.Game.ReplayMoves | lichess/structures/Game.js:49-55 | the loop applies the moves in order and stops at the first the rules refuse, as the reference replay does |
| Lichess.Game.OnGameState | lichess/structures/Game.js:70-95 | only the last move is tried; the state is replaced either way; `ourTurn` comes first, exactly when the move applied and the side to move is ours, then `gameState` |
| Lichess.Game.Move | lichess/structures/Game.js:133-135 | exactly one request, to the move path |
| Bot.ChallengeAnswers | index.js:32-44 | our own challenges are ignored, "trgreal" is accepted, and everyone else is declined with reason "generic" |
| Bot.MoveList | index.js:110-115 | an empty move text is the empty list |
| Bot.MoveListRoundTrip | index.js:110-115 | moves written with single spaces are read back as the same list |
| Bot.PonderMovesAsWrittenIsWrong | index.js:92 | the text written for pondering lists two moves fewer than the moves so far plus our move and the ponder move (Finding 1) |
| Bot.PonderMovesAsWrittenMerges | index.js:92 | the move text as written fuses the ponder move onto the last move |
| Bot.PonderMovesList | index.js:90-93 | the corrected text lists exactly the moves so far, our move and the ponder move |
| Bot.BestMovesPlayed | index.js:81-100 | with the flag clear, every `bestmove` is played |
| Bot.MissDiscardsOne | index.js:81-131 | after a ponder miss exactly the first `bestmove` is discarded and the rest are played |
| Bot.TurnStartsOneSearch | index.js:117-140 | every turn starts exactly one search: `ponderhit` alone on a hit, otherwise the position then `go`, preceded by `stop` exactly on a miss |
| Bot.PrepareEngineAsWritten | index.js:57-72 | without `StartEngine` the first write throws, so no setup command reaches the engine (Finding 2) |
| Bot.PrepareEngine | index.js:57-72 | with the process started first, `uci`, one `setoption` per option in order, and `isready` are all written |
| Bot.GameSession.constructor | index.js:46-72 | a session starts with the flag clear and its engine set up by the corrected sequence |
| Bot.GameSession.OnGameFull | index.js:78 | the session captures the `gameFull` event and keeps the flag |
| Bot.GameSession.OnOurTurn | index.js:108-141 | writes the turn commands for the engine's ponder state and the last state, updates the flag as a ponder miss or hit dictates, and ends pondering on either |
| Bot.GameSession.OnCalculatedMove | index.js:81-100 | plays the move unless the flag is set, then clears the flag; after a played move with a ponder move, writes the corrected ponder position and `go ponder` and starts pondering; the game's colour and `gameFull` are unchanged |

## Left out

- Process spawning, the chunking of the engine's stdout into trimmed lines, stderr, the `close` event and the five-second `SIGKILL` timer: operating-system I/O. `HandleLine` receives one line that is already trimmed.
- `SwitchEngine`, and the driver's own chess board (`Move`, `UndoMove`, `SetPositionFEN`, `GetChessBoard`): the bot core never calls them.
- The `execute` event that `WriteEngineCommand` emits: it only feeds logging.
- The getters `GetUCIReady`, `GetEngineName`, `GetEngineAuthors` and `GetOptions` are plain reads of the fields in `Uci.Engine.Listening()`.
- SHA-256 of the FEN in `searchFen`: `SearchFen` takes the 32-byte key. `util/BufferUtils.js` is not part of this model, so the varint score reader is a `ScoreReader` parameter. `appendFenResult` and the write stream opened after a load are left out as file I/O.
- The keys of `positionList` are the key bytes, not their UTF-8 decoding as an object property name.
- `Uci.Engine.StopCalculating`: the trailing `SendPositionFEN()` call passes `undefined` and so writes nothing; it is not modelled.
- Chat messages (greeting and engine-loaded message), logging, and the `ready` listener: they only send chat text or write logs.
- The Lichess HTTP client, the event stream reader and the engine downloader: network I/O. `Game.Move` records the request path.
- A second `gameFull` on the same stream registers the `calculatedMove` and `ourTurn` listeners again in index.js; the session models one registration.
- The wall clock (`new Date().getTime()`) used by the ponder bookkeeping is a `now` parameter.
- `MoveCodec.MoveToBuffer`: where the source passes `NaN` or `undefined` to the `bitwise` library (an unknown square or promotion letter), the model returns `None`, taking that library to throw; the library is not part of this model.
- `Js.ParseInt`: only ASCII white space is skipped, not the other Unicode space characters.
- The engine options from the configuration are a sequence of pairs, so the enumeration order of `for ... in` over the object is taken as given.
- `Bot.GameSession.constructor` models the corrected setup (Finding 2); the setup as written is `Bot.PrepareEngineAsWritten`.
- Floating-point times: all times and increments are integers.

## Findings

| source | as written | input that shows it | evidently intended | confidence | as-written member | corrected member |
|---|---|---|---|---|---|---|
| index.js:92 | `lastState.getMoves() + ponder` joins the ponder move onto the last move with no space, and leaves out the move just played | moves "e2e4 e7e5", our move g1f3 and ponder b8c6 give "e2e4 e7e5b8c6" instead of "e2e4 e7e5 g1f3 b8c6" | the position after the moves so far, our move and the ponder move, each separated by a space | not executed | Bot.PonderMovesAsWrittenIsWrong | Bot.PonderMovesList |
| index.js:57-72 | a new `Engine` is written to by `ProposeUCI`, `SetOption` and `AskReady` without `StartEngine` having been called, so `#spawnProcess` is `undefined` and the first write throws | any game start, for example with no configured options | start the engine process before writing the setup commands | not executed | Bot.PrepareEngineAsWritten | Bot.PrepareEngine |
