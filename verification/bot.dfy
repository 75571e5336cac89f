/**
  The bot's per-game control (index.js): which challenges it takes, how it
  sets up an engine for a game, and how it answers `ourTurn` and the
  engine's `bestmove` with pondering.
 */
module Bot {
  import opened Js
  import opened Uci
  import opened Lichess

  // ---------------------------------------------------------------------------
  // Challenges

  datatype ChallengeAnswer = Ignore | Accept | Decline(reason: string)

  /** The `challengeRequest` listener: our own challenges are ignored, "trgreal" is accepted, anyone else declined. */
  function AnswerChallenge(challengerId: string, userId: string): ChallengeAnswer
  {
    if challengerId == userId then Ignore
    else if challengerId != "trgreal" then Decline("generic")
    else Accept
  }

  /** Each answer, with the exact condition for it. */
  lemma ChallengeAnswers(challengerId: string, userId: string)
    ensures AnswerChallenge(challengerId, userId) == Ignore <==> challengerId == userId
    ensures AnswerChallenge(challengerId, userId) == Accept <==> challengerId != userId && challengerId == "trgreal"
    ensures AnswerChallenge(challengerId, userId).Decline? <==> challengerId != userId && challengerId != "trgreal"
    ensures AnswerChallenge(challengerId, userId).Decline? ==> AnswerChallenge(challengerId, userId).reason == "generic"
  {
  }

  // ---------------------------------------------------------------------------
  // Move lists

  /** `getMoves().split(" ")` with a leading empty token dropped: the moves of a game as a list. */
  function MoveList(moves: string): (list: seq<string>)
    ensures moves == "" ==> list == []
  {
    var tokens := Split(moves, ' ');
    if tokens[0] == "" then tokens[1..] else tokens
  }

  /** A list of moves written with single spaces is read back as the same list. */
  lemma MoveListRoundTrip(list: seq<string>)
    requires forall k :: 0 <= k < |list| ==> list[k] != "" && ' ' !in list[k]
    ensures MoveList(Join(list, ' ')) == list
  {
    if list != [] {
      SplitJoin(list, ' ');
    }
  }

  /** Appending a space-free word to a text extends its last token. */
  lemma {:induction false} SplitExtendsLast(s: string, word: string)
    requires ' ' !in word
    ensures var tokens := Split(s, ' ');
      Split(s + word, ' ') == tokens[..|tokens| - 1] + [tokens[|tokens| - 1] + word]
  {
    if s == [] {
      SplitNoSeparator(word, ' ');
      assert s + word == word;
      assert "" + word == word;
    } else {
      SplitExtendsLast(s[1..], word);
      SplitExtendsLastStep(s, word);
    }
  }

  /** The tokens with `word` glued onto the last one. */
  function ExtendLast(tokens: seq<string>, word: string): seq<string>
    requires |tokens| >= 1
  {
    tokens[..|tokens| - 1] + [tokens[|tokens| - 1] + word]
  }

  /** One step of `Split`: the tokens of `[c] + t` from the tokens of `t`. */
  function SplitStep(c: char, rest: seq<string>): seq<string>
    requires |rest| >= 1
  {
    if c == ' ' then [""] + rest else [[c] + rest[0]] + rest[1..]
  }

  /** The inductive step of `SplitExtendsLast`: from the text without its first character to the whole. */
  lemma {:induction false} SplitExtendsLastStep(s: string, word: string)
    requires s != []
    requires Split(s[1..] + word, ' ') == ExtendLast(Split(s[1..], ' '), word)
    ensures Split(s + word, ' ') == ExtendLast(Split(s, ' '), word)
  {
    var c, t := s[0], s[1..];
    var rest, extended := Split(t, ' '), Split(t + word, ' ');
    assert Split(s, ' ') == SplitStep(c, rest) by {
      assert s == [c] + t;
      SplitCons(c, t, ' ');
    }
    assert Split(s + word, ' ') == SplitStep(c, extended) by {
      assert s + word == [c] + (t + word);
      SplitCons(c, t + word, ' ');
    }
    ExtendAlgebra(c, rest, word);
  }

  /** Extending the last token commutes with one `Split` step. */
  lemma ExtendAlgebra(c: char, rest: seq<string>, word: string)
    requires |rest| >= 1
    ensures SplitStep(c, ExtendLast(rest, word)) == ExtendLast(SplitStep(c, rest), word)
  {
    var extended := ExtendLast(rest, word);
    if c != ' ' {
      if |rest| == 1 {
        assert [c] + (rest[0] + word) == [c] + rest[0] + word;
      } else {
        assert extended[0] == rest[0];
        assert extended[1..] == rest[1..|rest| - 1] + [rest[|rest| - 1] + word];
      }
    }
  }

  /**
    The text index.js sends for pondering (index.js:92): the moves of the last
    state with the ponder move glued on, with no separator and without the
    move just played.
   */
  function PonderMovesAsWritten(moves: string, ponder: string): string
  {
    moves + ponder
  }

  /**
    The text intended for pondering: the moves so far, the move just played,
    then the expected reply, separated by single spaces.
   */
  function PonderMoves(moves: string, move: string, ponder: string): string
  {
    (if moves != "" then moves + " " else "") + move + " " + ponder
  }

  /** The intended text lists exactly the moves so far, our move and the ponder move. */
  lemma PonderMovesList(moves: string, move: string, ponder: string)
    requires move != "" && ' ' !in move && ' ' !in ponder
    ensures MoveList(PonderMoves(moves, move, ponder)) == MoveList(moves) + [move, ponder]
  {
    SplitNoSeparator(move, ' ');
    SplitNoSeparator(ponder, ' ');
    var tail := move + " " + ponder;
    assert tail == move + [' '] + ponder;
    SplitAround(move, ' ', ponder);
    if moves != "" {
      assert PonderMoves(moves, move, ponder) == moves + [' '] + tail;
      SplitAround(moves, ' ', tail);
      var tokens := Split(moves, ' ');
      assert (tokens + [move, ponder])[0] == tokens[0];
      if tokens[0] == "" {
        assert (tokens + [move, ponder])[1..] == tokens[1..] + [move, ponder];
      }
    } else {
      assert PonderMoves(moves, move, ponder) == tail;
    }
  }

  /**
    The text as written has no more moves than the last state: the ponder
    move is merged into the last move, and the move just played is missing.
   */
  lemma PonderMovesAsWrittenMerges(moves: string, ponder: string)
    requires moves != "" && moves[0] != ' ' && ' ' !in ponder
    ensures var tokens := MoveList(moves);
      MoveList(PonderMovesAsWritten(moves, ponder)) == tokens[..|tokens| - 1] + [tokens[|tokens| - 1] + ponder]
  {
    SplitExtendsLast(moves, ponder);
    SplitStartsWithChar(moves);
    SplitStartsWithChar(moves + ponder);
  }

  /** A text not starting with a space has a non-empty first token. */
  lemma SplitStartsWithChar(s: string)
    requires s != [] && s[0] != ' '
    ensures Split(s, ' ')[0] != ""
  {
  }

  /**
    So the text as written never gives the intended list: after 1. e4 e5 and
    our 2. Nf3, pondering on 2... Nc6 should send `e2e4 e7e5 g1f3 b8c6`, but
    `e2e4 e7e5` + `b8c6` reads as the two moves `e2e4 e7e5b8c6`.
   */
  lemma PonderMovesAsWrittenIsWrong(moves: string, move: string, ponder: string)
    requires moves != "" && moves[0] != ' ' && ' ' !in ponder
    requires move != "" && ' ' !in move
    ensures MoveList(PonderMovesAsWritten(moves, ponder)) != MoveList(PonderMoves(moves, move, ponder))
    ensures |MoveList(PonderMovesAsWritten(moves, ponder))| + 2 == |MoveList(PonderMoves(moves, move, ponder))|
  {
    PonderMovesAsWrittenMerges(moves, ponder);
    PonderMovesList(moves, move, ponder);
  }

  // ---------------------------------------------------------------------------
  // The `ignoreEngineMove` flag

  /** What the session reacts to, as far as the flag is concerned. */
  datatype Reaction = PonderHitTurn | PonderMissTurn | PlainTurn | BestMove

  /** The flag after one reaction, and whether a `bestmove` is played. */
  function IgnoreStep(ignore: bool, r: Reaction): (bool, bool)
  {
    match r
    case PonderMissTurn => (true, false)
    case BestMove => (false, !ignore)
    case _ => (ignore, false)
  }

  /** For each `bestmove` in a run of reactions, whether it is played. */
  function PlayedMoves(ignore: bool, rs: seq<Reaction>): seq<bool>
    decreases |rs|
  {
    if rs == [] then []
    else
      var (next, played) := IgnoreStep(ignore, rs[0]);
      (if rs[0] == BestMove then [played] else []) + PlayedMoves(next, rs[1..])
  }

  function BestMoves(n: nat): seq<Reaction>
  {
    if n == 0 then [] else [BestMove] + BestMoves(n - 1)
  }

  function AllPlayed(n: nat): seq<bool>
  {
    if n == 0 then [] else [true] + AllPlayed(n - 1)
  }

  /** Once the flag is clear, every `bestmove` is played. */
  lemma {:induction false} BestMovesPlayed(n: nat)
    ensures PlayedMoves(false, BestMoves(n)) == AllPlayed(n)
  {
    if n > 0 {
      BestMovesPlayed(n - 1);
      assert BestMoves(n)[1..] == BestMoves(n - 1);
    }
  }

  /** After a ponder miss, exactly the first `bestmove` that follows is discarded, and the rest are played. */
  lemma MissDiscardsOne(ignore: bool, n: nat)
    requires n >= 1
    ensures PlayedMoves(ignore, [PonderMissTurn] + BestMoves(n)) == [false] + AllPlayed(n - 1)
  {
    var rs := [PonderMissTurn] + BestMoves(n);
    assert rs[1..] == BestMoves(n);
    assert BestMoves(n)[1..] == BestMoves(n - 1);
    BestMovesPlayed(n - 1);
  }

  // ---------------------------------------------------------------------------
  // Engine setup

  /** The commands of the setup sequence: `uci`, one `setoption` per configured option in order, `isready`. */
  function SetupCommands(options: seq<(string, string)>): seq<string>
  {
    ["uci"] + SetOptionCommands(options) + ["isready"]
  }

  /**
    The setup as index.js:57-72 writes it: the engine object is created but
    `StartEngine` is never called, so the first write (`uci`) throws and the
    rest of the `gameStart` handler, including the `gameFull` listener, never runs.
   */
  method PrepareEngineAsWritten(options: seq<(string, string)>) returns (engine: Engine, ok: bool)
    ensures fresh(engine)
    ensures !ok && engine.commands == []
  {
    engine := new Engine();
    ok := engine.ProposeUCI();
    // `uci` threw: the `setoption`s, `isready` and the listeners after them are never reached.
  }

  /** The setup with the engine process started first: every command is written, in order. */
  method PrepareEngine(options: seq<(string, string)>) returns (engine: Engine)
    ensures fresh(engine)
    ensures engine.started && engine.commands == SetupCommands(options)
    ensures engine.Listening() == Listener([], false, None, None, None, [])
    ensures engine.Clock() == PonderClock(false, None, 0) && engine.Valid()
  {
    engine := new Engine();
    engine.StartEngine();
    var ok := engine.ProposeUCI();
    var i := 0;
    while i < |options|
      invariant 0 <= i <= |options|
      invariant engine.started && engine.commands == ["uci"] + SetOptionCommands(options[..i])
      invariant engine.Listening() == Listener([], false, None, None, None, [])
      invariant engine.Clock() == PonderClock(false, None, 0)
    {
      ok := engine.SetOption(options[i].0, options[i].1);
      assert options[..i + 1][..i] == options[..i];
      i := i + 1;
    }
    assert options[..i] == options;
    ok := engine.AskReady();
  }

  // ---------------------------------------------------------------------------
  // Turns

  /**
    The commands `ourTurn` writes: `ponderhit` alone when the opponent played
    the pondered move; otherwise `stop` if the engine was pondering, then the
    position (starting FEN and all moves) and a `go` with the current clocks.
   */
  function TurnCommands(pondering: bool, ponder: Option<string>, fen: string, state: GameState): seq<string>
  {
    if pondering && Last(MoveList(state.moves)) == ponder then ["ponderhit"]
    else
      (if pondering then ["stop"] else [])
      + [PositionCommand(fen, state.moves), GoCommand(state.whiteTime, state.blackTime, state.whiteIncrement, false)]
  }

  /** The reaction the flag sees for a turn. */
  function TurnReaction(pondering: bool, ponder: Option<string>, state: GameState): Reaction
  {
    if !pondering then PlainTurn
    else if Last(MoveList(state.moves)) == ponder then PonderHitTurn
    else PonderMissTurn
  }

  /** On every turn the engine is set searching exactly once: either by `ponderhit` or by a `go` after the position. */
  lemma TurnStartsOneSearch(pondering: bool, ponder: Option<string>, fen: string, state: GameState)
    ensures var cs := TurnCommands(pondering, ponder, fen, state);
      && ("ponderhit" in cs <==> TurnReaction(pondering, ponder, state) == PonderHitTurn)
      && ("ponderhit" in cs <==> |cs| == 1)
      && ("ponderhit" !in cs ==> cs[|cs| - 2] == PositionCommand(fen, state.moves)
                                 && cs[|cs| - 1] == GoCommand(state.whiteTime, state.blackTime, state.whiteIncrement, false))
      && ("stop" in cs <==> TurnReaction(pondering, ponder, state) == PonderMissTurn)
      && (TurnReaction(pondering, ponder, state) == PonderMissTurn ==> cs[0] == "stop")
  {
    var position := PositionCommand(fen, state.moves);
    var go := GoCommand(state.whiteTime, state.blackTime, state.whiteIncrement, false);
    PositionIsNotAWord(fen, state.moves);
    GoIsNotAWord(state.whiteTime, state.blackTime, state.whiteIncrement);
    assert position != "ponderhit" && position != "stop";
    assert go != "ponderhit" && go != "stop";
  }

  /** A `position` command is neither `ponderhit` nor `stop`. */
  lemma PositionIsNotAWord(fen: string, moves: string)
    ensures PositionCommand(fen, moves) != "ponderhit" && PositionCommand(fen, moves) != "stop"
  {
    var c := PositionCommand(fen, moves);
    assert c[0] == 'p' && c[1] == 'o' && c[2] == 's';
    assert "ponderhit"[2] == 'n';
  }

  /** A `go` command is neither `ponderhit` nor `stop`. */
  lemma GoIsNotAWord(whiteTime: int, blackTime: int, increment: int)
    ensures GoCommand(whiteTime, blackTime, increment, false) != "ponderhit"
    ensures GoCommand(whiteTime, blackTime, increment, false) != "stop"
  {
    var c := GoCommand(whiteTime, blackTime, increment, false);
    assert c[0] == 'g';
  }

  /** The ponder follow-up after a played move: the intended position with the ponder move, then `go ponder`. */
  function PonderCommands(fen: string, state: GameState, move: string, ponder: string): seq<string>
  {
    [PositionCommand(fen, PonderMoves(state.moves, move, ponder)),
     GoPonderCommand(state.whiteTime, state.blackTime, state.whiteIncrement)]
  }

  /**
    The `gameStart` handler's state for one game: the game, its engine, the
    `ignoreEngineMove` flag and the `gameFull` event the listeners captured.
   */
  class GameSession<P> {
    const game: Game<P>
    const engine: Engine
    var ignoreEngineMove: bool
    var gameFull: Option<GameFull>

    ghost predicate Valid()
      reads this, engine, game
    {
      engine.started && engine.Valid() && (gameFull.Some? ==> game.lastState.Some?)
    }

    /** The corrected setup: the engine is started, then `uci`, the options and `isready` are written. */
    constructor (game: Game<P>, options: seq<(string, string)>)
      ensures this.game == game && fresh(engine)
      ensures engine.commands == SetupCommands(options)
      ensures !ignoreEngineMove && gameFull == None
      ensures Valid()
    {
      this.game := game;
      var engine := PrepareEngine(options);
      this.engine := engine;
      ignoreEngineMove := false;
      gameFull := None;
    }

    /** The `gameFull` listener: it captures the event that the `ourTurn` and `calculatedMove` listeners read. */
    method OnGameFull(full: GameFull)
      requires game.lastState.Some?
      modifies this
      ensures gameFull == Some(full) && ignoreEngineMove == old(ignoreEngineMove)
    {
      gameFull := Some(full);
    }

    /** The `ourTurn` listener, with `now` for the ponder bookkeeping. */
    method OnOurTurn(now: int)
      requires Valid() && gameFull.Some?
      requires engine != game as object
      modifies this, engine
      ensures Valid() && gameFull == old(gameFull)
      ensures var state := game.lastState.value;
        && engine.commands == old(engine.commands)
             + TurnCommands(old(engine.isPondering), old(engine.ponder), gameFull.value.startingFen, state)
        && ignoreEngineMove == IgnoreStep(old(ignoreEngineMove), TurnReaction(old(engine.isPondering), old(engine.ponder), state)).0
        && engine.Clock() == (if old(engine.isPondering) then EndPonder(old(engine.Clock()), now) else old(engine.Clock()))
        && engine.Listening() == old(engine.Listening())
    {
      var lastState := game.lastState.value;
      var moveList := MoveList(lastState.moves);
      var ponderHit := false;
      var pondering := engine.IsPondering();
      if pondering {
        var ponder := engine.GetPonder();
        if Last(moveList) == ponder {
          var ok := engine.PonderHit(now);
          ponderHit := true;
        } else {
          engine.NoPonderHit(now);
          var ok := engine.StopCalculating(now);
          PonderMissCountsOnce(old(engine.Clock()), now, now);
          ignoreEngineMove := true;
        }
      }
      if !ponderHit {
        var ok := engine.SendPositionJoined(gameFull.value.startingFen, game.lastState.value.moves);
        ok := engine.CalculateMove(lastState.whiteTime, lastState.blackTime, lastState.whiteIncrement, false);
      }
    }

    /**
      The `calculatedMove` listener: unless the flag is set, the move is played
      and, when the engine named a ponder move, pondering starts on the
      position after it; the flag is cleared either way.
     */
    method OnCalculatedMove(move: Option<string>, ponder: Option<string>, now: int)
      requires Valid() && gameFull.Some?
      requires engine != game as object
      modifies this, engine, game
      ensures Valid() && gameFull == old(gameFull)
      ensures var (flag, played) := IgnoreStep(old(ignoreEngineMove), BestMove);
        && ignoreEngineMove == flag
        && game.requests == old(game.requests) + (if played then [MovePath(game.gameId, ToText(move), false)] else [])
        && engine.commands == old(engine.commands)
             + (if played && Truthy(ponder)
                then PonderCommands(gameFull.value.startingFen, game.lastState.value, ToText(move), ponder.value)
                else [])
        && engine.Clock() == (if played && Truthy(ponder) then StartPonder(old(engine.Clock()), now) else old(engine.Clock()))
      ensures game.board == old(game.board) && game.lastState == old(game.lastState) && game.events == old(game.events)
      ensures game.ourColour == old(game.ourColour) && game.gameFull == old(game.gameFull)
      ensures engine.Listening() == old(engine.Listening())
    {
      if !ignoreEngineMove {
        game.Move(ToText(move), false);
        if Truthy(ponder) {
          var lastState := game.lastState.value;
          var ok := engine.SendPositionJoined(gameFull.value.startingFen, PonderMoves(lastState.moves, ToText(move), ponder.value));
          ok := engine.GoPonder(lastState.whiteTime, lastState.blackTime, lastState.whiteIncrement, now);
        }
      }
      ignoreEngineMove := false;
    }
  }
}
