/**
  One Lichess game as the bot follows it (lichess/structures/Game.js): the
  board is kept in step with the game stream, and the game tells its listeners
  when it is our turn. The chess rules are a collaborator the model does not
  look into: a board type `P` with a loader, a partial move function and a
  side to move.
 */
module Lichess {
  import opened Js

  /** A move as handed to the board: origin, destination and, maybe, a promotion piece. */
  datatype MoveObject = MoveObject(from: string, to: string, promotion: Option<string>)

  /** `decodeMove`: characters 0-1 and 2-3, plus the rest as promotion when the text has exactly five characters. */
  function DecodeMove(text: string): (m: MoveObject)
    ensures |text| >= 4 ==> m.from == text[..2] && m.to == text[2..4]
    ensures m.promotion.Some? <==> |text| == 5
    ensures m.promotion.Some? ==> m.promotion.value == [text[4]]
  {
    MoveObject(Slice(text, 0, 2), Slice(text, 2, 4), if |text| == 5 then Some(Slice(text, 4, |text|)) else None)
  }

  /** A move object written back as UCI text. */
  function MoveText(m: MoveObject): string
  {
    m.from + m.to + (if m.promotion.Some? then m.promotion.value else "")
  }

  /** Decoding keeps every character of a text of at most five characters, and loses the tail of a longer one. */
  lemma DecodeMoveKeepsText(text: string)
    ensures MoveText(DecodeMove(text)) == text <==> |text| <= 5
  {
    var m := DecodeMove(text);
    if |text| <= 5 {
      if |text| <= 2 {
        assert m.from == text && m.to == "";
      } else if |text| <= 4 {
        assert m.from + m.to == text[..2] + text[2..];
        assert text[..2] + text[2..] == text;
      } else {
        assert text[..2] + text[2..4] + text[4..] == text;
      }
    } else {
      assert |MoveText(m)| == 4;
    }
  }

  /** A well-formed move object (two-character squares, a one-character promotion) survives writing and decoding. */
  lemma MoveObjectRoundTrip(m: MoveObject)
    requires |m.from| == 2 && |m.to| == 2
    requires m.promotion.Some? ==> |m.promotion.value| == 1
    ensures DecodeMove(MoveText(m)) == m
  {
    var text := MoveText(m);
    assert text[..2] == m.from && text[2..4] == m.to;
    if m.promotion.Some? {
      assert [text[4]] == m.promotion.value;
    }
  }

  /** The chess rules the game relies on. `Load` and `Apply` give `None` where chess.js throws. */
  datatype Rules<!P> = Rules(load: string -> Option<P>, apply: (P, MoveObject) -> Option<P>, turn: P -> char)

  /** The clock and move state of a game (`gameState`, also embedded in `gameFull`). */
  datatype GameState = GameState(moves: string, whiteTime: int, blackTime: int, whiteIncrement: int, blackIncrement: int)

  /** The start of a game: who plays white, the starting FEN (or "startpos") and the state so far. */
  datatype GameFull = GameFull(whiteId: string, startingFen: string, state: GameState)

  /** What the game stream delivers. */
  datatype StreamEvent =
    | FullEvent(full: GameFull)
    | StateEvent(state: GameState)
    | ChatEvent(username: string, text: string, room: string)
    | GoneEvent(gone: bool, claimWinInSeconds: Option<int>)
    | OtherEvent(kind: string)

  /** What the game emits to its listeners. */
  datatype GameEvent =
    | GameFullEmitted(full: GameFull)
    | GameStateEmitted(state: GameState)
    | OurTurn
    | Chat(username: string, text: string, room: string)
    | OpponentGone(gone: bool, claimWinInSeconds: Option<int>)

  /**
    Replaying moves one by one: the board after the moves that applied, and
    whether all of them did. The first move the rules refuse stops the replay
    (chess.js throws out of the `forEach`); the earlier moves stay applied.
   */
  function Replay<P>(rules: Rules<P>, board: P, moves: seq<string>): (P, bool)
  {
    if moves == [] then (board, true)
    else
      var next := rules.apply(board, DecodeMove(moves[0]));
      if next.None? then (board, false) else Replay(rules, next.value, moves[1..])
  }

  /** Replaying a list is replaying its first part, then the rest from where that left off. */
  lemma {:induction false} ReplayAppend<P>(rules: Rules<P>, board: P, first: seq<string>, rest: seq<string>)
    ensures var (b, ok) := Replay(rules, board, first);
      Replay(rules, board, first + rest) == if ok then Replay(rules, b, rest) else (b, false)
  {
    if first == [] {
      assert first + rest == rest;
    } else {
      assert (first + rest)[0] == first[0];
      assert (first + rest)[1..] == first[1..] + rest;
      var next := rules.apply(board, DecodeMove(first[0]));
      if next.Some? {
        ReplayAppend(rules, next.value, first[1..], rest);
      }
    }
  }

  /** One more move of the list: replayed onto the board so far, or the replay of the whole list stops there. */
  lemma ReplayStep<P>(rules: Rules<P>, start: P, moves: seq<string>, i: nat, board: P)
    requires i < |moves| && Replay(rules, start, moves[..i]) == (board, true)
    ensures var next := rules.apply(board, DecodeMove(moves[i]));
      && (next.Some? ==> Replay(rules, start, moves[..i + 1]) == (next.value, true))
      && (next.None? ==> Replay(rules, start, moves) == (board, false))
  {
    ReplayAppend(rules, start, moves[..i], [moves[i]]);
    assert moves[..i] + [moves[i]] == moves[..i + 1];
    ReplayAppend(rules, start, moves[..i], moves[i..]);
    assert moves[..i] + moves[i..] == moves;
    assert moves[i..][0] == moves[i];
  }

  /** The colour we play: "w" exactly when the white player is the logged-in user. */
  function Colour(full: GameFull, userId: string): (c: char)
    ensures c == 'w' <==> full.whiteId == userId
    ensures c == 'w' || c == 'b'
  {
    if full.whiteId == userId then 'w' else 'b'
  }

  /** The request path of `move`: `?offeringDraw=true` is appended exactly when a draw is offered. */
  function MovePath(gameId: string, move: string, draw: bool): string
  {
    "/api/bot/game/" + gameId + "/move/" + move + (if draw then "?offeringDraw=true" else "")
  }

  /** For a move without `?`, the path ends in the draw offer exactly when one is made, and the move is recoverable. */
  lemma MovePathDraw(gameId: string, move: string, draw: bool)
    requires '?' !in move
    ensures var path := MovePath(gameId, move, draw); var offer := "?offeringDraw=true";
      && (draw <==> |path| >= |offer| && path[|path| - |offer|..] == offer)
      && path[..|path| - (if draw then |offer| else 0)] == "/api/bot/game/" + gameId + "/move/" + move
  {
    var offer := "?offeringDraw=true";
    var base := "/api/bot/game/" + gameId + "/move/" + move;
    var path := MovePath(gameId, move, draw);
    if draw {
      assert path == base + offer;
      assert path[|path| - |offer|..] == offer;
      assert path[..|path| - |offer|] == base;
    } else {
      assert path == base;
      assert base == ("/api/bot/game/" + gameId) + "/move/" + move;
      NoOfferSuffix("/api/bot/game/" + gameId, move);
    }
  }

  /** A path ending in `/move/M`, for M without `?`, does not end in the draw offer. */
  lemma NoOfferSuffix(prefix: string, move: string)
    requires '?' !in move
    ensures var base := prefix + "/move/" + move; var offer := "?offeringDraw=true";
      |base| >= |offer| ==> base[|base| - |offer|..] != offer
  {
    var base := prefix + "/move/" + move;
    var offer := "?offeringDraw=true";
    if |base| >= |offer| {
      var start := |base| - |offer|;
      var tail := base[start..];
      if |move| >= |offer| {
        assert tail[0] == move[|move| - |offer|];
        assert tail[0] != offer[0];
      } else {
        var k := |base| - |move| - 1 - start;
        assert tail[k] == base[|base| - |move| - 1] == '/';
        assert '/' !in offer;
        assert tail[k] != offer[k];
      }
    }
  }

  /** The bot's view of one game: the board, our colour, the latest state, and what it emitted and requested. */
  class Game<P> {
    const gameId: string
    const userId: string
    const rules: Rules<P>
    var board: P
    var gameFull: Option<GameFull>
    var lastState: Option<GameState>
    var ourColour: Option<char>
    var events: seq<GameEvent>
    var requests: seq<string>

    constructor (gameId: string, userId: string, rules: Rules<P>, startBoard: P)
      ensures this.gameId == gameId && this.userId == userId && this.rules == rules && board == startBoard
      ensures gameFull == None && lastState == None && ourColour == None
      ensures events == [] && requests == []
    {
      this.gameId := gameId;
      this.userId := userId;
      this.rules := rules;
      board := startBoard;
      gameFull := None;
      lastState := None;
      ourColour := None;
      events := [];
      requests := [];
    }

    /**
      The stream listener. A throw from the rules (a FEN that does not load, a
      replayed move that does not apply) ends the handler where it happens.
     */
    method HandleStream(event: StreamEvent)
      modifies this
      ensures requests == old(requests)
      ensures event.FullEvent? ==> HandledFull(event.full, old(board), old(lastState), old(ourColour), old(events))
      ensures event.StateEvent? ==> HandledState(event.state, old(board), old(ourColour), old(events)) && gameFull == old(gameFull)
      ensures event.ChatEvent? ==>
                board == old(board) && lastState == old(lastState) && ourColour == old(ourColour)
                && gameFull == old(gameFull) && events == old(events) + [Chat(event.username, event.text, event.room)]
      ensures event.GoneEvent? ==>
                board == old(board) && lastState == old(lastState) && ourColour == old(ourColour)
                && gameFull == old(gameFull) && events == old(events) + [OpponentGone(event.gone, event.claimWinInSeconds)]
      ensures event.OtherEvent? ==>
                board == old(board) && lastState == old(lastState) && ourColour == old(ourColour)
                && gameFull == old(gameFull) && events == old(events)
    {
      match event
      case FullEvent(full) => OnGameFull(full);
      case StateEvent(state) => OnGameState(state);
      case ChatEvent(username, text, room) =>
        events := events + [Chat(username, text, room)];
      case GoneEvent(gone, claim) =>
        events := events + [OpponentGone(gone, claim)];
      case OtherEvent(_) =>
    }

    /**
      What a `gameFull` event leaves behind: the board loaded (unless the game
      starts from "startpos") and the moves replayed; if all of that succeeded,
      our colour, the last state, the `gameFull` event and then `ourTurn` iff
      the side to move is ours.
     */
    ghost predicate HandledFull(full: GameFull, board0: P, state0: Option<GameState>, colour0: Option<char>, events0: seq<GameEvent>)
      reads this
    {
      var loaded := if full.startingFen == "startpos" then Some(board0) else rules.load(full.startingFen);
      var moves := Split(full.state.moves, ' ');
      gameFull == Some(full)
      && if loaded.None? then
           board == board0 && lastState == state0 && ourColour == colour0 && events == events0
         else
           var (replayed, ok) := if moves[0] != "" then Replay(rules, loaded.value, moves) else (loaded.value, true);
           board == replayed
           && if !ok then lastState == state0 && ourColour == colour0 && events == events0
              else
                && ourColour == Some(Colour(full, userId))
                && lastState == Some(full.state)
                && events == events0 + [GameFullEmitted(full)] + (if rules.turn(replayed) == Colour(full, userId) then [OurTurn] else [])
    }

    /**
      What a `gameState` event leaves behind: only the last move token is
      tried; the state is replaced whether or not it applied; `ourTurn` comes
      first, iff the move applied and the side to move is ours, then `gameState`.
     */
    ghost predicate HandledState(state: GameState, board0: P, colour: Option<char>, events0: seq<GameEvent>)
      reads this
    {
      var lastMove := Last(Split(state.moves, ' '));
      var next := rules.apply(board0, DecodeMove(lastMove.value));
      && lastMove.Some?
      && board == (if next.Some? then next.value else board0)
      && lastState == Some(state)
      && ourColour == colour
      && events == events0 + (if next.Some? && Some(rules.turn(board)) == colour then [OurTurn] else []) + [GameStateEmitted(state)]
    }

    method OnGameFull(full: GameFull)
      modifies this
      ensures requests == old(requests)
      ensures HandledFull(full, old(board), old(lastState), old(ourColour), old(events))
    {
      gameFull := Some(full);
      if full.startingFen != "startpos" {
        var loaded := rules.load(full.startingFen);
        if loaded.None? {
          return;
        }
        board := loaded.value;
      }
      var moves := Split(full.state.moves, ' ');
      if moves[0] != "" {
        var ok := ReplayMoves(moves);
        if !ok {
          return;
        }
      }
      var isWhite := full.whiteId == userId;
      ourColour := Some(if isWhite then 'w' else 'b');
      lastState := Some(full.state);
      events := events + [GameFullEmitted(full)];
      if rules.turn(board) == ourColour.value {
        events := events + [OurTurn];
      }
    }

    /** The `forEach` applying each move to the board in turn; stops at the first one the rules refuse. */
    method ReplayMoves(moves: seq<string>) returns (ok: bool)
      modifies this
      ensures (board, ok) == Replay(rules, old(board), moves)
      ensures gameFull == old(gameFull) && lastState == old(lastState) && ourColour == old(ourColour)
      ensures events == old(events) && requests == old(requests)
    {
      var i := 0;
      while i < |moves|
        invariant 0 <= i <= |moves|
        invariant Replay(rules, old(board), moves[..i]) == (board, true)
        invariant gameFull == old(gameFull) && lastState == old(lastState) && ourColour == old(ourColour)
        invariant events == old(events) && requests == old(requests)
      {
        ReplayStep(rules, old(board), moves, i, board);
        var next := rules.apply(board, DecodeMove(moves[i]));
        if next.None? {
          return false;
        }
        board := next.value;
        i := i + 1;
      }
      assert moves[..i] == moves;
      ok := true;
    }

    method OnGameState(state: GameState)
      modifies this
      ensures requests == old(requests) && gameFull == old(gameFull)
      ensures HandledState(state, old(board), old(ourColour), old(events))
    {
      var lastMove := Last(Split(state.moves, ' '));
      var moveWasMade := false;
      var next := rules.apply(board, DecodeMove(lastMove.value));
      if next.Some? {
        board := next.value;
        moveWasMade := true;
      }
      lastState := Some(state);
      if Some(rules.turn(board)) == ourColour && moveWasMade {
        events := events + [OurTurn];
      }
      events := events + [GameStateEmitted(state)];
    }

    /** Plays a move: one request to the move endpoint. */
    method Move(move: string, draw: bool)
      modifies this
      ensures requests == old(requests) + [MovePath(gameId, move, draw)]
      ensures board == old(board) && gameFull == old(gameFull) && lastState == old(lastState)
      ensures ourColour == old(ourColour) && events == old(events)
    {
      requests := requests + [MovePath(gameId, move, draw)];
    }
  }
}
