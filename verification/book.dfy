/**
  The opening book loader (util/BookHandler.js, class `BookHandler`).

  A book file is a run of records. Each record is a 32-byte position key (the
  SHA-256 of a FEN), one count byte, and that many moves, each a two-byte
  packed move followed by a score. Loading walks the buffer record by record
  until the cursor reaches its length, refuses a key it has already seen, and
  keeps at most `movesPerPosition` moves per key while still reading all of
  them.

  The score's varint encoding belongs to a buffer helper that is not part of
  this model: it is a `ScoreReader`, given the bytes from the cursor on, that
  answers with the score and the number of bytes it used, or `None` when it
  throws. Every read that would pass the end of the buffer fails.
 */
module Book {
  import opened Js
  import opened MoveCodec

  type Key = seq<Byte>

  /** One book entry: the decoded move text and its centipawn score. */
  datatype BookMove = BookMove(bestMove: string, cp: int)

  /** Reads one score from the bytes at the cursor: the score and how many bytes it took. */
  type ScoreReader = seq<Byte> -> Option<(int, nat)>

  /** The key and count byte of a record. */
  const HeaderLength := 33

  // ---------------------------------------------------------------------------
  // Reading the moves of one record

  /** Where reading a record's moves stopped: the moves gathered, the cursor, and whether every read succeeded. */
  datatype MovesRead = MovesRead(moves: seq<BookMove>, cursor: nat, ok: bool)

  /**
    One move: the packed two bytes at `cursor` and the score after them.
    `None` when a read passes the end, the promotion bits do not decode, or
    the score reader throws.
   */
  function ReadMove(buf: seq<Byte>, cursor: nat, readScore: ScoreReader): (r: Option<(BookMove, nat)>)
    ensures r.Some? ==> cursor + 2 <= r.value.1 <= |buf|
    ensures r.Some? ==> ValidMoveText(r.value.0.bestMove)
  {
    if cursor + 2 > |buf| then None
    else
      match BufferToMove(buf[cursor..cursor + 2])
      case None => None
      case Some(text) =>
        match readScore(buf[cursor + 2..])
        case None => None
        case Some(score) =>
          if score.1 > |buf| - (cursor + 2) then None
          else Some((BookMove(text, score.0), cursor + 2 + score.1))
  }

  /** Reads one move at a cursor: the entry and the cursor after it, or `None` when the read throws. */
  type MoveReader = nat -> Option<(BookMove, nat)>

  /** The move reader of a book buffer. */
  function MovesOf(buf: seq<Byte>, readScore: ScoreReader): MoveReader
  {
    cursor => ReadMove(buf, cursor, readScore)
  }

  /** Every successful read moves the cursor forward and stays within `limit`. */
  ghost predicate Within(read: MoveReader, limit: nat) {
    forall cursor: nat :: read(cursor).Some? ==> cursor < read(cursor).value.1 <= limit
  }

  lemma MovesOfWithin(buf: seq<Byte>, readScore: ScoreReader)
    ensures Within(MovesOf(buf, readScore), |buf|)
  {
  }

  /** Reference reading: all `count` moves in file order, stopping at the first failed read. */
  function ReadAll(read: MoveReader, cursor: nat, count: nat): (r: MovesRead)
    ensures r.ok ==> |r.moves| == count
    ensures |r.moves| <= count
    decreases count
  {
    if count == 0 then MovesRead([], cursor, true)
    else
      var one := read(cursor);
      if one.None? then MovesRead([], cursor, false)
      else
        var rest := ReadAll(read, one.value.1, count - 1);
        MovesRead([one.value.0] + rest.moves, rest.cursor, rest.ok)
  }

  /** The first `cap` elements, as pushing only while `length < cap` keeps them; nothing when `cap <= 0`. */
  function Keep(moves: seq<BookMove>, cap: int): (r: seq<BookMove>)
    ensures r <= moves
    ensures |r| == if cap <= 0 then 0 else if |moves| <= cap then |moves| else cap
  {
    if cap <= 0 then [] else if |moves| <= cap then moves else moves[..cap]
  }

  /**
    The inner `for` loop: `remaining` more moves are read, and each is pushed
    onto `kept` only while `kept` is shorter than `cap`.
   */
  function ReadMoves(read: MoveReader, cursor: nat, remaining: nat, kept: seq<BookMove>, cap: int): MovesRead
    decreases remaining
  {
    if remaining == 0 then MovesRead(kept, cursor, true)
    else
      var one := read(cursor);
      if one.None? then MovesRead(kept, cursor, false)
      else
        var kept' := if |kept| < cap then kept + [one.value.0] else kept;
        ReadMoves(read, one.value.1, remaining - 1, kept', cap)
  }

  /** With a reader that moves forward within `limit`, reading moves ends between the start and `limit`. */
  lemma {:induction false} ReadAllWithin(read: MoveReader, limit: nat, cursor: nat, count: nat)
    requires Within(read, limit) && cursor <= limit
    ensures cursor <= ReadAll(read, cursor, count).cursor <= limit
    decreases count
  {
    if count > 0 && read(cursor).Some? {
      ReadAllWithin(read, limit, read(cursor).value.1, count - 1);
    }
  }

  /**
    The cap keeps the first `cap` moves in file order, and every move is still
    read, so the cursor and the outcome are those of reading without a cap.
   */
  lemma {:induction false} ReadMovesKeepsFirst(read: MoveReader, cursor: nat, remaining: nat, kept: seq<BookMove>, cap: int)
    requires Keep(kept, cap) == kept
    ensures var all := ReadAll(read, cursor, remaining);
      ReadMoves(read, cursor, remaining, kept, cap) == MovesRead(Keep(kept + all.moves, cap), all.cursor, all.ok)
    decreases remaining
  {
    var all := ReadAll(read, cursor, remaining);
    if remaining == 0 {
      assert kept + all.moves == kept;
    } else {
      var one := read(cursor);
      if one.None? {
        assert kept + all.moves == kept;
      } else {
        var move, next := one.value.0, one.value.1;
        var kept' := if |kept| < cap then kept + [move] else kept;
        var rest := ReadAll(read, next, remaining - 1);
        ReadMovesKeepsFirst(read, next, remaining - 1, kept', cap);
        assert all.moves == [move] + rest.moves;
        if |kept| < cap {
          assert kept' + rest.moves == kept + all.moves;
          KeepPrefix(kept, move, cap);
        } else {
          KeepFull(kept, all.moves, cap);
        }
      }
    }
  }

  lemma KeepPrefix(kept: seq<BookMove>, move: BookMove, cap: int)
    requires Keep(kept, cap) == kept && |kept| < cap
    ensures Keep(kept + [move], cap) == kept + [move]
  {
  }

  /** Once `kept` holds `cap` moves (or `cap <= 0`), more moves change nothing. */
  lemma KeepFull(kept: seq<BookMove>, more: seq<BookMove>, cap: int)
    requires Keep(kept, cap) == kept && |kept| >= cap
    ensures Keep(kept + more, cap) == kept
  {
    if cap > 0 {
      assert (kept + more)[..cap] == kept;
    }
  }

  // ---------------------------------------------------------------------------
  // Reading the whole book

  /** Where loading stopped: the position list, the records begun and whether the load succeeded. */
  datatype Loaded = Loaded(positions: map<Key, seq<BookMove>>, total: nat, ok: bool)

  /**
    The outer `while` loop from `cursor`: stop successfully at the end of the
    buffer; otherwise count one more record, read its key and count byte,
    fail on a key already present, start the key's list empty, and read its
    moves. A failed move read leaves the partly filled list in place.
   */
  function LoadFrom(buf: seq<Byte>, read: MoveReader, cursor: nat, positions: map<Key, seq<BookMove>>, total: nat, cap: int): (r: Loaded)
    requires Within(read, |buf|) && cursor <= |buf|
    ensures r.total >= total
    decreases |buf| - cursor
  {
    if cursor == |buf| then Loaded(positions, total, true)
    else if |buf| - cursor < HeaderLength then Loaded(positions, total + 1, false)
    else
      var key := buf[cursor..cursor + 32];
      if key in positions then Loaded(positions, total + 1, false)
      else
        var record := ReadMoves(read, cursor + HeaderLength, buf[cursor + 32], [], cap);
        var positions' := positions[key := record.moves];
        RecordEnd(read, |buf|, cursor + HeaderLength, buf[cursor + 32], cap);
        if !record.ok then Loaded(positions', total + 1, false)
        else LoadFrom(buf, read, record.cursor, positions', total + 1, cap)
  }

  /** A record's moves end between their start and the end of the buffer. */
  lemma RecordEnd(read: MoveReader, limit: nat, cursor: nat, count: nat, cap: int)
    requires Within(read, limit) && cursor <= limit
    ensures cursor <= ReadMoves(read, cursor, count, [], cap).cursor <= limit
  {
    ReadMovesKeepsFirst(read, cursor, count, [], cap);
    ReadAllWithin(read, limit, cursor, count);
  }

  /** A record's kept moves: the first `cap` of all its moves. */
  lemma RecordKeepsFirst(read: MoveReader, cursor: nat, count: nat, cap: int)
    ensures ReadMoves(read, cursor, count, [], cap).moves == Keep(ReadAll(read, cursor, count).moves, cap)
    ensures ReadMoves(read, cursor, count, [], cap).ok == ReadAll(read, cursor, count).ok
    ensures ReadMoves(read, cursor, count, [], cap).cursor == ReadAll(read, cursor, count).cursor
  {
    ReadMovesKeepsFirst(read, cursor, count, [], cap);
    var all := ReadAll(read, cursor, count);
    assert [] + all.moves == all.moves;
  }

  /** Loading never drops or changes an entry that was there before. */
  lemma {:induction false} LoadKeepsEarlier(buf: seq<Byte>, read: MoveReader, cursor: nat, positions: map<Key, seq<BookMove>>, total: nat, cap: int)
    requires Within(read, |buf|) && cursor <= |buf|
    ensures var r := LoadFrom(buf, read, cursor, positions, total, cap);
      forall k :: k in positions ==> k in r.positions && r.positions[k] == positions[k]
    decreases |buf| - cursor
  {
    if cursor < |buf| && |buf| - cursor >= HeaderLength {
      var key := buf[cursor..cursor + 32];
      if key !in positions {
        var record := ReadMoves(read, cursor + HeaderLength, buf[cursor + 32], [], cap);
        RecordEnd(read, |buf|, cursor + HeaderLength, buf[cursor + 32], cap);
        if record.ok {
          assert forall k :: k in positions ==> k in positions[key := record.moves] && positions[key := record.moves][k] == positions[k];
          LoadKeepsEarlier(buf, read, record.cursor, positions[key := record.moves], total + 1, cap);
        }
      }
    }
  }

  /** A record whose key is already present stops the load: it fails, counts the record, and changes no entry. */
  lemma DuplicateKeyFails(buf: seq<Byte>, read: MoveReader, cursor: nat, positions: map<Key, seq<BookMove>>, total: nat, cap: int)
    requires Within(read, |buf|) && cursor <= |buf|
    requires |buf| - cursor >= HeaderLength && buf[cursor..cursor + 32] in positions
    ensures LoadFrom(buf, read, cursor, positions, total, cap) == Loaded(positions, total + 1, false)
  {
  }

  /**
    Every record begun adds at most one key, so `#total` grows at least as
    much as the position list; after a successful load every record added
    exactly one new key, so `#total` counts the new positions.
   */
  lemma {:induction false} LoadCountsRecords(buf: seq<Byte>, read: MoveReader, cursor: nat, positions: map<Key, seq<BookMove>>, total: nat, cap: int)
    requires Within(read, |buf|) && cursor <= |buf|
    ensures var r := LoadFrom(buf, read, cursor, positions, total, cap);
      && |r.positions.Keys| <= |positions.Keys| + (r.total - total)
      && (r.ok ==> |r.positions.Keys| == |positions.Keys| + (r.total - total))
    decreases |buf| - cursor
  {
    if cursor == |buf| || |buf| - cursor < HeaderLength {
    } else if RecordKey(buf, cursor) in positions {
      DuplicateKeyFails(buf, read, cursor, positions, total, cap);
    } else {
      var all := ReadAll(read, cursor + HeaderLength, buf[cursor + 32]);
      var positions' := positions[RecordKey(buf, cursor) := Keep(all.moves, cap)];
      LoadStep(buf, read, cursor, positions, total, cap);
      OneMoreKey(positions, RecordKey(buf, cursor), Keep(all.moves, cap));
      if all.ok {
        LoadCountsRecords(buf, read, all.cursor, positions', total + 1, cap);
      }
    }
  }

  lemma OneMoreKey(positions: map<Key, seq<BookMove>>, key: Key, moves: seq<BookMove>)
    requires key !in positions
    ensures |positions[key := moves].Keys| == |positions.Keys| + 1
  {
    assert positions[key := moves].Keys == positions.Keys + {key};
  }

  /** No loaded position holds more than `cap` moves (none at all when `cap <= 0`). */
  predicate WithinCap(positions: map<Key, seq<BookMove>>, cap: int) {
    forall k :: k in positions ==> Keep(positions[k], cap) == positions[k]
  }

  /** Loading keeps every position within the per-position cap. */
  lemma {:induction false} LoadWithinCap(buf: seq<Byte>, read: MoveReader, cursor: nat, positions: map<Key, seq<BookMove>>, total: nat, cap: int)
    requires Within(read, |buf|) && cursor <= |buf|
    requires WithinCap(positions, cap)
    ensures WithinCap(LoadFrom(buf, read, cursor, positions, total, cap).positions, cap)
    decreases |buf| - cursor
  {
    if cursor < |buf| && |buf| - cursor >= HeaderLength {
      var key := buf[cursor..cursor + 32];
      if key !in positions {
        var count := buf[cursor + 32];
        var record := ReadMoves(read, cursor + HeaderLength, count, [], cap);
        RecordEnd(read, |buf|, cursor + HeaderLength, count, cap);
        RecordKeepsFirst(read, cursor + HeaderLength, count, cap);
        KeepIdempotent(ReadAll(read, cursor + HeaderLength, count).moves, cap);
        if record.ok {
          LoadWithinCap(buf, read, record.cursor, positions[key := record.moves], total + 1, cap);
        }
      }
    }
  }

  lemma KeepIdempotent(moves: seq<BookMove>, cap: int)
    ensures Keep(Keep(moves, cap), cap) == Keep(moves, cap)
  {
    if cap > 0 && |moves| > cap {
      assert |moves[..cap]| == cap;
    }
  }

  /**
    Where the records of the buffer begin from `cursor`, following each
    record's move count, whatever their keys: the end of the buffer ends the
    list, and a short header or a failed move read is the last record begun.
   */
  function RecordStarts(buf: seq<Byte>, read: MoveReader, cursor: nat): (r: seq<nat>)
    requires Within(read, |buf|) && cursor <= |buf|
    ensures forall i :: 0 <= i < |r| ==> cursor <= r[i] < |buf|
    ensures forall i, j :: 0 <= i < j < |r| ==> r[i] + HeaderLength <= r[j]
    decreases |buf| - cursor
  {
    if cursor == |buf| then []
    else if |buf| - cursor < HeaderLength then [cursor]
    else
      var all := ReadAll(read, cursor + HeaderLength, buf[cursor + 32]);
      ReadAllWithin(read, |buf|, cursor + HeaderLength, buf[cursor + 32]);
      if !all.ok then [cursor] else [cursor] + RecordStarts(buf, read, all.cursor)
  }

  /** The key of the record starting at `start`. */
  function RecordKey(buf: seq<Byte>, start: nat): Key
    requires start + 32 <= |buf|
  {
    buf[start..start + 32]
  }

  /** The record starting at `start` is whole, and its key maps to the first `cap` of its moves. */
  predicate Found(buf: seq<Byte>, read: MoveReader, start: nat, positions: map<Key, seq<BookMove>>, cap: int)
  {
    && start + HeaderLength <= |buf|
    && RecordKey(buf, start) in positions
    && positions[RecordKey(buf, start)] == Keep(ReadAll(read, start + HeaderLength, buf[start + 32]).moves, cap)
  }

  /**
    One record with a new key, read in full or not: the load and the record
    starts both continue after its moves, or end with it.
   */
  lemma LoadStep(buf: seq<Byte>, read: MoveReader, cursor: nat, positions: map<Key, seq<BookMove>>, total: nat, cap: int)
    requires Within(read, |buf|) && cursor <= |buf| && |buf| - cursor >= HeaderLength
    requires RecordKey(buf, cursor) !in positions
    ensures var all := ReadAll(read, cursor + HeaderLength, buf[cursor + 32]);
      var positions' := positions[RecordKey(buf, cursor) := Keep(all.moves, cap)];
      && cursor < all.cursor <= |buf|
      && LoadFrom(buf, read, cursor, positions, total, cap)
         == (if all.ok then LoadFrom(buf, read, all.cursor, positions', total + 1, cap) else Loaded(positions', total + 1, false))
      && RecordStarts(buf, read, cursor) == (if all.ok then [cursor] + RecordStarts(buf, read, all.cursor) else [cursor])
  {
    RecordKeepsFirst(read, cursor + HeaderLength, buf[cursor + 32], cap);
    ReadAllWithin(read, |buf|, cursor + HeaderLength, buf[cursor + 32]);
  }

  /**
    After a successful load every record begun was counted, and each is
    found with the first `cap` of its moves in file order.
   */
  lemma {:induction false} LoadFindsRecords(buf: seq<Byte>, read: MoveReader, cursor: nat, positions: map<Key, seq<BookMove>>, total: nat, cap: int)
    requires Within(read, |buf|) && cursor <= |buf|
    ensures var r := LoadFrom(buf, read, cursor, positions, total, cap);
      var starts := RecordStarts(buf, read, cursor);
      r.ok ==> r.total == total + |starts| && forall i :: 0 <= i < |starts| ==> Found(buf, read, starts[i], r.positions, cap)
    decreases |buf| - cursor
  {
    if cursor == |buf| || |buf| - cursor < HeaderLength {
    } else if RecordKey(buf, cursor) in positions {
      DuplicateKeyFails(buf, read, cursor, positions, total, cap);
    } else {
      var all := ReadAll(read, cursor + HeaderLength, buf[cursor + 32]);
      var positions' := positions[RecordKey(buf, cursor) := Keep(all.moves, cap)];
      LoadStep(buf, read, cursor, positions, total, cap);
      if all.ok {
        var r := LoadFrom(buf, read, all.cursor, positions', total + 1, cap);
        LoadFindsRecords(buf, read, all.cursor, positions', total + 1, cap);
        LoadKeepsEarlier(buf, read, all.cursor, positions', total + 1, cap);
        FoundFirst(buf, read, cursor, positions, r.positions, cap);
        FoundCons(buf, read, cursor, RecordStarts(buf, read, all.cursor), r, total, cap);
      }
    }
  }

  /** The record at `cursor`, once stored, is found in any list that keeps every stored entry. */
  lemma FoundFirst(buf: seq<Byte>, read: MoveReader, cursor: nat, positions: map<Key, seq<BookMove>>, later: map<Key, seq<BookMove>>, cap: int)
    requires cursor + HeaderLength <= |buf|
    requires var stored := positions[RecordKey(buf, cursor) := Keep(ReadAll(read, cursor + HeaderLength, buf[cursor + 32]).moves, cap)];
      forall k :: k in stored ==> k in later && later[k] == stored[k]
    ensures Found(buf, read, cursor, later, cap)
  {
    var key := RecordKey(buf, cursor);
    assert key in positions[key := Keep(ReadAll(read, cursor + HeaderLength, buf[cursor + 32]).moves, cap)];
  }

  lemma FoundCons(buf: seq<Byte>, read: MoveReader, start: nat, rest: seq<nat>, r: Loaded, total: nat, cap: int)
    requires Found(buf, read, start, r.positions, cap)
    requires r.ok ==> r.total == total + 1 + |rest| && forall i :: 0 <= i < |rest| ==> Found(buf, read, rest[i], r.positions, cap)
    ensures r.ok ==> r.total == total + |[start] + rest| && forall i :: 0 <= i < |[start] + rest| ==> Found(buf, read, ([start] + rest)[i], r.positions, cap)
  {
  }

  /** The record starting at `start` is whole and its key is not in `positions`. */
  predicate Fresh(buf: seq<Byte>, start: nat, positions: map<Key, seq<BookMove>>)
  {
    start + HeaderLength <= |buf| && RecordKey(buf, start) !in positions
  }

  /** Whole records with pairwise different keys. */
  predicate DistinctKeys(buf: seq<Byte>, starts: seq<nat>)
  {
    forall i, j :: 0 <= i < j < |starts| ==> starts[i] + 32 <= |buf| && starts[j] + 32 <= |buf| && RecordKey(buf, starts[i]) != RecordKey(buf, starts[j])
  }

  /**
    After a successful load no record's key was present before, and no two
    records share a key.
   */
  lemma {:induction false} LoadedKeysFresh(buf: seq<Byte>, read: MoveReader, cursor: nat, positions: map<Key, seq<BookMove>>, total: nat, cap: int)
    requires Within(read, |buf|) && cursor <= |buf|
    ensures var starts := RecordStarts(buf, read, cursor);
      LoadFrom(buf, read, cursor, positions, total, cap).ok ==>
        (forall i :: 0 <= i < |starts| ==> Fresh(buf, starts[i], positions)) && DistinctKeys(buf, starts)
    decreases |buf| - cursor
  {
    if cursor < |buf| && |buf| - cursor >= HeaderLength && RecordKey(buf, cursor) !in positions {
      var all := ReadAll(read, cursor + HeaderLength, buf[cursor + 32]);
      var positions' := positions[RecordKey(buf, cursor) := Keep(all.moves, cap)];
      LoadStep(buf, read, cursor, positions, total, cap);
      if all.ok {
        LoadedKeysFresh(buf, read, all.cursor, positions', total + 1, cap);
        if LoadFrom(buf, read, all.cursor, positions', total + 1, cap).ok {
          FreshCons(buf, cursor, RecordStarts(buf, read, all.cursor), positions, Keep(all.moves, cap));
        }
      }
    }
  }

  lemma FreshCons(buf: seq<Byte>, start: nat, rest: seq<nat>, positions: map<Key, seq<BookMove>>, moves: seq<BookMove>)
    requires Fresh(buf, start, positions)
    requires forall i :: 0 <= i < |rest| ==> Fresh(buf, rest[i], positions[RecordKey(buf, start) := moves])
    requires DistinctKeys(buf, rest)
    ensures forall i :: 0 <= i < |[start] + rest| ==> Fresh(buf, ([start] + rest)[i], positions)
    ensures DistinctKeys(buf, [start] + rest)
  {
    var starts := [start] + rest;
    forall i, j | 0 <= i < j < |starts|
      ensures starts[i] + 32 <= |buf| && starts[j] + 32 <= |buf| && RecordKey(buf, starts[i]) != RecordKey(buf, starts[j])
    {
      assert starts[j] == rest[j - 1];
      if i > 0 {
        assert starts[i] == rest[i - 1];
      }
    }
  }

  /** A record repeating the key of an earlier record of the same buffer makes the load fail. */
  lemma RepeatedKeyFails(buf: seq<Byte>, read: MoveReader, cursor: nat, positions: map<Key, seq<BookMove>>, total: nat, cap: int, i: nat, j: nat)
    requires Within(read, |buf|) && cursor <= |buf|
    requires i < j < |RecordStarts(buf, read, cursor)|
    requires RecordStarts(buf, read, cursor)[j] + 32 <= |buf|
    requires RecordKey(buf, RecordStarts(buf, read, cursor)[i]) == RecordKey(buf, RecordStarts(buf, read, cursor)[j])
    ensures !LoadFrom(buf, read, cursor, positions, total, cap).ok
  {
    LoadedKeysFresh(buf, read, cursor, positions, total, cap);
  }

  // ---------------------------------------------------------------------------
  // The handler

  class BookHandler {
    var positionList: map<Key, seq<BookMove>>
    var loaded: bool
    var movesPerPosition: int
    var total: nat

    /** Every stored position came from a counted record. */
    ghost predicate Valid()
      reads this
    {
      |positionList.Keys| <= total
    }

    constructor(movesPerPosition: int)
      ensures this.positionList == map[] && !loaded && this.movesPerPosition == movesPerPosition && total == 0
      ensures Valid()
    {
      this.positionList := map[];
      this.loaded := false;
      this.movesPerPosition := movesPerPosition;
      this.total := 0;
    }

    /**
      `loadFile` on the file's bytes. The moves are read with the packed-move
      decoder and the given score reader; a failure (`ok == false`, where the
      source throws "Failed to load book!") keeps everything read so far and
      leaves `loaded` as it was.
     */
    method LoadFile(buf: seq<Byte>, readScore: ScoreReader) returns (ok: bool)
      requires Valid()
      modifies this
      ensures Valid()
      ensures var r := LoadFrom(buf, MovesOf(buf, readScore), 0, old(positionList), old(total), old(movesPerPosition));
        positionList == r.positions && total == r.total && ok == r.ok
      ensures loaded == (old(loaded) || ok)
      ensures movesPerPosition == old(movesPerPosition)
    {
      MovesOfWithin(buf, readScore);
      LoadCountsRecords(buf, MovesOf(buf, readScore), 0, positionList, total, movesPerPosition);
      ok := LoadRecords(buf, MovesOf(buf, readScore));
      if ok {
        loaded := true;
      }
    }

    /**
      The body of `loadFile`'s `try`: the outer loop over records and the inner
      loop over a record's moves, updating the position list in place.
     */
    method LoadRecords(buf: seq<Byte>, read: MoveReader) returns (ok: bool)
      requires Within(read, |buf|)
      modifies this
      ensures var r := LoadFrom(buf, read, 0, old(positionList), old(total), old(movesPerPosition));
        positionList == r.positions && total == r.total && ok == r.ok
      ensures loaded == old(loaded) && movesPerPosition == old(movesPerPosition)
    {
      ghost var goal := LoadFrom(buf, read, 0, positionList, total, movesPerPosition);
      var cursor: nat := 0;
      while cursor != |buf|
        invariant cursor <= |buf|
        invariant LoadFrom(buf, read, cursor, positionList, total, movesPerPosition) == goal
        invariant loaded == old(loaded) && movesPerPosition == old(movesPerPosition)
        decreases |buf| - cursor
      {
        total := total + 1;
        if |buf| - cursor < HeaderLength {
          return false;
        }
        var sha := buf[cursor..cursor + 32];
        var moveArrayLength := buf[cursor + 32];
        if sha in positionList {
          return false;
        }
        var start := cursor + HeaderLength;
        ghost var before := positionList;
        ghost var record := ReadMoves(read, start, moveArrayLength, [], movesPerPosition);
        RecordEnd(read, |buf|, start, moveArrayLength, movesPerPosition);
        assert goal == if !record.ok then Loaded(before[sha := record.moves], total, false)
                       else LoadFrom(buf, read, record.cursor, before[sha := record.moves], total, movesPerPosition);
        var complete;
        complete, cursor := ReadRecord(read, |buf|, sha, start, moveArrayLength);
        if !complete {
          return false;
        }
      }
      return true;
    }

    /**
      The inner `for` loop of `loadFile`: the record's list starts empty under
      `sha`, and each of the `count` moves read is pushed while the list is
      shorter than `movesPerPosition`; a failed read stops with the list so far.
     */
    method ReadRecord(read: MoveReader, limit: nat, sha: Key, start: nat, count: nat) returns (ok: bool, cursor: nat)
      requires Within(read, limit) && start <= limit
      modifies this
      ensures var record := ReadMoves(read, start, count, [], movesPerPosition);
        positionList == old(positionList)[sha := record.moves] && ok == record.ok && cursor == record.cursor
      ensures start <= cursor <= limit
      ensures total == old(total) && loaded == old(loaded) && movesPerPosition == old(movesPerPosition)
    {
      ghost var before := positionList;
      ghost var record := ReadMoves(read, start, count, [], movesPerPosition);
      positionList := positionList[sha := []];
      cursor := start;
      var i := 0;
      while i < count
        invariant 0 <= i <= count
        invariant start <= cursor <= limit
        invariant sha in positionList && positionList == before[sha := positionList[sha]]
        invariant ReadMoves(read, cursor, count - i, positionList[sha], movesPerPosition) == record
        invariant total == old(total) && loaded == old(loaded) && movesPerPosition == old(movesPerPosition)
      {
        var next := read(cursor);
        if next.None? {
          assert record == MovesRead(positionList[sha], cursor, false);
          return false, cursor;
        }
        var (move, after) := next.value;
        cursor := after;
        if |positionList[sha]| < movesPerPosition {
          positionList := positionList[sha := positionList[sha] + [move]];
        }
        i := i + 1;
      }
      assert record == MovesRead(positionList[sha], cursor, true);
      return true, cursor;
    }

    /** `isLoaded`: whether some load has succeeded. */
    function IsLoaded(): (r: bool)
      reads this
      ensures r == loaded
    {
      loaded
    }

    /** `getTotal`: the records begun over all loads. */
    function GetTotal(): (n: nat)
      reads this
      ensures n == total
      ensures Valid() ==> |positionList.Keys| <= n
    {
      total
    }

    /** `searchFen` given the position's key: the stored moves, or `undefined`. */
    function SearchFen(key: Key): (r: Option<seq<BookMove>>)
      reads this
      ensures r.Some? <==> key in positionList
      ensures r.Some? ==> r.value == positionList[key]
    {
      if key in positionList then Some(positionList[key]) else None
    }
  }
}
