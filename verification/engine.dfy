/**
  The UCI engine driver (util/Engine.js, class `Engine`): the parser for the
  lines the engine prints, the commands written to it, and the bookkeeping
  of pondering. Writing a command appends it to a command log; the events the
  driver emits are appended to an event log. Times are passed in as `now`.
 */
module Uci {
  import opened Js

  /** The keywords that switch the current key of an `option` line. */
  const OptionList: seq<string> := ["name", "type", "default", "min", "max", "var"]

  /** The keywords that switch the current key of an `info` line. */
  const InfoList: seq<string> := ["depth", "seldepth", "time", "nodes", "pv", "multipv", "score", "currmove",
                                  "currmovenumber", "hashfull", "nps", "tbhits", "cpuload", "string",
                                  "refutation", "currline", "wdl"]

  /** The keywords read out of an `info` line's score. */
  const ScoreList: seq<string> := ["cp", "mate", "lowerbound", "upperbound"]

  /**
    `obj[key] += " " + token` when the current value is truthy, else
    `obj[key] = token`: the words after a keyword are joined with single spaces.
   */
  function Accumulate(fields: map<string, string>, key: string, token: string): (r: map<string, string>)
    ensures r.Keys == fields.Keys + {key}
    ensures forall k :: k in fields && k != key ==> r[k] == fields[k]
    ensures r[key] == if key in fields && fields[key] != "" then fields[key] + " " + token else token
  {
    if key in fields && fields[key] != "" then fields[key := fields[key] + " " + token]
    else fields[key := token]
  }

  // ---------------------------------------------------------------------------
  // option lines

  /** A parsed `option` line: its text fields and, if any `var` token occurred, the `var` list. */
  datatype UciOption = UciOption(fields: map<string, string>, vars: Option<seq<Option<string>>>)

  /** The scan's state after some tokens: the option so far and the current key. */
  datatype OptionScan = OptionScan(option: UciOption, last: Option<string>)

  /** What the `forEach` callback does with the token at index `i`. */
  function OptionStep(scan: OptionScan, tokens: seq<string>, i: nat): OptionScan
    requires i < |tokens|
  {
    var argument := tokens[i];
    var keyed :=
      if argument in OptionList then scan.(last := Some(argument))
      else if argument != "var" && argument != "option" && scan.last != Some("var") then
        scan.(option := scan.option.(fields := Accumulate(scan.option.fields, ToText(scan.last), argument)))
      else scan;
    if argument == "var" then
      var list := if keyed.option.vars.None? then [] else keyed.option.vars.value;
      keyed.(option := keyed.option.(vars := Some(list + [At(tokens, i + 1)])))
    else keyed
  }

  /** The scan after the first `n` tokens. */
  function ScanOption(tokens: seq<string>, n: nat): OptionScan
    requires n <= |tokens|
  {
    if n == 0 then OptionScan(UciOption(map[], None), None)
    else OptionStep(ScanOption(tokens, n - 1), tokens, n - 1)
  }

  /** The option a whole line's tokens describe. */
  function OptionOf(tokens: seq<string>): UciOption
  {
    ScanOption(tokens, |tokens|).option
  }

  /** The `option` case of the line listener: one pass over the tokens, building the option in place. */
  method ParseOption(tokens: seq<string>) returns (option: UciOption)
    ensures option == OptionOf(tokens)
  {
    option := UciOption(map[], None);
    var lastArgument: Option<string> := None;
    var i := 0;
    while i < |tokens|
      invariant 0 <= i <= |tokens|
      invariant OptionScan(option, lastArgument) == ScanOption(tokens, i)
    {
      var argument := tokens[i];
      if argument in OptionList {
        lastArgument := Some(argument);
      } else if argument != "var" && argument != "option" && lastArgument != Some("var") {
        var key := ToText(lastArgument);
        if key in option.fields && option.fields[key] != "" {
          option := option.(fields := option.fields[key := option.fields[key] + " " + argument]);
        }
        if !(key in option.fields && option.fields[key] != "") {
          option := option.(fields := option.fields[key := argument]);
        }
      }
      if argument == "var" {
        var list := if option.vars.None? then [] else option.vars.value;
        option := option.(vars := Some(list + [At(tokens, i + 1)]));
      }
      i := i + 1;
    }
  }

  /** Reference definition of the `var` list: the token after each `var`, in order (`undefined` after a final `var`). */
  function VarValues(tokens: seq<string>, n: nat): seq<Option<string>>
    requires n <= |tokens|
  {
    if n == 0 then []
    else if tokens[n - 1] == "var" then VarValues(tokens, n - 1) + [At(tokens, n)]
    else VarValues(tokens, n - 1)
  }

  /** Each `var X` appends `X` to the option's `var` list in order; with no `var` token there is no list. */
  lemma {:induction false} OptionVars(tokens: seq<string>, n: nat)
    requires n <= |tokens|
    ensures var vars := ScanOption(tokens, n).option.vars;
      vars == if VarValues(tokens, n) == [] then None else Some(VarValues(tokens, n))
  {
    if n > 0 {
      OptionVars(tokens, n - 1);
    }
  }

  /** A token that the scan joins onto the current key. */
  predicate PlainWord(token: string) {
    token != "" && token !in OptionList && token != "option"
  }

  /**
    Multi-word values survive: after a keyword `key` that the option does not
    have yet, a run of plain words is stored under `key` joined with single
    spaces (so `name Skill Level` gives the name "Skill Level").
   */
  lemma {:induction false} OptionWords(tokens: seq<string>, start: nat, end: nat)
    requires start < end <= |tokens|
    requires tokens[start] in OptionList && tokens[start] != "var"
    requires tokens[start] !in ScanOption(tokens, start).option.fields
    requires forall j :: start < j < end ==> PlainWord(tokens[j])
    ensures Stored(ScanOption(tokens, end), tokens[start], tokens[start + 1..end])
  {
    if end == start + 1 {
      OptionWordsBase(tokens, start);
      assert tokens[start + 1..end] == [];
    } else {
      OptionWords(tokens, start, end - 1);
      OptionRunStep(tokens, start, end);
    }
  }

  /** One more plain word, stated on the scan itself. */
  lemma OptionRunStep(tokens: seq<string>, start: nat, end: nat)
    requires start + 1 < end <= |tokens|
    requires forall j :: start < j < end ==> PlainWord(tokens[j])
    requires tokens[start] != "var"
    requires Stored(ScanOption(tokens, end - 1), tokens[start], tokens[start + 1..end - 1])
    ensures Stored(ScanOption(tokens, end), tokens[start], tokens[start + 1..end])
  {
    ScanOptionStep(tokens, end);
    OptionWordsStep(ScanOption(tokens, end - 1), ScanOption(tokens, end), tokens, start, end);
  }

  /** The base case of `OptionWords`: right after the keyword nothing is stored under it yet. */
  lemma OptionWordsBase(tokens: seq<string>, start: nat)
    requires start < |tokens|
    requires tokens[start] in OptionList && tokens[start] != "var"
    requires tokens[start] !in ScanOption(tokens, start).option.fields
    ensures Stored(ScanOption(tokens, start + 1), tokens[start], [])
  {
    KeywordStep(ScanOption(tokens, start), tokens, start);
  }

  /**
    The scan's current key is `key`, and the option holds `words` joined with
    single spaces under it (nothing at all when there are no words).
   */
  predicate Stored(scan: OptionScan, key: string, words: seq<string>) {
    && scan.last == Some(key)
    && (if words == [] then key !in scan.option.fields
        else key in scan.option.fields && scan.option.fields[key] == Join(words, ' '))
  }

  /** `ScanOption` takes one step at a time. */
  lemma ScanOptionStep(tokens: seq<string>, n: nat)
    requires 0 < n <= |tokens|
    ensures ScanOption(tokens, n) == OptionStep(ScanOption(tokens, n - 1), tokens, n - 1)
  {
  }

  /** The inductive step of `OptionWords`: one more plain word after the keyword. */
  lemma OptionWordsStep(before: OptionScan, after: OptionScan, tokens: seq<string>, start: nat, end: nat)
    requires start + 1 < end <= |tokens|
    requires after == OptionStep(before, tokens, end - 1)
    requires forall j :: start < j < end ==> PlainWord(tokens[j])
    requires tokens[start] != "var"
    requires Stored(before, tokens[start], tokens[start + 1..end - 1])
    ensures Stored(after, tokens[start], tokens[start + 1..end])
  {
    PlainWordStep(before, tokens, end - 1);
    SliceSnoc(tokens, start + 1, end);
    var previous := tokens[start + 1..end - 1];
    assert previous != [] ==> previous[0] == tokens[start + 1];
    StoredStep(before, after, tokens[start], previous, tokens[end - 1]);
  }

  /** Accumulating one more non-empty word onto the stored words. */
  lemma StoredStep(before: OptionScan, after: OptionScan, key: string, previous: seq<string>, word: string)
    requires Stored(before, key, previous)
    requires after.last == before.last
    requires after.option.fields == Accumulate(before.option.fields, key, word)
    requires word != "" && (previous != [] ==> previous[0] != "")
    ensures Stored(after, key, previous + [word])
  {
    if previous == [] {
      assert previous + [word] == [word];
    } else {
      JoinAppend(previous, word, ' ');
      JoinNotEmpty(previous, ' ');
    }
  }

  /** A slice grown by one element at its end. */
  lemma SliceSnoc<T>(s: seq<T>, from: nat, to: nat)
    requires from < to <= |s|
    ensures s[from..to - 1] + [s[to - 1]] == s[from..to]
  {
  }

  /** A keyword other than `var` only becomes the current key. */
  lemma KeywordStep(scan: OptionScan, tokens: seq<string>, i: nat)
    requires i < |tokens| && tokens[i] in OptionList && tokens[i] != "var"
    ensures OptionStep(scan, tokens, i) == scan.(last := Some(tokens[i]))
  {
  }

  /** A plain word after a keyword other than `var` is accumulated under that keyword. */
  lemma PlainWordStep(scan: OptionScan, tokens: seq<string>, i: nat)
    requires i < |tokens| && PlainWord(tokens[i])
    requires scan.last.Some? && scan.last.value != "var"
    ensures OptionStep(scan, tokens, i).last == scan.last
    ensures OptionStep(scan, tokens, i).option.fields == Accumulate(scan.option.fields, scan.last.value, tokens[i])
  {
    assert tokens[i] != "var";
  }

  /** A join whose first piece is non-empty is non-empty. */
  lemma JoinNotEmpty(parts: seq<string>, sep: char)
    requires |parts| >= 1 && parts[0] != ""
    ensures Join(parts, sep) != ""
  {
    if |parts| > 1 {
      assert |Join(parts, sep)| >= |parts[0]|;
    }
  }

  /** Joining one more piece adds a separator and the piece. */
  lemma {:induction false} JoinAppend(parts: seq<string>, last: string, sep: char)
    requires |parts| >= 1
    ensures Join(parts + [last], sep) == Join(parts, sep) + [sep] + last
  {
    if |parts| > 1 {
      JoinAppend(parts[1..], last, sep);
      assert (parts + [last])[1..] == parts[1..] + [last];
    }
  }

  // ---------------------------------------------------------------------------
  // info lines

  /** The scan's state over an `info` line: the text fields so far and the current key. */
  datatype InfoScan = InfoScan(fields: map<string, string>, last: Option<string>)

  function InfoStep(scan: InfoScan, argument: string): InfoScan
  {
    if argument in InfoList then scan.(last := Some(argument))
    else if argument != "info" then scan.(fields := Accumulate(scan.fields, ToText(scan.last), argument))
    else scan
  }

  function ScanInfo(tokens: seq<string>, n: nat): InfoScan
    requires n <= |tokens|
  {
    if n == 0 then InfoScan(map[], None) else InfoStep(ScanInfo(tokens, n - 1), tokens[n - 1])
  }

  /** The keys an `info` line can fill: its keywords, and "undefined" for words before the first keyword. */
  lemma {:induction false} InfoKeys(tokens: seq<string>, n: nat)
    requires n <= |tokens|
    ensures KnownKeys(ScanInfo(tokens, n))
  {
    if n > 0 {
      InfoKeys(tokens, n - 1);
      InfoStepKeepsKeys(ScanInfo(tokens, n - 1), tokens[n - 1]);
    }
  }

  /** Every filled key is an InfoList keyword or "undefined", and the current key is a keyword. */
  predicate KnownKeys(scan: InfoScan) {
    && (forall k :: k in scan.fields ==> k in InfoList || k == "undefined")
    && (scan.last.Some? ==> scan.last.value in InfoList)
  }

  lemma InfoStepKeepsKeys(scan: InfoScan, argument: string)
    requires KnownKeys(scan)
    ensures KnownKeys(InfoStep(scan, argument))
  {
  }

  /** A token that the `info` scan joins onto the current key. */
  predicate InfoWord(token: string) {
    token != "" && token !in InfoList && token != "info"
  }

  /**
    The scan's current key is `last`, and the fields hold `words` joined with
    single spaces under `String(last)` (nothing at all when there are no words).
   */
  predicate InfoStored(scan: InfoScan, last: Option<string>, words: seq<string>) {
    && scan.last == last
    && (if words == [] then ToText(last) !in scan.fields
        else ToText(last) in scan.fields && scan.fields[ToText(last)] == Join(words, ' '))
  }

  /**
    Multi-word values survive: after an InfoList keyword that the line has not
    filled yet, a run of words is stored under it joined with single spaces
    (so `pv e2e4 e7e5 g1f3` gives the `pv` "e2e4 e7e5 g1f3").
   */
  lemma {:induction false} InfoWords(tokens: seq<string>, start: nat, end: nat)
    requires start < end <= |tokens|
    requires tokens[start] in InfoList && tokens[start] !in ScanInfo(tokens, start).fields
    requires forall j :: start < j < end ==> InfoWord(tokens[j])
    ensures InfoStored(ScanInfo(tokens, end), Some(tokens[start]), tokens[start + 1..end])
  {
    InfoKeyStep(tokens, start);
    InfoRun(tokens, start + 1, end, Some(tokens[start]));
  }

  /** A keyword not yet filled becomes the current key with nothing stored under it. */
  lemma InfoKeyStep(tokens: seq<string>, start: nat)
    requires start < |tokens|
    requires tokens[start] in InfoList && tokens[start] !in ScanInfo(tokens, start).fields
    ensures InfoStored(ScanInfo(tokens, start + 1), Some(tokens[start]), [])
  {
    assert ScanInfo(tokens, start + 1) == ScanInfo(tokens, start).(last := Some(tokens[start]));
  }

  /** The words between `info` and the first keyword are stored under "undefined". */
  lemma {:induction false} InfoLeadingWords(tokens: seq<string>, end: nat)
    requires 1 <= end <= |tokens| && tokens[0] == "info"
    requires forall j :: 1 <= j < end ==> InfoWord(tokens[j])
    ensures InfoStored(ScanInfo(tokens, end), None, tokens[1..end])
  {
    assert ScanInfo(tokens, 1) == InfoScan(map[], None);
    InfoRun(tokens, 1, end, None);
  }

  /** A run of words from `start` to `end` is accumulated under the current key. */
  lemma {:induction false} InfoRun(tokens: seq<string>, start: nat, end: nat, last: Option<string>)
    requires start <= end <= |tokens|
    requires InfoStored(ScanInfo(tokens, start), last, [])
    requires forall j :: start <= j < end ==> InfoWord(tokens[j])
    ensures InfoStored(ScanInfo(tokens, end), last, tokens[start..end])
    decreases end
  {
    if end == start {
      assert tokens[start..end] == [];
    } else {
      InfoRun(tokens, start, end - 1, last);
      InfoRunStep(tokens, start, end, last);
    }
  }

  /** The inductive step of `InfoRun`: one more word. */
  lemma InfoRunStep(tokens: seq<string>, start: nat, end: nat, last: Option<string>)
    requires start < end <= |tokens|
    requires forall j :: start <= j < end ==> InfoWord(tokens[j])
    requires InfoStored(ScanInfo(tokens, end - 1), last, tokens[start..end - 1])
    ensures InfoStored(ScanInfo(tokens, end), last, tokens[start..end])
  {
    InfoWordStep(ScanInfo(tokens, end - 1), tokens, start, end, last);
  }

  lemma InfoWordStep(before: InfoScan, tokens: seq<string>, start: nat, end: nat, last: Option<string>)
    requires start < end <= |tokens|
    requires forall j :: start <= j < end ==> InfoWord(tokens[j])
    requires InfoStored(before, last, tokens[start..end - 1])
    ensures InfoStored(InfoStep(before, tokens[end - 1]), last, tokens[start..end])
  {
    var word := tokens[end - 1];
    var previous := tokens[start..end - 1];
    SliceSnoc(tokens, start, end);
    assert InfoWord(word);
    if previous == [] {
      assert previous + [word] == [word];
    } else {
      assert previous[0] == tokens[start] && InfoWord(tokens[start]);
      JoinAppend(previous, word, ' ');
      JoinNotEmpty(previous, ' ');
    }
  }

  /** `score` re-parsed: each ScoreList keyword maps to the token after it (`undefined` at the end). */
  function ScoreMap(parts: seq<string>, n: nat): map<string, Option<string>>
    requires n <= |parts|
  {
    if n == 0 then map[]
    else if parts[n - 1] in ScoreList then ScoreMap(parts, n - 1)[parts[n - 1] := At(parts, n)]
    else ScoreMap(parts, n - 1)
  }

  /** The score loop over the split score text. */
  method ParseScore(parts: seq<string>) returns (score: map<string, Option<string>>)
    ensures score == ScoreMap(parts, |parts|)
  {
    score := map[];
    var i := 0;
    while i < |parts|
      invariant 0 <= i <= |parts|
      invariant score == ScoreMap(parts, i)
    {
      if parts[i] in ScoreList {
        score := score[parts[i] := At(parts, i + 1)];
      }
      i := i + 1;
    }
  }

  /** The score object holds exactly the ScoreList keywords that occur in the score text. */
  lemma {:induction false} ScoreKeys(parts: seq<string>, n: nat)
    requires n <= |parts|
    ensures forall k :: k in ScoreMap(parts, n) <==> k in ScoreList && k in parts[..n]
  {
    if n > 0 {
      ScoreKeys(parts, n - 1);
      assert parts[..n] == parts[..n - 1] + [parts[n - 1]];
    }
  }

  /** A ScoreList keyword maps to the token after its last occurrence (`undefined` if it is the final token). */
  lemma {:induction false} ScoreLastOccurrence(parts: seq<string>, n: nat, j: nat)
    requires j < n <= |parts|
    requires parts[j] in ScoreList && parts[j] !in parts[j + 1..n]
    ensures parts[j] in ScoreMap(parts, n) && ScoreMap(parts, n)[parts[j]] == At(parts, j + 1)
  {
    if j < n - 1 {
      assert parts[n - 1] in parts[j + 1..n];
      assert parts[j + 1..n - 1] <= parts[j + 1..n];
      ScoreLastOccurrence(parts, n - 1, j);
    }
  }

  /** The wdl loop: every part replaced by `parseInt(part)` (`None` for `NaN`). */
  method ParseWdl(parts: seq<string>) returns (wdl: seq<Option<int>>)
    ensures |wdl| == |parts|
    ensures forall k :: 0 <= k < |parts| ==> wdl[k] == ParseInt(parts[k])
  {
    wdl := [];
    var index := 0;
    while index < |parts|
      invariant 0 <= index <= |parts|
      invariant |wdl| == index
      invariant forall k :: 0 <= k < index ==> wdl[k] == ParseInt(parts[k])
    {
      wdl := wdl + [ParseInt(parts[index])];
      index := index + 1;
    }
  }

  /** A parsed `info` line. `score` and `wdl` replace their text fields when those are truthy. */
  datatype Info = Info(fields: map<string, string>, score: Option<map<string, Option<string>>>,
                       wdl: Option<seq<Option<int>>>, raw: string)

  /** A text field as JavaScript reads it: `undefined` when absent. */
  function Field(fields: map<string, string>, key: string): Option<string>
  {
    if key in fields then Some(fields[key]) else None
  }

  function WdlValues(parts: seq<string>): seq<Option<int>>
  {
    seq(|parts|, k requires 0 <= k < |parts| => ParseInt(parts[k]))
  }

  /** The `info` object the listener builds from a line. */
  function InfoOf(line: string): Info
  {
    var tokens := Split(line, ' ');
    InfoFrom(ScanInfo(tokens, |tokens|).fields, line)
  }

  /** The `info` object built from the scanned text fields: `score` and `wdl` are re-parsed when truthy. */
  function InfoFrom(fields: map<string, string>, line: string): Info
  {
    var scoreText := Field(fields, "score");
    var wdlText := Field(fields, "wdl");
    var scoreParts := if Truthy(scoreText) then Split(scoreText.value, ' ') else [];
    var wdlParts := if Truthy(wdlText) then Split(wdlText.value, ' ') else [];
    Info(
      fields - (if Truthy(scoreText) then {"score"} else {}) - (if Truthy(wdlText) then {"wdl"} else {}),
      if Truthy(scoreText) then Some(ScoreMap(scoreParts, |scoreParts|)) else None,
      if Truthy(wdlText) then Some(WdlValues(wdlParts)) else None,
      line)
  }

  /** The `info` case of the line listener. */
  method ParseInfo(line: string) returns (info: Info)
    ensures info == InfoOf(line)
  {
    var fields := ScanInfoLine(Split(line, ' '));
    info := BuildInfo(fields, line);
  }

  /** The re-parsing of `score` and `wdl` after the scan. */
  method BuildInfo(fields: map<string, string>, line: string) returns (info: Info)
    ensures info == InfoFrom(fields, line)
  {
    var score: Option<map<string, Option<string>>> := None;
    var wdl: Option<seq<Option<int>>> := None;
    var text := fields;
    if "score" in fields && fields["score"] != "" {
      var s := ParseScore(Split(fields["score"], ' '));
      score := Some(s);
      text := text - {"score"};
    }
    if "wdl" in fields && fields["wdl"] != "" {
      var parts := Split(fields["wdl"], ' ');
      var w := ParseWdl(parts);
      assert w == WdlValues(parts);
      wdl := Some(w);
      text := text - {"wdl"};
    }
    info := Info(text, score, wdl, line);
  }

  /** The `forEach` over an `info` line's tokens, building the text fields in place. */
  method ScanInfoLine(splitLine: seq<string>) returns (fields: map<string, string>)
    ensures fields == ScanInfo(splitLine, |splitLine|).fields
  {
    fields := map[];
    var lastArgument: Option<string> := None;
    var i := 0;
    while i < |splitLine|
      invariant 0 <= i <= |splitLine|
      invariant InfoScan(fields, lastArgument) == ScanInfo(splitLine, i)
    {
      var argument := splitLine[i];
      if argument in InfoList {
        lastArgument := Some(argument);
      } else if argument != "info" {
        fields := Accumulate(fields, ToText(lastArgument), argument);
      }
      i := i + 1;
    }
  }

  /** A win/draw/loss triple written by the engine is read back as its three numbers. */
  lemma WdlRoundTrip(w: int, d: int, l: int)
    ensures var parts := Split(Join([IntToString(w), IntToString(d), IntToString(l)], ' '), ' ');
      WdlValues(parts) == [Some(w), Some(d), Some(l)]
  {
    var texts := [IntToString(w), IntToString(d), IntToString(l)];
    NumberHasNoSpace(w);
    NumberHasNoSpace(d);
    NumberHasNoSpace(l);
    SplitJoin(texts, ' ');
    IntToStringRoundTrip(w);
    IntToStringRoundTrip(d);
    IntToStringRoundTrip(l);
  }

  /** The text of a number has no space in it. */
  lemma NumberHasNoSpace(i: int)
    ensures ' ' !in IntToString(i)
  {
    var digits := NatToString(if i < 0 then -i else i);
    assert forall k :: 0 <= k < |digits| ==> digits[k] != ' ';
    if i < 0 {
      assert IntToString(i) == "-" + digits;
    }
  }

  // ---------------------------------------------------------------------------
  // Commands

  function SetOptionCommand(key: string, value: string): string
  {
    "setoption name " + key + " value " + value
  }

  /** `SendPositionFEN`'s command. */
  function PositionFenCommand(fen: string): string
  {
    "position fen " + fen
  }

  /**
    `SendPositionJoined`'s command: " fen " is inserted before anything but
    "startpos" (after the space that follows `position`, so two spaces), and
    " moves M" is added only for a non-empty move list.
   */
  function PositionCommand(fen: string, moves: string): string
  {
    PositionHead(fen) + (if moves != "" then " moves " + moves else "")
  }

  /** `CalculateMove`'s command: the one increment is sent as both `winc` and `binc`. */
  function GoCommand(whiteTime: int, blackTime: int, increment: int, infinite: bool): string
  {
    "go wtime " + IntToString(whiteTime) + " btime " + IntToString(blackTime)
    + " winc " + IntToString(increment) + " binc " + IntToString(increment)
    + (if infinite then " infinite" else "")
  }

  /** `GoPonder`'s command. */
  function GoPonderCommand(whiteTime: int, blackTime: int, increment: int): string
  {
    "go ponder wtime " + IntToString(whiteTime) + " btime " + IntToString(blackTime)
    + " winc " + IntToString(increment) + " binc " + IntToString(increment)
  }

  function DepthCommand(depth: int): string
  {
    "go depth " + IntToString(depth)
  }

  function MoveTimeCommand(time: int): string
  {
    "go movetime " + IntToString(time)
  }

  /** The words of a `go` command after `go`. */
  function GoWords(whiteTime: int, blackTime: int, increment: int): seq<string>
  {
    ["wtime", IntToString(whiteTime), "btime", IntToString(blackTime),
     "winc", IntToString(increment), "binc", IntToString(increment)]
  }

  /** A literal ` word ` between two strings splits into the word between their pieces. */
  lemma SplitInfix(a: string, literal: string, word: string, b: string)
    requires literal == [' '] + word + [' '] && ' ' !in word
    ensures Split(a + literal + b, ' ') == Split(a, ' ') + [word] + Split(b, ' ')
  {
    assert a + literal + b == a + [' '] + (word + [' '] + b);
    SplitAround(a, ' ', word + [' '] + b);
    SplitAround(word, ' ', b);
    SplitNoSeparator(word, ' ');
  }

  /** A separator-free string splits into itself. */
  lemma SplitWord(word: string)
    requires ' ' !in word
    ensures Split(word, ' ') == [word]
  {
    SplitNoSeparator(word, ' ');
  }

  /** ` key value` after a text adds the key and the value to its tokens. */
  lemma SplitPair(head: string, literal: string, key: string, value: string)
    requires literal == [' '] + key + [' '] && ' ' !in key && ' ' !in value
    ensures Split(head + literal + value, ' ') == Split(head, ' ') + [key, value]
  {
    SplitInfix(head, literal, key, value);
    SplitWord(value);
  }

  /** `first key value`, all separator-free, splits into its three words. */
  lemma FirstPair(first: string, literal: string, key: string, value: string)
    requires ' ' !in first && literal == [' '] + key + [' '] && ' ' !in key && ' ' !in value
    ensures Split(first + literal + value, ' ') == [first, key, value]
  {
    SplitWord(first);
    SplitPair(first, literal, key, value);
  }

  /** The split of `go wtime W btime B winc I binc I`, for any separator-free W, B and I. */
  lemma GoText(w: string, b: string, i: string)
    requires ' ' !in w && ' ' !in b && ' ' !in i
    ensures Split("go wtime " + w + " btime " + b + " winc " + i + " binc " + i, ' ')
         == ["go", "wtime", w, "btime", b, "winc", i, "binc", i]
  {
    GoTextWinc(w, b, i);
    SplitPair("go wtime " + w + " btime " + b + " winc " + i, " binc ", "binc", i);
  }

  lemma GoTextWinc(w: string, b: string, i: string)
    requires ' ' !in w && ' ' !in b && ' ' !in i
    ensures Split("go wtime " + w + " btime " + b + " winc " + i, ' ') == ["go", "wtime", w, "btime", b, "winc", i]
  {
    GoTextBtime(w, b);
    SplitPair("go wtime " + w + " btime " + b, " winc ", "winc", i);
  }

  lemma GoTextBtime(w: string, b: string)
    requires ' ' !in w && ' ' !in b
    ensures Split("go wtime " + w + " btime " + b, ' ') == ["go", "wtime", w, "btime", b]
  {
    GoTextWtime(w);
    SplitPair("go wtime " + w, " btime ", "btime", b);
  }

  lemma GoTextWtime(w: string)
    requires ' ' !in w
    ensures Split("go wtime " + w, ' ') == ["go", "wtime", w]
  {
    assert "go wtime " + w == "go" + " wtime " + w;
    FirstPair("go", " wtime ", "wtime", w);
  }

  /** The numbers an engine reads back from the words of a `go` command. */
  lemma GoWordsNumbers(whiteTime: int, blackTime: int, increment: int)
    ensures var words := GoWords(whiteTime, blackTime, increment);
      && ParseInt(words[1]) == Some(whiteTime)
      && ParseInt(words[3]) == Some(blackTime)
      && ParseInt(words[5]) == Some(increment)
      && ParseInt(words[7]) == Some(increment)
  {
    var words := GoWords(whiteTime, blackTime, increment);
    assert words[1] == IntToString(whiteTime) && words[3] == IntToString(blackTime);
    assert words[5] == IntToString(increment) && words[7] == IntToString(increment);
    IntToStringRoundTrip(whiteTime);
    IntToStringRoundTrip(blackTime);
    IntToStringRoundTrip(increment);
  }

  /** The tokens of `CalculateMove`'s command. */
  lemma GoCommandTokens(whiteTime: int, blackTime: int, increment: int, infinite: bool)
    ensures Split(GoCommand(whiteTime, blackTime, increment, infinite), ' ')
         == ["go"] + GoWords(whiteTime, blackTime, increment) + (if infinite then ["infinite"] else [])
  {
    var w, b, i := IntToString(whiteTime), IntToString(blackTime), IntToString(increment);
    NumberHasNoSpace(whiteTime);
    NumberHasNoSpace(blackTime);
    NumberHasNoSpace(increment);
    var base := "go wtime " + w + " btime " + b + " winc " + i + " binc " + i;
    var words := ["go", "wtime", w, "btime", b, "winc", i, "binc", i];
    GoText(w, b, i);
    assert ["go"] + GoWords(whiteTime, blackTime, increment) == words;
    if infinite {
      assert GoCommand(whiteTime, blackTime, increment, infinite) == base + " infinite";
      AppendWord(base, words, " infinite");
    } else {
      assert GoCommand(whiteTime, blackTime, increment, infinite) == base;
    }
  }

  /** ` word` after a text adds the word to its tokens. */
  lemma AppendWord(head: string, tokens: seq<string>, suffix: string)
    requires Split(head, ' ') == tokens
    requires |suffix| >= 1 && suffix[0] == ' ' && ' ' !in suffix[1..]
    ensures Split(head + suffix, ' ') == tokens + [suffix[1..]]
  {
    assert head + suffix == head + [' '] + suffix[1..];
    SplitAround(head, ' ', suffix[1..]);
    SplitWord(suffix[1..]);
  }

  /** The text of `SendPositionJoined`'s command before the move list. */
  function PositionHead(fen: string): string
  {
    "position " + (if fen != "startpos" then " fen " else "") + fen
  }

  /**
    Its tokens: `position`, then, for anything but "startpos", an empty token
    (from the doubled space) and `fen`, then the pieces of the FEN itself (a
    real FEN has six space-separated fields).
   */
  lemma {:induction false} PositionHeadTokens(fen: string)
    ensures Split(PositionHead(fen), ' ') == ["position"] + (if fen != "startpos" then ["", "fen"] else []) + Split(fen, ' ')
  {
    var position, empty, fenWord := "position", "", "fen";
    assert ' ' !in position && ' ' !in fenWord;
    if fen != "startpos" {
      assert PositionHead(fen) == position + [' '] + empty + [' '] + fenWord + [' '] + fen;
      ThreeWordsThen(position, empty, fenWord, fen);
      assert [position, empty, fenWord] == ["position"] + ["", "fen"];
    } else {
      assert PositionHead(fen) == position + [' '] + fen;
      WordThen(position, fen);
      assert [position] == ["position"] + [];
    }
  }

  /** A separator-free word and a space before any text: the word, then the text's pieces. */
  lemma WordThen(word: string, text: string)
    requires ' ' !in word
    ensures Split(word + [' '] + text, ' ') == [word] + Split(text, ' ')
  {
    SplitAround(word, ' ', text);
    SplitNoSeparator(word, ' ');
  }

  /** Three separator-free words, each followed by a space, before any text. */
  lemma ThreeWordsThen(first: string, second: string, third: string, text: string)
    requires ' ' !in first && ' ' !in second && ' ' !in third
    ensures Split(first + [' '] + second + [' '] + third + [' '] + text, ' ') == [first, second, third] + Split(text, ' ')
  {
    var rest := third + [' '] + text;
    var middle := second + [' '] + rest;
    assert first + [' '] + second + [' '] + third + [' '] + text == first + [' '] + middle;
    WordThen(first, middle);
    WordThen(second, rest);
    WordThen(third, text);
  }

  /** `Join` of four pieces written out. */
  lemma JoinFour(parts: seq<string>, sep: char)
    requires |parts| == 4
    ensures Join(parts, sep) == parts[0] + [sep] + parts[1] + [sep] + parts[2] + [sep] + parts[3]
  {
    assert Join(parts[2..], sep) == parts[2] + [sep] + parts[3];
  }

  /** ` moves M1 M2 ...` after any text adds `moves` and the moves to its tokens. */
  lemma MovesSuffix(head: string, moves: seq<string>)
    requires |moves| >= 1
    requires forall k :: 0 <= k < |moves| ==> ' ' !in moves[k]
    ensures Split(head + " moves " + Join(moves, ' '), ' ') == Split(head, ' ') + ["moves"] + moves
  {
    SplitInfix(head, " moves ", "moves", Join(moves, ' '));
    SplitJoin(moves, ' ');
  }

  /** The tokens of `SendPositionJoined`'s command, for any FEN and a move list: the head's tokens, then `moves` and the moves. */
  lemma {:induction false} PositionCommandTokens(fen: string, moves: seq<string>)
    requires forall k :: 0 <= k < |moves| ==> ' ' !in moves[k]
    ensures Split(PositionCommand(fen, Join(moves, ' ')), ' ')
         == ["position"] + (if fen != "startpos" then ["", "fen"] else []) + Split(fen, ' ')
            + (if Join(moves, ' ') != "" then ["moves"] + moves else [])
  {
    var head := PositionHead(fen);
    assert PositionCommand(fen, Join(moves, ' ')) == head + (if Join(moves, ' ') != "" then " moves " + Join(moves, ' ') else "");
    MovesTail(head, moves);
    PositionHeadTokens(fen);
  }

  /** The optional ` moves M1 M2 ...` after any text adds `moves` and the moves to its tokens. */
  lemma {:induction false} MovesTail(head: string, moves: seq<string>)
    requires forall k :: 0 <= k < |moves| ==> ' ' !in moves[k]
    ensures Split(head + (if Join(moves, ' ') != "" then " moves " + Join(moves, ' ') else ""), ' ')
         == Split(head, ' ') + (if Join(moves, ' ') != "" then ["moves"] + moves else [])
  {
    var text := Join(moves, ' ');
    if text != "" {
      assert head + (" moves " + text) == head + " moves " + text;
      MovesSuffix(head, moves);
    } else {
      assert head + "" == head;
    }
  }

  // ---------------------------------------------------------------------------
  // The line listener

  /** What the engine reports through the event emitter. */
  datatype EngineEvent =
    | OptionsListed(options: seq<UciOption>)
    | Ready
    | Identified(name: string, authors: string)
    | EngineThought(info: Info)
    | CalculatedMove(move: Option<string>, ponder: Option<string>)

  /** The part of the driver's state the line listener reads and writes. */
  datatype Listener = Listener(options: seq<UciOption>, uciReady: bool, name: Option<string>,
                               authors: Option<string>, ponder: Option<string>, events: seq<EngineEvent>)

  /** `splitLine.shift(); splitLine.shift(); splitLine.join(" ")`: the words after `id TYPE`. */
  function IdText(tokens: seq<string>): string
  {
    Join(if |tokens| >= 2 then tokens[2..] else [], ' ')
  }

  /** The move and the ponder move of a `bestmove` line: the ponder move only after a literal `ponder`. */
  function BestMoveOf(tokens: seq<string>): (Option<string>, Option<string>)
  {
    (At(tokens, 1), if At(tokens, 2) == Some("ponder") then At(tokens, 3) else None)
  }

  /** What the listener does with one line: dispatch on the first token. */
  function OnLine(s: Listener, line: string): Listener
  {
    var tokens := Split(line, ' ');
    match tokens[0]
    case "option" => s.(options := s.options + [OptionOf(tokens)])
    case "uciok" => s.(uciReady := true, events := s.events + [OptionsListed(s.options)])
    case "readyok" => s.(events := s.events + [Ready])
    case "id" => OnId(s, tokens)
    case "info" => s.(events := s.events + [EngineThought(InfoOf(line))])
    case "bestmove" => OnBestMove(s, tokens)
    case _ => s
  }

  /** An `id name ...` or `id author ...` line; the identity is announced once both are non-empty. */
  function OnId(s: Listener, tokens: seq<string>): Listener
  {
    var name := if At(tokens, 1) == Some("name") then Some(IdText(tokens)) else s.name;
    var authors := if At(tokens, 1) == Some("author") then Some(IdText(tokens)) else s.authors;
    s.(name := name, authors := authors,
       events := s.events + (if Truthy(name) && Truthy(authors) then [Identified(name.value, authors.value)] else []))
  }

  /** A `bestmove` line: the ponder move is remembered and the calculated move announced. */
  function OnBestMove(s: Listener, tokens: seq<string>): Listener
  {
    var (move, ponder) := BestMoveOf(tokens);
    s.(ponder := ponder, events := s.events + [CalculatedMove(move, ponder)])
  }

  /** The text after `id name ` comes back exactly, whatever spaces it holds. */
  lemma IdRoundTrip(kind: string, text: string)
    requires ' ' !in kind
    ensures IdText(Split("id " + kind + " " + text, ' ')) == text
  {
    assert "id " + kind + " " + text == "id" + [' '] + kind + [' '] + text;
    WordsThenText("id", kind, text);
    JoinSplit(text, ' ');
  }

  /** Two separator-free words, then any text: the text's pieces follow the two words. */
  lemma WordsThenText(first: string, second: string, text: string)
    requires ' ' !in first && ' ' !in second
    ensures var tokens := Split(first + [' '] + second + [' '] + text, ' ');
      |tokens| >= 2 && tokens[2..] == Split(text, ' ')
  {
    SplitAround(first + [' '] + second, ' ', text);
    TwoWords(first, second);
  }

  /** `bestmove M ponder P` gives both moves; `bestmove M` gives no ponder move. */
  lemma BestMoveRoundTrip(move: string, ponder: string)
    requires ' ' !in move && ' ' !in ponder
    ensures BestMoveOf(Split("bestmove " + move + " ponder " + ponder, ' ')) == (Some(move), Some(ponder))
    ensures BestMoveOf(Split("bestmove " + move, ' ')) == (Some(move), None)
  {
    BestMoveTokens(move);
    SplitPair("bestmove " + move, " ponder ", "ponder", ponder);
    var long := ["bestmove", move] + ["ponder", ponder];
    assert long[1] == move && long[2] == "ponder" && long[3] == ponder;
  }

  lemma BestMoveTokens(move: string)
    requires ' ' !in move
    ensures Split("bestmove " + move, ' ') == ["bestmove", move]
  {
    assert "bestmove " + move == "bestmove" + [' '] + move;
    TwoWords("bestmove", move);
  }

  /** Two separator-free words with a space between split into the two. */
  lemma TwoWords(first: string, second: string)
    requires ' ' !in first && ' ' !in second
    ensures Split(first + [' '] + second, ' ') == [first, second]
  {
    SplitAround(first, ' ', second);
    SplitWord(first);
    SplitWord(second);
  }

  /** Only an `option` line changes the option list, and it appends the parsed option. */
  lemma OnLineOptions(s: Listener, line: string)
    ensures var tokens := Split(line, ' '); var r := OnLine(s, line);
      && (tokens[0] == "option" <==> r.options == s.options + [OptionOf(tokens)])
      && (r.options != s.options ==> tokens[0] == "option")
  {
    var tokens := Split(line, ' ');
    var r := OnLine(s, line);
    if tokens[0] == "option" {
      assert |r.options| == |s.options| + 1;
    } else {
      assert r.options == s.options;
    }
  }

  /** `uciok` is what makes the engine ready, `bestmove` sets the ponder move, and any other instruction changes nothing. */
  lemma OnLineState(s: Listener, line: string)
    ensures var tokens := Split(line, ' '); var r := OnLine(s, line);
      && (r.uciReady <==> s.uciReady || tokens[0] == "uciok")
      && (tokens[0] == "bestmove" ==> r.ponder == (if At(tokens, 2) == Some("ponder") then At(tokens, 3) else None))
      && (tokens[0] !in ["option", "uciok", "readyok", "id", "info", "bestmove"] ==> r == s)
  {
  }

  /** Each line emits at most one event, appended after the earlier ones. */
  lemma OnLineEvents(s: Listener, line: string)
    ensures var r := OnLine(s, line);
      r.events == s.events || (|r.events| == |s.events| + 1 && r.events[..|s.events|] == s.events)
  {
  }

  /** `id` emits an event exactly when both the name and the authors are set and non-empty. */
  lemma IdEvent(s: Listener, line: string)
    requires Split(line, ' ')[0] == "id"
    ensures var r := OnLine(s, line);
      (|r.events| == |s.events| + 1 <==> Truthy(r.name) && Truthy(r.authors))
      && (Truthy(r.name) && Truthy(r.authors) ==> r.events == s.events + [Identified(r.name.value, r.authors.value)])
  {
  }

  // ---------------------------------------------------------------------------
  // Ponder bookkeeping

  /** `#isPondering`, `#lastPonderTime` (`undefined` until the first `go ponder`) and `#totalPonderTime`. */
  datatype PonderClock = PonderClock(pondering: bool, last: Option<int>, total: int)

  /** `GoPonder`'s bookkeeping. */
  function StartPonder(c: PonderClock, now: int): PonderClock
  {
    PonderClock(true, Some(now), c.total)
  }

  /** `NoPonderHit`: pondering ends and the time since the last `go ponder` is added (nothing while that time is `undefined`). */
  function EndPonder(c: PonderClock, now: int): PonderClock
  {
    PonderClock(false, c.last, if c.last.Some? then c.total + (now - c.last.value) else c.total)
  }

  /** `StopCalculating`'s bookkeeping: pondering is ended only if it is still on. */
  function StopClock(c: PonderClock, now: int): PonderClock
  {
    if c.pondering then EndPonder(c, now) else c
  }

  /** `GetPonderTime`: the total plus the live interval while pondering; `None` is `NaN`. */
  function PonderTime(c: PonderClock, now: int): Option<int>
  {
    if !c.pondering then Some(c.total)
    else if c.last.Some? then Some(c.total + (now - c.last.value))
    else None
  }

  /** The clock's invariant: while pondering, the start of the interval is known. */
  predicate ClockValid(c: PonderClock) {
    c.pondering ==> c.last.Some?
  }

  /** Every bookkeeping step keeps the invariant, and the ponder time is then never `NaN`. */
  lemma ClockSteps(c: PonderClock, now: int)
    requires ClockValid(c)
    ensures ClockValid(StartPonder(c, now)) && ClockValid(EndPonder(c, now)) && ClockValid(StopClock(c, now))
    ensures PonderTime(c, now).Some?
    ensures !StopClock(c, now).pondering && !EndPonder(c, now).pondering && StartPonder(c, now).pondering
  {
  }

  /**
    Ending pondering folds the live interval into the total without changing
    the reported ponder time, and the `stop` that follows a ponder miss does
    not count the interval again.
   */
  lemma PonderMissCountsOnce(c: PonderClock, now: int, later: int)
    requires ClockValid(c) && c.pondering
    ensures PonderTime(EndPonder(c, now), now) == PonderTime(c, now)
    ensures StopClock(EndPonder(c, now), later) == EndPonder(c, now)
    ensures PonderTime(StopClock(EndPonder(c, now), later), later) == PonderTime(c, now)
  {
  }

  /** Ending pondering twice counts the interval twice: `NoPonderHit` itself does not check `#isPondering`. */
  lemma EndPonderTwice(c: PonderClock, now: int)
    requires c.last.Some?
    ensures EndPonder(EndPonder(c, now), now).total == c.total + 2 * (now - c.last.value)
  {
  }

  /** For a given clock, the reported ponder time does not decrease as time passes. */
  lemma PonderTimeMonotone(c: PonderClock, now: int, later: int)
    requires ClockValid(c) && now <= later
    ensures PonderTime(c, now).value <= PonderTime(c, later).value
  {
  }

  /** One ponder interval, from `go ponder` at `start` to its end at `stop`, adds exactly `stop - start`. */
  lemma PonderInterval(c: PonderClock, start: int, stop: int)
    ensures StopClock(StartPonder(c, start), stop) == PonderClock(false, Some(start), c.total + (stop - start))
    ensures PonderTime(StartPonder(c, start), stop) == Some(c.total + (stop - start))
  {
  }

  // ---------------------------------------------------------------------------
  // The driver

  /** The messages that make up the engine setup: one `setoption` per configured option. */
  function SetOptionCommands(options: seq<(string, string)>): (r: seq<string>)
    ensures |r| == |options|
    ensures forall k :: 0 <= k < |options| ==> r[k] == SetOptionCommand(options[k].0, options[k].1)
  {
    if options == [] then [] else SetOptionCommands(options[..|options| - 1]) + [SetOptionCommand(options[|options| - 1].0, options[|options| - 1].1)]
  }

  /**
    The engine driver. `started` says whether `StartEngine` has spawned the
    process: writing a command before that throws a `TypeError`
    (`this.#spawnProcess` is `undefined`), which the command methods report by
    returning `ok == false` and doing nothing more.
   */
  class Engine {
    var started: bool
    var commands: seq<string>
    var options: seq<UciOption>
    var uciReady: bool
    var name: Option<string>
    var authors: Option<string>
    var ponder: Option<string>
    var isPondering: bool
    var lastPonderTime: Option<int>
    var totalPonderTime: int
    var events: seq<EngineEvent>

    /** The ponder fields as a clock value. */
    function Clock(): PonderClock
      reads this
    {
      PonderClock(isPondering, lastPonderTime, totalPonderTime)
    }

    /** The fields the line listener reads and writes. */
    function Listening(): Listener
      reads this
    {
      Listener(options, uciReady, name, authors, ponder, events)
    }

    ghost predicate Valid()
      reads this
    {
      ClockValid(Clock())
    }

    constructor ()
      ensures !started && commands == [] && events == []
      ensures Listening() == Listener([], false, None, None, None, [])
      ensures Clock() == PonderClock(false, None, 0)
      ensures Valid()
    {
      started := false;
      commands := [];
      options := [];
      uciReady := false;
      name := None;
      authors := None;
      ponder := None;
      isPondering := false;
      lastPonderTime := None;
      totalPonderTime := 0;
      events := [];
    }

    /** Spawns the engine process; its output lines then reach `HandleLine`. */
    method StartEngine()
      modifies this
      ensures started && commands == old(commands)
      ensures Listening() == old(Listening()) && Clock() == old(Clock())
    {
      started := true;
    }

    /** Writes one line to the engine's input; throws (`ok == false`) when no process was spawned. */
    method WriteEngineCommand(command: string) returns (ok: bool)
      modifies this
      ensures ok == started == old(started)
      ensures commands == old(commands) + (if ok then [command] else [])
      ensures Listening() == old(Listening()) && Clock() == old(Clock())
    {
      ok := started;
      if ok {
        commands := commands + [command];
      }
    }

    method ProposeUCI() returns (ok: bool)
      modifies this
      ensures ok == started == old(started)
      ensures commands == old(commands) + (if ok then ["uci"] else [])
      ensures Listening() == old(Listening()) && Clock() == old(Clock())
    {
      ok := WriteEngineCommand("uci");
    }

    method AskReady() returns (ok: bool)
      modifies this
      ensures ok == started == old(started)
      ensures commands == old(commands) + (if ok then ["isready"] else [])
      ensures Listening() == old(Listening()) && Clock() == old(Clock())
    {
      ok := WriteEngineCommand("isready");
    }

    method SetOption(key: string, value: string) returns (ok: bool)
      modifies this
      ensures ok == started == old(started)
      ensures commands == old(commands) + (if ok then [SetOptionCommand(key, value)] else [])
      ensures Listening() == old(Listening()) && Clock() == old(Clock())
    {
      ok := WriteEngineCommand(SetOptionCommand(key, value));
    }

    /** Writes `quit`; the forced kill five seconds later is not part of this model. */
    method QuitEngine() returns (ok: bool)
      modifies this
      ensures ok == started == old(started)
      ensures commands == old(commands) + (if ok then ["quit"] else [])
      ensures Listening() == old(Listening()) && Clock() == old(Clock())
    {
      ok := WriteEngineCommand("quit");
    }

    /** Writes `position fen F` only for a truthy FEN; an absent or empty FEN writes nothing. */
    method SendPositionFEN(fen: Option<string>) returns (ok: bool)
      modifies this
      ensures ok == (!Truthy(fen) || started) && started == old(started)
      ensures commands == old(commands) + (if Truthy(fen) && ok then [PositionFenCommand(fen.value)] else [])
      ensures Listening() == old(Listening()) && Clock() == old(Clock())
    {
      ok := true;
      if Truthy(fen) {
        ok := WriteEngineCommand(PositionFenCommand(fen.value));
      }
    }

    method SendPositionJoined(fen: string, moves: string) returns (ok: bool)
      modifies this
      ensures ok == started == old(started)
      ensures commands == old(commands) + (if ok then [PositionCommand(fen, moves)] else [])
      ensures Listening() == old(Listening()) && Clock() == old(Clock())
    {
      ok := WriteEngineCommand(PositionCommand(fen, moves));
    }

    method CalculateMove(whiteTime: int, blackTime: int, increment: int, infinite: bool) returns (ok: bool)
      modifies this
      ensures ok == started == old(started)
      ensures commands == old(commands) + (if ok then [GoCommand(whiteTime, blackTime, increment, infinite)] else [])
      ensures Listening() == old(Listening()) && Clock() == old(Clock())
    {
      ok := WriteEngineCommand(GoCommand(whiteTime, blackTime, increment, infinite));
    }

    method CalculateDepth(depth: int) returns (ok: bool)
      modifies this
      ensures ok == started == old(started)
      ensures commands == old(commands) + (if ok then [DepthCommand(depth)] else [])
      ensures Listening() == old(Listening()) && Clock() == old(Clock())
    {
      ok := WriteEngineCommand(DepthCommand(depth));
    }

    method CalculateTime(time: int) returns (ok: bool)
      modifies this
      ensures ok == started == old(started)
      ensures commands == old(commands) + (if ok then [MoveTimeCommand(time)] else [])
      ensures Listening() == old(Listening()) && Clock() == old(Clock())
    {
      ok := WriteEngineCommand(MoveTimeCommand(time));
    }

    /** Starts pondering: writes `go ponder ...` and opens a ponder interval at `now`. */
    method GoPonder(whiteTime: int, blackTime: int, increment: int, now: int) returns (ok: bool)
      requires Valid()
      modifies this
      ensures Valid()
      ensures ok == started == old(started)
      ensures commands == old(commands) + (if ok then [GoPonderCommand(whiteTime, blackTime, increment)] else [])
      ensures Clock() == if ok then StartPonder(old(Clock()), now) else old(Clock())
      ensures Listening() == old(Listening())
    {
      ok := WriteEngineCommand(GoPonderCommand(whiteTime, blackTime, increment));
      if ok {
        isPondering := true;
        lastPonderTime := Some(now);
      }
    }

    /** Ends pondering at `now`, adding the interval since the last `go ponder` (if any) to the total. */
    method NoPonderHit(now: int)
      requires Valid()
      modifies this
      ensures Valid()
      ensures Clock() == EndPonder(old(Clock()), now)
      ensures started == old(started) && commands == old(commands) && Listening() == old(Listening())
    {
      var ponderDifference: Option<int> := if lastPonderTime.Some? then Some(now - lastPonderTime.value) else None;
      isPondering := false;
      if ponderDifference.Some? {
        totalPonderTime := totalPonderTime + ponderDifference.value;
      }
    }

    /** The opponent played the pondered move: `ponderhit`, then pondering ends. */
    method PonderHit(now: int) returns (ok: bool)
      requires Valid()
      modifies this
      ensures Valid()
      ensures ok == started == old(started)
      ensures commands == old(commands) + (if ok then ["ponderhit"] else [])
      ensures Clock() == if ok then EndPonder(old(Clock()), now) else old(Clock())
      ensures Listening() == old(Listening())
    {
      ok := WriteEngineCommand("ponderhit");
      if ok {
        NoPonderHit(now);
      }
    }

    /**
      Ends a running ponder interval (only if one is running), then writes
      `stop`; the `SendPositionFEN()` that follows has no FEN and writes nothing.
     */
    method StopCalculating(now: int) returns (ok: bool)
      requires Valid()
      modifies this
      ensures Valid()
      ensures ok == started == old(started)
      ensures commands == old(commands) + (if ok then ["stop"] else [])
      ensures Clock() == StopClock(old(Clock()), now)
      ensures Listening() == old(Listening())
    {
      if isPondering {
        NoPonderHit(now);
      }
      ok := WriteEngineCommand("stop");
      if ok {
        ok := SendPositionFEN(None);
      }
    }

    /** The time spent pondering so far, counting a running interval up to `now`. */
    method GetPonderTime(now: int) returns (time: int)
      requires Valid()
      ensures Some(time) == PonderTime(Clock(), now)
    {
      time := totalPonderTime + (if isPondering then now - lastPonderTime.value else 0);
    }

    method IsPondering() returns (pondering: bool)
      ensures pondering == Clock().pondering
    {
      pondering := isPondering;
    }

    /** The move the engine last proposed to ponder on, if its last `bestmove` named one. */
    method GetPonder() returns (move: Option<string>)
      ensures move == Listening().ponder
    {
      move := ponder;
    }

    /** The listener for one line of engine output (already split at line breaks and trimmed). */
    method HandleLine(line: string)
      modifies this
      ensures Listening() == OnLine(old(Listening()), line)
      ensures started == old(started) && commands == old(commands) && Clock() == old(Clock())
    {
      var splitLine := Split(line, ' ');
      var instruction := splitLine[0];
      if instruction == "option" {
        var option := ParseOption(splitLine);
        options := options + [option];
      } else if instruction == "uciok" {
        uciReady := true;
        events := events + [OptionsListed(options)];
      } else if instruction == "readyok" {
        events := events + [Ready];
      } else if instruction == "id" {
        HandleId(splitLine);
      } else if instruction == "info" {
        var info := ParseInfo(line);
        events := events + [EngineThought(info)];
      } else if instruction == "bestmove" {
        HandleBestMove(splitLine);
      }
    }

    /** The `id` case of the line listener. */
    method HandleId(splitLine: seq<string>)
      modifies this
      ensures Listening() == OnId(old(Listening()), splitLine)
      ensures started == old(started) && commands == old(commands) && Clock() == old(Clock())
    {
      var kind := At(splitLine, 1);
      var rest := if |splitLine| >= 2 then splitLine[2..] else [];
      if kind == Some("name") {
        name := Some(Join(rest, ' '));
      }
      if kind == Some("author") {
        authors := Some(Join(rest, ' '));
      }
      if Truthy(name) && Truthy(authors) {
        events := events + [Identified(name.value, authors.value)];
      }
    }

    /** The `bestmove` case of the line listener. */
    method HandleBestMove(splitLine: seq<string>)
      modifies this
      ensures Listening() == OnBestMove(old(Listening()), splitLine)
      ensures started == old(started) && commands == old(commands) && Clock() == old(Clock())
    {
      var consideredMove := At(splitLine, 1);
      var ponderMove: Option<string> := None;
      if At(splitLine, 2) == Some("ponder") {
        ponder := At(splitLine, 3);
        ponderMove := At(splitLine, 3);
      } else {
        ponder := None;
      }
      events := events + [CalculatedMove(consideredMove, ponderMove)];
    }
  }
}
