/** The per-game chat assistant (chatter.py). Its state is the hint counter
    and the set of rooms subscribed to evaluation echoes; every handler is a
    transition that returns the new state and the messages sent, in order.
    Everything the handlers read from the game, the engine and the chat
    transport arrives as a value. */
module Chatter {
  import opened Outcomes
  import opened Chars
  import opened Strings
  import opened Spacing
  import opened Numerals
  import Openings
  import opened Pv

  /** Hints available per game (chatter.py:309-312). */
  const MaxHints: nat := 7

  /** The hint keywords, in the order they must be used (chatter.py:59, 297-305). */
  const HintKeywords: seq<string> :=
    ["firsthint", "secondhint", "thirdhint", "fourthhint", "fifthhint", "sixthhint", "seventhhint"]

  // The fixed replies. Long texts are written in pieces, each short enough
  // for the verifier to see its characters.
  const NotSupported := "Commands are not currently supported" + " at this time."
  const HintsOnly := "Hints are only available "
  const CasualOnly := HintsOnly + "in casual games."
  const HumanOnly := HintsOnly + "against human opponents."
  const RoomOnly := HintsOnly + "in the player or spectator room."
  const NotYourTurn := "It's not your turn, " + "so a hint wouldn't be helpful."
  const HintsOver := "Your hints are over. " + "I've already provided all 7 " + "available hints for this game."
  const HintInstructions := "For hints, type: firsthint, " + "secondhint, thirdhint, etc. in order."
  const OutOfOrder := "Request hints in order."
  const HintUnavailable := "Hint unavailable."
  const NoPv := "No PV available."
  const QuietHint := "Type !quiet to stop eval printing."
  const Abortion := "Too bad you weren't there. " + "Feel free to challenge me again, " + "I will accept the challenge " + "if possible."

  /** A chat line as it arrives from the server. */
  datatype ChatLine = ChatLine(username: string, room: string, text: string)

  /** One `send_chat_message` call that reached the server. */
  datatype Message = Message(room: string, text: string)

  /** The mutable part of a `Chatter` (chatter.py:40-41). */
  datatype State = State(hintCounter: int, evalRooms: set<string>)

  const Start := State(0, {})

  predicate Valid(s: State) {
    0 <= s.hintCounter <= MaxHints
  }

  /** What a handler returns: the next state and the messages sent. */
  datatype Outcome = Outcome(state: State, sends: seq<Message>)

  /** The texts fixed when the chatter is built (chatter.py:26-39), already
      formatted; an empty greeting or goodbye is one that is not configured. */
  datatype Setup = Setup(
    commandsEnabled: bool,
    cpu: string, draw: string, name: string, ram: string,
    playerGreeting: string, playerGoodbye: string,
    spectatorGreeting: string, spectatorGoodbye: string)

  /** The engine's latest evaluation, from the point of view of the side it
      belongs to. A centipawn score carries the text its pawn value is
      printed as (one decimal, without sign). */
  datatype Score = Mate(moves: int) | Centipawns(cp: int, pawns: string)

  /** Pieces of one colour on the board. */
  datatype Army = Army(pawns: nat, knights: nat, bishops: nat, rooks: nat, queens: nat, kings: nat)

  /** The game as the handlers see it at the moment of the call. */
  datatype Game = Game(
    rated: bool, whiteTitle: string, blackTitle: string, standard: bool,
    incrementMs: int, initialTimeMs: int, ownTime: real,
    isOurTurn: bool, isAbortable: bool, board: Board,
    lastMessage: string, lastPv: seq<string>, scores: seq<Score>,
    engineName: string, playedSans: seq<string>, openings: seq<Openings.Entry>,
    books: seq<string>, syzygy: Option<int>, gaviota: Option<int>,
    white: Army, black: Army)

  /** A hint computed by the engine: the move and, when known, its formatted
      evaluation. */
  datatype Hint = Hint(san: string, score: Option<string>)

  /** Results of the calls the handlers make inside `try` blocks:
      the engine's hint, whether the guarded send raised, and the measured
      round trip to the server in milliseconds. */
  datatype Collab = Collab(hint: Result<Hint>, sendRaises: bool, ping: Result<int>)

  predicate IsCommand(text: string) {
    |text| > 0 && text[0] == '!'
  }

  predicate IsHintKeyword(text: string) {
    Lower(text) in HintKeywords
  }

  /** `hint_order` (chatter.py:297-305): a keyword's place in the order. */
  function HintNumber(keyword: string): (n: nat)
    requires keyword in HintKeywords
    ensures 1 <= n <= MaxHints && HintKeywords[n - 1] == keyword
  {
    if keyword == "firsthint" then 1
    else if keyword == "secondhint" then 2
    else if keyword == "thirdhint" then 3
    else if keyword == "fourthhint" then 4
    else if keyword == "fifthhint" then 5
    else if keyword == "sixthhint" then 6
    else 7
  }

  /** The four gates shared by `!hint` and the hint keywords
      (chatter.py:219-237, 276-295), in their order: the reply of the first
      one that fails, or `None` when all pass. */
  function Gate(g: Game, room: string): Option<string> {
    if g.rated then Some(CasualOnly)
    else if g.whiteTitle == "BOT" && g.blackTitle == "BOT" then Some(HumanOnly)
    else if room != "player" && room != "spectator" then Some(RoomOnly)
    else if g.isOurTurn then Some(NotYourTurn)
    else None
  }

  /** `_handle_hint_variation` (chatter.py:275-338). */
  function HandleHint(s: State, g: Game, c: Collab, room: string, keyword: string): (r: Outcome)
    requires keyword in HintKeywords
    ensures |r.sends| == 1 && r.sends[0].room == room
    ensures r.state.evalRooms == s.evalRooms
    ensures r.state.hintCounter == s.hintCounter || r.state.hintCounter == s.hintCounter + 1
    ensures r.state.hintCounter != s.hintCounter ==> r.state.hintCounter <= MaxHints
  {
    match Gate(g, room)
    case Some(reply) => Outcome(s, [Message(room, reply)])
    case None =>
      var requested := HintNumber(keyword);
      if s.hintCounter >= MaxHints then Outcome(s, [Message(room, HintsOver)])
      else if requested != s.hintCounter + 1 then
        if s.hintCounter + 1 > MaxHints then Outcome(s, [Message(room, HintsOver)])
        else Outcome(s, [Message(room, OutOfOrder + " Next hint is hint number " + IntToString(s.hintCounter + 1) + ".")])
      else
        match c.hint
        case Err(_) => Outcome(s, [Message(room, HintUnavailable)])
        case Ok(h) =>
          if c.sendRaises then Outcome(s, [Message(room, HintUnavailable)])
          else Outcome(s.(hintCounter := requested), [Message(room, HintText(requested, h))])
  }

  /** The hint reply (chatter.py:324-330). */
  function HintText(requested: nat, h: Hint): string {
    "Hint " + IntToString(requested) + ": The suggested move is " + h.san
    + (if h.score.Some? then " with evaluation " + h.score.value else "")
  }

  /** The engine's last message as it is echoed: "Engine" renamed to
      "Evaluation" and the whitespace collapsed (chatter.py:354-355). The
      echo keeps the words of the renamed message, in order. */
  function CleanText(last: string): (r: string)
    ensures Collapsed(r) && !Contains(r, "Engine")
    ensures Words(r) == Words(ReplaceAll(last, "Engine", "Evaluation"))
  {
    EvalTextClean(last);
    CollapseKeepsWords(ReplaceAll(last, "Engine", "Evaluation"));
    Collapse(ReplaceAll(last, "Engine", "Evaluation"))
  }

  /** `_send_last_message` (chatter.py:353-360): the cleaned engine message,
      with the PV appended in the spectator room only. */
  function LastMessage(g: Game, room: string): (m: Message)
    ensures m.room == room
    ensures room != "spectator" ==> m.text == CleanText(g.lastMessage)
    ensures room == "spectator" && |g.lastPv| < 2 ==> m.text == CleanText(g.lastMessage)
    ensures room == "spectator" && |g.lastPv| >= 2 ==>
              m.text == AppendPv(CleanText(g.lastMessage), g.lastPv, g.isOurTurn, g.board)
    ensures CleanText(g.lastMessage) <= m.text
  {
    var text := CleanText(g.lastMessage);
    Message(room, if room == "spectator" then AppendPv(text, g.lastPv, g.isOurTurn, g.board) else text)
  }

  /** Renaming and collapsing leave collapsed text with no "Engine" in it. */
  lemma EvalTextClean(last: string)
    ensures Collapsed(Collapse(ReplaceAll(last, "Engine", "Evaluation")))
    ensures !Contains(Collapse(ReplaceAll(last, "Engine", "Evaluation")), "Engine")
  {
    var replaced := ReplaceAll(last, "Engine", "Evaluation");
    CollapseIsCollapsed(replaced);
    EngineReplacedEverywhere(last);
    if Contains(Collapse(replaced), "Engine") {
      assert forall k :: 0 <= k < |"Engine"| ==> !IsSpace("Engine"[k]);
      CollapseAddsNoText(replaced, "Engine");
    }
  }

  /** A message that is already collapsed and names no "Engine" is echoed
      unchanged. */
  lemma CleanTextKeepsClean(last: string)
    requires Collapsed(last) && !Contains(last, "Engine")
    ensures CleanText(last) == last
  {
    ReplaceAbsent(last, "Engine", "Evaluation");
    CollapseIdempotent(last);
  }

  /** A message that starts with "Engine" and holds no other is echoed
      with "Evaluation" in its place and the rest kept, up to whitespace. */
  lemma CleanTextRenames(rest: string)
    requires !Contains(rest, "Engine")
    ensures CleanText("Engine" + rest) == Collapse("Evaluation" + rest)
  {
    ReplaceOnlyHead("Engine", rest, "Evaluation");
  }

  /** An evaluation line as the engine reports it. */
  lemma CleanTextExample()
    ensures CleanText("Engine:  +0.5") == "Evaluation: +0.5"
  {
    ExampleRenamed();
    ExampleCollapsed();
  }

  lemma ExampleRenamed()
    ensures CleanText("Engine:  +0.5") == Collapse("Evaluation:  +0.5")
  {
    ExampleTail();
    CleanTextRenames(":  +0.5");
  }

  /** The example's text after "Engine", and the two lines it is part of. */
  lemma ExampleTail()
    ensures !Contains(":  +0.5", "Engine")
    ensures "Engine" + ":  +0.5" == "Engine:  +0.5"
    ensures "Evaluation" + ":  +0.5" == "Evaluation:  +0.5"
  {
    AbsentHead(":  +0.5", "Engine");
  }

  lemma ExampleCollapsed()
    ensures Collapse("Evaluation:  +0.5") == "Evaluation: +0.5"
  {
    ExampleWords();
    CollapseAfterColon("Evaluation", "+0.5");
  }

  /** The example's two words, and the renamed line before and after
      collapsing. */
  lemma ExampleWords()
    ensures IsWord("Evaluation") && IsWord("+0.5")
    ensures "Evaluation" + ":" + " " + (" " + "+0.5") == "Evaluation:  +0.5"
    ensures "Evaluation" + ":" + " " + "+0.5" == "Evaluation: +0.5"
  {
    assert forall k :: 0 <= k < |"+0.5"| ==> !IsSpace("+0.5"[k]);
  }

  /** A word, a colon and a double space before another word collapse to
      one space. */
  lemma CollapseAfterColon(w: string, note: string)
    requires IsWord(w) && IsWord(note)
    ensures Collapse(w + ":" + " " + (" " + note)) == w + ":" + " " + note
  {
    var y := " " + note;
    assert IsWord(w + ":") by { assert !IsSpace(':'); assert forall k :: 0 <= k < |w| ==> (w + ":")[k] == w[k]; }
    assert y[1..] == note;
    assert Words(y) == Words(note);
    WordOfItself(note);
    CollapseWord(note);
    CollapseCons(w + ":", y);
  }

  /** `print_eval` (chatter.py:69-74). Python visits the subscribed rooms
      in the set's own order; `order` is that enumeration. */
  function PrintEval(s: State, g: Game, order: seq<string>): (sends: seq<Message>)
    requires forall room :: room in s.evalRooms <==> room in order
    requires forall i, j :: 0 <= i < j < |order| ==> order[i] != order[j]
    ensures g.incrementMs == 0 && g.ownTime < 30.0 ==> sends == []
    ensures !(g.incrementMs == 0 && g.ownTime < 30.0) ==>
              |sends| == |order| == |s.evalRooms| && forall i :: 0 <= i < |sends| ==> sends[i] == LastMessage(g, order[i])
  {
    if g.incrementMs == 0 && g.ownTime < 30.0 then []
    else
      DistinctCardinality(order, s.evalRooms);
      seq(|order|, i requires 0 <= i < |order| => LastMessage(g, order[i]))
  }

  /** A list without repetitions has as many elements as the set of its
      elements. */
  lemma {:induction false} DistinctCardinality(order: seq<string>, rooms: set<string>)
    requires forall room :: room in rooms <==> room in order
    requires forall i, j :: 0 <= i < j < |order| ==> order[i] != order[j]
    ensures |rooms| == |order|
    decreases |order|
  {
    if |order| > 0 {
      var rest := rooms - {order[0]};
      forall room ensures room in rest <==> room in order[1..] {
        if room in order[1..] {
          var k :| 1 <= k < |order| && order[k] == room;
          assert order[0] != order[k];
        }
        if room in order && room != order[0] {
          var k :| 0 <= k < |order| && order[k] == room;
          assert order[1..][k - 1] == room;
        }
      }
      DistinctCardinality(order[1..], rest);
    }
  }

  /** `!printeval` (chatter.py:126-138). */
  function PrintEvalCommand(s: State, g: Game, room: string): Outcome {
    if g.incrementMs == 0 && g.initialTimeMs < 180_000 then Outcome(s, [LastMessage(g, room)])
    else if room in s.evalRooms then Outcome(s, [])
    else Outcome(s.(evalRooms := s.evalRooms + {room}), [Message(room, QuietHint), LastMessage(g, room)])
  }

  /** `!pv` (chatter.py:141-148). */
  function PvCommand(g: Game, room: string): seq<Message> {
    if room == "player" then []
    else
      var pv := AppendPv("", g.lastPv, g.isOurTurn, g.board);
      [Message(room, if pv == "" then NoPv else pv)]
  }

  /** `!book` (chatter.py:153-160). */
  function BookText(books: seq<string>): string {
    if |books| > 0 then "Using opening books: " + JoinWith(books, ", ") else "Not using any opening books."
  }

  /** `!egtb` (chatter.py:161-172). */
  function EgtbText(syzygy: Option<int>, gaviota: Option<int>): string {
    var info :=
      (if syzygy.Some? then ["Syzygy (up to " + IntToString(syzygy.value) + " pieces)"] else [])
      + (if gaviota.Some? then ["Gaviota (up to " + IntToString(gaviota.value) + " pieces)"] else []);
    if |info| > 0 then "Using endgame tablebases: " + JoinWith(info, ", ") else "Not using any endgame tablebases."
  }

  /** The material balance in pawn units, White minus Black
      (chatter.py:174-186). */
  function MaterialScore(white: Army, black: Army): int {
    (white.pawns - black.pawns) * 1
    + (white.knights - black.knights) * 3
    + (white.bishops - black.bishops) * 3
    + (white.rooks - black.rooks) * 5
    + (white.queens - black.queens) * 9
  }

  function Pieces(a: Army): nat {
    a.pawns + a.knights + a.bishops + a.rooks + a.queens + a.kings
  }

  /** The phase named by the number of pieces on the board
      (chatter.py:188-194). */
  function Phase(totalPieces: nat): string {
    if totalPieces > 20 then "Opening" else if totalPieces > 10 then "Middlegame" else "Endgame"
  }

  /** `!stats` (chatter.py:173-204). */
  function StatsText(white: Army, black: Army, b: Board): string {
    "Position stats: Material advantage: " + IntToString(MaterialScore(white, black))
    + " (P:" + IntToString(white.pawns - black.pawns)
    + " N:" + IntToString(white.knights - black.knights)
    + " B:" + IntToString(white.bishops - black.bishops)
    + " R:" + IntToString(white.rooks - black.rooks)
    + " Q:" + IntToString(white.queens - black.queens)
    + "), Phase: " + Phase(Pieces(white) + Pieces(black))
    + ", Turn: " + (if b.whiteToMove then "White" else "Black")
    + " (move " + IntToString(b.fullmove) + ")"
  }

  /** The two help texts and the short list sent when the reply fails
      (chatter.py:207-210, 216). */
  const PlayerHelp :=
    "Supported commands: !cpu, !draw, " + "!eval, !game, !motor, !name, " + "!opening, !ping, !printeval, "
    + "!hint, !ram, !book, !egtb, !stats." + " For hints in casual games: " + "firsthint, secondhint, etc."
  const SpectatorHelp :=
    "Supported commands: !cpu, !draw, " + "!eval, !game, !motor, !name, " + "!opening, !ping, !printeval, "
    + "!pv, !hint, !ram, !book, !egtb, !stats." + " For hints in casual games: " + "firsthint, secondhint, etc."
  const ShortHelp := "Supported commands: !help, !game, " + "!opening, !eval, !name, !motor, " + "!cpu, !ram, !draw"

  /** A chat line may hold 140 characters; a longer text keeps its first
      137 and ends in "..." (chatter.py:212-213). */
  function Shorten(message: string): (r: string)
    ensures |r| <= Pv.Budget
    ensures |message| <= Pv.Budget ==> r == message
    ensures |message| > Pv.Budget ==> r == message[..137] + "..."
  {
    if |message| > 140 then message[..137] + "..." else message
  }

  /** `!help` and `!commands` (chatter.py:205-217). */
  function HelpCommand(c: Collab, room: string): seq<Message> {
    if c.sendRaises then [Message(room, ShortHelp)]
    else [Message(room, Shorten(if room == "player" then PlayerHelp else SpectatorHelp))]
  }

  /** `!hint` (chatter.py:218-242): the gates, then the instructions. */
  function HintCommand(g: Game, room: string): seq<Message> {
    match Gate(g, room)
    case Some(reply) => [Message(room, reply)]
    case None => [Message(room, HintInstructions)]
  }

  const Winning := "I'm winning"
  const Losing := "I'm losing"

  /** The `!game` reply for one score (chatter.py:247-262). The score is in
      centipawns; `cp / 100.0 > 0.5` holds exactly when `cp > 50`. */
  function VerdictText(score: Score): string {
    match score
    case Mate(n) =>
      if n > 0 then Winning + " and have a forced mate in " + IntToString(n) + " moves!"
      else if n < 0 then Losing + " and facing mate in " + IntToString(-n) + " moves."
      else "The game is drawn by mate."
    case Centipawns(cp, pawns) =>
      if cp > 50 then Winning + " by " + pawns + " pawns."
      else if cp < -50 then Losing + " by " + pawns + " pawns."
      else "The game is evenly balanced."
  }

  /** The `!game` reply for the latest score, if any (chatter.py:245-264). */
  function GameText(scores: seq<Score>): string {
    if |scores| == 0 then "I'm currently analyzing the position."
    else VerdictText(scores[|scores| - 1])
  }

  /** `!game` (chatter.py:243-269). */
  function GameCommand(g: Game, c: Collab, room: string): seq<Message> {
    if c.sendRaises then [Message(room, "Analysis unavailable.")]
    else [Message(room, GameText(g.scores))]
  }

  /** `!ping` (chatter.py:340-351); the measurement is a value. */
  function PingCommand(c: Collab, room: string): seq<Message> {
    match c.ping
    case Ok(ms) =>
      if c.sendRaises then [Message(room, "Could not measure ping to Lichess.")]
      else [Message(room, "Ping to Lichess: " + IntToString(ms) + "ms")]
    case Err(_) => [Message(room, "Could not measure ping to Lichess.")]
  }

  /** `!opening` (chatter.py:112-125). */
  function OpeningText(g: Game): string {
    if !g.standard then "Opening names are only available for standard chess."
    else
      var (name, line) := Openings.Resolve(g.openings, g.playedSans);
      "Current opening: " + name + " (" + line + ")"
  }

  /** The commands `_handle_command` knows (chatter.py:101-271). */
  const Commands: set<string> :=
    {"cpu", "draw", "eval", "motor", "name", "opening", "printeval", "quiet", "pv", "ram",
     "book", "egtb", "stats", "help", "commands", "hint", "game", "ping"}

  /** The answer of a command that leaves the chat state alone
      (chatter.py:98-273 apart from `!printeval` and `!quiet`). */
  function Reply(setup: Setup, g: Game, c: Collab, room: string, command: string): (sends: seq<Message>)
    ensures command !in Commands ==> sends == []
    ensures forall k :: 0 <= k < |sends| ==> sends[k].room == room
  {
    if command == "cpu" then [Message(room, setup.cpu)]
    else if command == "draw" then [Message(room, setup.draw)]
    else if command == "eval" then [LastMessage(g, room)]
    else if command == "motor" then [Message(room, g.engineName)]
    else if command == "name" then [Message(room, setup.name)]
    else if command == "opening" then [Message(room, OpeningText(g))]
    else if command == "pv" then PvCommand(g, room)
    else if command == "ram" then [Message(room, setup.ram)]
    else if command == "book" then [Message(room, BookText(g.books))]
    else if command == "egtb" then [Message(room, EgtbText(g.syzygy, g.gaviota))]
    else if command == "stats" then [Message(room, StatsText(g.white, g.black, g.board))]
    else if command == "help" || command == "commands" then HelpCommand(c, room)
    else if command == "hint" then HintCommand(g, room)
    else if command == "game" then GameCommand(g, c, room)
    else if command == "ping" then PingCommand(c, room)
    else []
  }

  /** `_handle_command` (chatter.py:98-273), given the lower-cased text
      after the `!`. */
  function HandleCommand(s: State, setup: Setup, g: Game, c: Collab, room: string, command: string): (r: Outcome)
    ensures r.state.hintCounter == s.hintCounter
    ensures command !in Commands ==> r == Outcome(s, [])
    ensures command != "printeval" && command != "quiet" ==> r.state == s
    ensures forall k :: 0 <= k < |r.sends| ==> r.sends[k].room == room
  {
    if command == "printeval" then PrintEvalCommand(s, g, room)
    else if command == "quiet" then Outcome(s.(evalRooms := s.evalRooms - {room}), [])
    else Outcome(s, Reply(setup, g, c, room, command))
  }

  /** `handle_chat_message` (chatter.py:43-67). */
  function HandleChat(s: State, setup: Setup, g: Game, c: Collab, line: ChatLine): (r: Outcome)
    ensures r.state.hintCounter == s.hintCounter || r.state.hintCounter == s.hintCounter + 1
    ensures r.state.hintCounter != s.hintCounter ==> r.state.hintCounter <= MaxHints
    ensures forall k :: 0 <= k < |r.sends| ==> r.sends[k].room == line.room
  {
    if line.username == "lichess" then Outcome(s, [])
    else if !setup.commandsEnabled then
      if IsCommand(line.text) || IsHintKeyword(line.text) then Outcome(s, [Message(line.room, NotSupported)])
      else Outcome(s, [])
    else if IsCommand(line.text) then HandleCommand(s, setup, g, c, line.room, Lower(line.text[1..]))
    else if IsHintKeyword(line.text) then HandleHint(s, g, c, line.room, Lower(line.text))
    else Outcome(s, [])
  }

  /** The player room's text and then the spectators' text, each only when
      it is not empty (chatter.py:77-81 and 87-91). */
  function ToBothRooms(player: string, spectator: string): (sends: seq<Message>)
    ensures |sends| <= 2
    ensures forall k :: 0 <= k < |sends| ==> sends[k].text != ""
  {
    (if player != "" then [Message("player", player)] else [])
    + (if spectator != "" then [Message("spectator", spectator)] else [])
  }

  /** `send_greetings` (chatter.py:76-81). */
  function Greetings(setup: Setup): (sends: seq<Message>)
    ensures |sends| <= 2
    ensures forall k :: 0 <= k < |sends| ==> sends[k].text != ""
  {
    ToBothRooms(setup.playerGreeting, setup.spectatorGreeting)
  }

  /** `send_goodbyes` (chatter.py:83-91): nothing while the game can still
      be aborted. */
  function Goodbyes(setup: Setup, g: Game): (sends: seq<Message>)
    ensures g.isAbortable ==> sends == []
    ensures |sends| <= 2
    ensures forall k :: 0 <= k < |sends| ==> sends[k].text != ""
  {
    if g.isAbortable then [] else ToBothRooms(setup.playerGoodbye, setup.spectatorGoodbye)
  }

  /** `send_abortion_message` (chatter.py:93-96). */
  function AbortionMessage(): (sends: seq<Message>)
    ensures |sends| == 1 && sends[0].room == "player"
  {
    [Message("player", Abortion)]
  }
}
