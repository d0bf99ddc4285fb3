/** What the chat handlers promise, stated over whole transitions. */
module ChatterProps {
  import opened Outcomes
  import opened Chars
  import opened Strings
  import opened Numerals
  import opened Pv
  import opened Chatter
  import Openings

  // ---------------------------------------------------------------------
  // The hint protocol (chatter.py:275-338)
  // ---------------------------------------------------------------------

  /** A reply that turns a hint request down for its place in the order. */
  predicate Refused(text: string) {
    text == HintsOver || OutOfOrder <= text
  }

  /** The replies to a request that is in order are not refusals: they
      start with "Hint". */
  lemma InOrderRepliesNotRefused(n: nat, h: Hint)
    ensures !Refused(HintText(n, h)) && !Refused(HintUnavailable)
  {
    var text := HintText(n, h);
    assert text[0] == 'H';
    assert HintsOver[0] == 'Y';
    assert OutOfOrder[0] == 'R';
  }

  /** Once the gates pass, a request is considered exactly when fewer than
      seven hints were given and it asks for the next one; the counter then
      advances by one exactly when the engine answers and the reply is
      delivered, and the reply names the hint's number and move. */
  lemma HintAcceptance(s: State, g: Game, c: Collab, room: string, keyword: string)
    requires keyword in HintKeywords && Gate(g, room) == None
    ensures var r := HandleHint(s, g, c, room, keyword);
      && (Refused(r.sends[0].text) <==> !(s.hintCounter < MaxHints && HintNumber(keyword) == s.hintCounter + 1))
      && (r.state.hintCounter == s.hintCounter + 1 <==>
            s.hintCounter < MaxHints && HintNumber(keyword) == s.hintCounter + 1 && c.hint.Ok? && !c.sendRaises)
      && (r.state.hintCounter == s.hintCounter + 1 ==>
            r.sends == [Message(room, HintText(s.hintCounter + 1, c.hint.value))])
  {
    var r := HandleHint(s, g, c, room, keyword);
    var text := r.sends[0].text;
    if s.hintCounter < MaxHints && HintNumber(keyword) == s.hintCounter + 1 {
      InOrderRepliesNotRefused(s.hintCounter + 1, if c.hint.Ok? then c.hint.value else Hint("", None));
    } else if s.hintCounter < MaxHints {
      assert OutOfOrder <= text;
    }
  }

  /** When the engine fails or the reply cannot be sent, the only reply is
      "Hint unavailable." and the state is unchanged (chatter.py:323-338). */
  lemma HintFailure(s: State, g: Game, c: Collab, room: string, keyword: string)
    requires keyword in HintKeywords && Gate(g, room) == None
    requires s.hintCounter < MaxHints && HintNumber(keyword) == s.hintCounter + 1
    requires c.hint.Err? || c.sendRaises
    ensures HandleHint(s, g, c, room, keyword) == Outcome(s, [Message(room, HintUnavailable)])
  {
  }

  /** The hint handler without the inner "hints are over" branch of
      chatter.py:315-317. */
  function HandleHintDirect(s: State, g: Game, c: Collab, room: string, keyword: string): Outcome
    requires keyword in HintKeywords
  {
    match Gate(g, room)
    case Some(reply) => Outcome(s, [Message(room, reply)])
    case None =>
      var requested := HintNumber(keyword);
      if s.hintCounter >= MaxHints then Outcome(s, [Message(room, HintsOver)])
      else if requested != s.hintCounter + 1 then
        Outcome(s, [Message(room, OutOfOrder + " Next hint is hint number " + IntToString(s.hintCounter + 1) + ".")])
      else
        match c.hint
        case Err(_) => Outcome(s, [Message(room, HintUnavailable)])
        case Ok(h) =>
          if c.sendRaises then Outcome(s, [Message(room, HintUnavailable)])
          else Outcome(s.(hintCounter := requested), [Message(room, HintText(requested, h))])
  }

  /** The inner "hints are over" branch can never be taken: the earlier
      test of chatter.py:309 has already answered every request it would
      catch, so removing it changes nothing. */
  lemma InnerHintsOverUnreachable(s: State, g: Game, c: Collab, room: string, keyword: string)
    requires keyword in HintKeywords
    ensures HandleHint(s, g, c, room, keyword) == HandleHintDirect(s, g, c, room, keyword)
  {
  }

  /** The gates in their order: each reply is given exactly when its own
      test fails and every earlier one passed (chatter.py:276-295). */
  lemma GateOrder(g: Game, room: string)
    ensures Gate(g, room) == Some(CasualOnly) <==> g.rated
    ensures Gate(g, room) == Some(HumanOnly) <==> !g.rated && g.whiteTitle == "BOT" && g.blackTitle == "BOT"
    ensures Gate(g, room) == Some(RoomOnly) <==>
              !g.rated && !(g.whiteTitle == "BOT" && g.blackTitle == "BOT") && room != "player" && room != "spectator"
    ensures Gate(g, room) == Some(NotYourTurn) <==>
              !g.rated && !(g.whiteTitle == "BOT" && g.blackTitle == "BOT") && (room == "player" || room == "spectator") && g.isOurTurn
    ensures Gate(g, room) == None <==>
              !g.rated && !(g.whiteTitle == "BOT" && g.blackTitle == "BOT") && (room == "player" || room == "spectator") && !g.isOurTurn
  {
    assert |CasualOnly| == 41 && |HumanOnly| == 49 && |RoomOnly| == 57 && |NotYourTurn| == 50;
  }

  /** A failing gate sends its one reply and changes nothing, for the hint
      keywords and for `!hint` alike; with all gates passing `!hint` sends
      the instructions, and it never touches the state (chatter.py:218-242). */
  lemma GateStopsHints(s: State, setup: Setup, g: Game, c: Collab, room: string, keyword: string)
    requires keyword in HintKeywords
    ensures Gate(g, room).Some? ==>
              HandleHint(s, g, c, room, keyword) == Outcome(s, [Message(room, Gate(g, room).value)])
    ensures Gate(g, room).Some? ==>
              HandleCommand(s, setup, g, c, room, "hint") == Outcome(s, [Message(room, Gate(g, room).value)])
    ensures Gate(g, room).None? ==>
              HandleCommand(s, setup, g, c, room, "hint") == Outcome(s, [Message(room, HintInstructions)])
  {
  }

  // ---------------------------------------------------------------------
  // The hint counter over a whole game
  // ---------------------------------------------------------------------

  /** A chat line together with what the game and the collaborators
      showed while it was handled. */
  datatype Event = Event(game: Game, collab: Collab, line: ChatLine)

  /** The state after handling a sequence of chat lines in order. */
  function Run(s: State, setup: Setup, events: seq<Event>): State
    decreases |events|
  {
    if |events| == 0 then s
    else
      var e := events[0];
      Run(HandleChat(s, setup, e.game, e.collab, e.line).state, setup, events[1..])
  }

  /** Over any sequence of chat lines the hint counter stays within 0..7
      and never decreases (chatter.py:41, 309-335). */
  lemma {:induction false} RunKeepsCounter(s: State, setup: Setup, events: seq<Event>)
    requires Valid(s)
    ensures Valid(Run(s, setup, events))
    ensures Run(s, setup, events).hintCounter >= s.hintCounter
    decreases |events|
  {
    if |events| > 0 {
      var e := events[0];
      RunKeepsCounter(HandleChat(s, setup, e.game, e.collab, e.line).state, setup, events[1..]);
    }
  }

  /** A fresh chatter starts with no hints given and no subscriptions. */
  lemma StartIsValid()
    ensures Valid(Start) && Start.hintCounter == 0 && Start.evalRooms == {}
  {
  }

  // ---------------------------------------------------------------------
  // Routing (chatter.py:43-67)
  // ---------------------------------------------------------------------

  /** Lines from the server's own `lichess` account are never answered, in
      any room. */
  lemma LichessIgnored(s: State, setup: Setup, g: Game, c: Collab, line: ChatLine)
    requires line.username == "lichess"
    ensures HandleChat(s, setup, g, c, line) == Outcome(s, [])
  {
  }

  /** With commands switched off, a command or hint keyword gets the one
      fixed reply and anything else gets none; the state never changes. */
  lemma CommandsDisabled(s: State, setup: Setup, g: Game, c: Collab, line: ChatLine)
    requires line.username != "lichess" && !setup.commandsEnabled
    ensures var r := HandleChat(s, setup, g, c, line);
      && r.state == s
      && (|r.sends| == 1 <==> IsCommand(line.text) || IsHintKeyword(line.text))
      && (|r.sends| != 1 ==> r.sends == [])
      && (|r.sends| == 1 ==> r.sends[0] == Message(line.room, NotSupported))
  {
  }

  /** Unknown commands are ignored. */
  lemma UnknownCommandIgnored(s: State, setup: Setup, g: Game, c: Collab, line: ChatLine)
    requires line.username != "lichess" && setup.commandsEnabled
    requires IsCommand(line.text) && Lower(line.text[1..]) !in Commands
    ensures HandleChat(s, setup, g, c, line) == Outcome(s, [])
  {
  }

  /** Text that is neither a command nor a hint keyword is ignored. */
  lemma PlainTextIgnored(s: State, setup: Setup, g: Game, c: Collab, line: ChatLine)
    requires line.username != "lichess"
    requires !IsCommand(line.text) && !IsHintKeyword(line.text)
    ensures HandleChat(s, setup, g, c, line) == Outcome(s, [])
  {
  }

  /** Hint keywords are recognised whatever their case. */
  lemma HintKeywordAnyCase(s: State, setup: Setup, g: Game, c: Collab, line: ChatLine)
    requires line.username != "lichess" && setup.commandsEnabled
    requires !IsCommand(line.text) && IsHintKeyword(line.text)
    ensures HandleChat(s, setup, g, c, line) == HandleHint(s, g, c, line.room, Lower(line.text))
  {
  }

  // ---------------------------------------------------------------------
  // Commands (chatter.py:98-273)
  // ---------------------------------------------------------------------

  /** `!pv` sends nothing in the player room; elsewhere it sends one reply,
      which is "No PV available." exactly when the PV has fewer than two
      moves (chatter.py:141-148). */
  lemma PvReplies(s: State, setup: Setup, g: Game, c: Collab, room: string)
    ensures room == "player" ==> HandleCommand(s, setup, g, c, room, "pv") == Outcome(s, [])
    ensures room != "player" ==>
              var r := HandleCommand(s, setup, g, c, room, "pv");
              && r.state == s && |r.sends| == 1 && r.sends[0].room == room
              && (r.sends[0].text == NoPv <==> |g.lastPv| < 2)
  {
    if room != "player" && |g.lastPv| >= 2 {
      var pv := AppendPv("", g.lastPv, g.isOurTurn, g.board);
      NoPvIffShort(g.lastPv, g.isOurTurn, g.board);
      var h := Header("", PvBoard(g.board, g.isOurTurn));
      assert h[0] == 'P' && h <= pv;
      assert pv[0] == 'P';
      assert NoPv[0] == 'N';
    }
  }

  /** `!book` and `!egtb` announce what is in use exactly when something is
      configured, and otherwise say that nothing is (chatter.py:153-172). */
  lemma ResourceReplies(books: seq<string>, syzygy: Option<int>, gaviota: Option<int>)
    ensures "Using " <= BookText(books) <==> |books| > 0
    ensures "Using " <= EgtbText(syzygy, gaviota) <==> syzygy.Some? || gaviota.Some?
  {
    assert BookText(books)[0] == (if |books| > 0 then 'U' else 'N');
    assert EgtbText(syzygy, gaviota)[0] == (if syzygy.Some? || gaviota.Some? then 'U' else 'N');
  }

  /** `!ping` answers once, with a measurement exactly when the round trip
      succeeded and the reply went through (chatter.py:340-351). */
  lemma PingReplies(s: State, setup: Setup, g: Game, c: Collab, room: string)
    ensures var r := HandleCommand(s, setup, g, c, room, "ping");
      && r.state == s && |r.sends| == 1 && r.sends[0].room == room
      && ("Ping to Lichess: " <= r.sends[0].text <==> c.ping.Ok? && !c.sendRaises)
  {
    var text := HandleCommand(s, setup, g, c, room, "ping").sends[0].text;
    assert text[0] == (if c.ping.Ok? && !c.sendRaises then 'P' else 'C');
  }

  /** `!opening` answers once; in standard chess it reports the starting
      position before any move and an unknown opening when no key matches
      (chatter.py:112-125, openings_db.py:111-127). */
  lemma OpeningReplies(s: State, setup: Setup, g: Game, c: Collab, room: string)
    ensures var r := HandleCommand(s, setup, g, c, room, "opening");
      && r.state == s && |r.sends| == 1 && r.sends[0].room == room
      && (!g.standard ==> r.sends[0].text == "Opening names are only available for standard chess.")
      && (g.standard && |g.playedSans| == 0 ==> r.sends[0].text == "Current opening: Starting Position ()")
      && (g.standard && |g.playedSans| > 0
            && Openings.NoMatchAmong(g.openings, JoinWith(g.playedSans, " "), |g.openings|) ==>
            r.sends[0].text == "Current opening: Unknown Opening ()")
  {
  }

  /** `!quiet` sends nothing and unsubscribes exactly the room it was sent
      from (chatter.py:139-140). */
  lemma QuietUnsubscribesOneRoom(s: State, setup: Setup, g: Game, c: Collab, room: string, other: string)
    ensures var r := HandleCommand(s, setup, g, c, room, "quiet");
      && r.sends == [] && r.state.hintCounter == s.hintCounter
      && room !in r.state.evalRooms
      && (other != room ==> (other in r.state.evalRooms <==> other in s.evalRooms))
  {
  }

  /** `!printeval` (chatter.py:126-138): in a game without increment and
      under three minutes it answers once and subscribes nothing; an
      already subscribed room gets nothing; otherwise the room is
      subscribed and gets the stop instructions and then the evaluation. */
  lemma PrintEvalCases(s: State, setup: Setup, g: Game, c: Collab, room: string)
    ensures var r := HandleCommand(s, setup, g, c, room, "printeval");
      && (g.incrementMs == 0 && g.initialTimeMs < 180_000 ==>
            r.state == s && r.sends == [LastMessage(g, room)])
      && (!(g.incrementMs == 0 && g.initialTimeMs < 180_000) && room in s.evalRooms ==>
            r == Outcome(s, []))
      && (!(g.incrementMs == 0 && g.initialTimeMs < 180_000) && room !in s.evalRooms ==>
            && r.state.evalRooms == s.evalRooms + {room} && r.state.hintCounter == s.hintCounter
            && r.sends == [Message(room, QuietHint), LastMessage(g, room)])
  {
  }

  /** The evaluation echo is the engine's message with "Engine" renamed and
      its whitespace collapsed. Only in the spectator room, and only when the
      PV has at least two moves, does more follow: the PV header and the
      longest prefix of the later PV moves that fits in 140 characters
      (chatter.py:353-360). */
  lemma EvalEchoShape(g: Game, room: string)
    ensures var m, clean := LastMessage(g, room), CleanText(g.lastMessage);
      && m.room == room
      && Spacing.Collapsed(clean) && !Contains(clean, "Engine") && clean <= m.text
      && (room != "spectator" || |g.lastPv| < 2 ==> m.text == clean)
      && (room == "spectator" && |g.lastPv| >= 2 ==>
            var b := PvBoard(g.board, g.isOurTurn);
            exists k :: 0 <= k <= |g.lastPv| - 1
              && m.text == Header(clean, b) + Rendering(g.lastPv[1..][..k], b)
              && StopsAt(Header(clean, b), g.lastPv[1..], b, k))
  {
    if room == "spectator" && |g.lastPv| >= 2 {
      AppendPvShape(CleanText(g.lastMessage), g.lastPv, g.isOurTurn, g.board);
    }
  }

  // ---------------------------------------------------------------------
  // Help text (chatter.py:205-217)
  // ---------------------------------------------------------------------

  /** No `!` in `t` is followed by `pv`. */
  predicate NoBangPv(t: string) {
    forall i :: 0 <= i < |t| - 2 ==> !(t[i] == '!' && t[i + 1] == 'p' && t[i + 2] == 'v')
  }

  lemma PvFree(t: string)
    requires NoBangPv(t)
    ensures !Contains(t, "!pv")
  {
    forall i | 0 <= i <= |t| - 3 ensures !OccursAt(t, "!pv", i) {
      assert t[i..i + 3][0] == t[i] && t[i..i + 3][1] == t[i + 1] && t[i..i + 3][2] == t[i + 2];
    }
  }

  /** Two texts without `!pv` joined give none, unless the first ends in a
      `!` that the second continues. */
  lemma NoBangPvAppend(x: string, y: string)
    requires NoBangPv(x) && NoBangPv(y)
    requires |x| >= 2 && x[|x| - 1] != '!' && x[|x| - 2] != '!'
    ensures NoBangPv(x + y)
  {
    var t := x + y;
    forall i | 0 <= i < |t| - 2 ensures !(t[i] == '!' && t[i + 1] == 'p' && t[i + 2] == 'v') {
      if i >= |x| {
        assert t[i] == y[i - |x|] && t[i + 1] == y[i - |x| + 1] && t[i + 2] == y[i - |x| + 2];
      } else if i + 2 < |x| {
        assert t[i] == x[i] && t[i + 1] == x[i + 1] && t[i + 2] == x[i + 2];
      }
    }
  }

  lemma NoBangPvPrefix(t: string, n: nat)
    requires NoBangPv(t) && n <= |t|
    ensures NoBangPv(t[..n])
  {
    var u := t[..n];
    forall i | 0 <= i < |u| - 2 ensures !(u[i] == '!' && u[i + 1] == 'p' && u[i + 2] == 'v') {
      assert u[i] == t[i] && u[i + 1] == t[i + 1] && u[i + 2] == t[i + 2];
    }
  }

  /** The player help text, piece by piece, has no `!pv`. */
  lemma PlayerHelpPieces()
    ensures NoBangPv(PlayerHelp)
  {
    var a, b, c := "Supported commands: !cpu, !draw, ", "!eval, !game, !motor, !name, ", "!opening, !ping, !printeval, ";
    var d, e, f := "!hint, !ram, !book, !egtb, !stats.", " For hints in casual games: ", "firsthint, secondhint, etc.";
    PiecesABC();
    PiecesDEF();
    NoBangPvAppend(a, b);
    NoBangPvAppend(a + b, c);
    NoBangPvAppend(a + b + c, d);
    NoBangPvAppend(a + b + c + d, e);
    NoBangPvAppend(a + b + c + d + e, f);
  }

  lemma PiecesABC()
    ensures NoBangPv("Supported commands: !cpu, !draw, ")
    ensures NoBangPv("!eval, !game, !motor, !name, ")
    ensures NoBangPv("!opening, !ping, !printeval, ")
  {
  }

  lemma PiecesDEF()
    ensures NoBangPv("!hint, !ram, !book, !egtb, !stats.")
    ensures NoBangPv(" For hints in casual games: ")
    ensures NoBangPv("firsthint, secondhint, etc.")
  {
  }

  /** The shortened player help text has no `!pv`. */
  lemma PlayerHelpAvoidsPv()
    ensures !Contains(Shorten(PlayerHelp), "!pv")
  {
    PlayerHelpPieces();
    var head := PlayerHelp[..137];
    NoBangPvPrefix(PlayerHelp, 137);
    assert head[136] == PlayerHelp[136] && head[135] == PlayerHelp[135];
    assert NoBangPv("...");
    NoBangPvAppend(head, "...");
    PvFree(Shorten(PlayerHelp));
  }

  /** The short list sent when the help reply fails has no `!pv` either. */
  lemma ShortHelpAvoidsPv()
    ensures !Contains(ShortHelp, "!pv")
  {
    var a, b, c := "Supported commands: !help, !game, ", "!opening, !eval, !name, !motor, ", "!cpu, !ram, !draw";
    assert NoBangPv(a) && NoBangPv(b) && NoBangPv(c);
    NoBangPvAppend(a, b);
    NoBangPvAppend(a + b, c);
    PvFree(ShortHelp);
  }

  /** The shortened spectator help text still lists `!pv`, at index 91. */
  lemma SpectatorHelpListsPv()
    ensures Contains(Shorten(SpectatorHelp), "!pv")
  {
    var t := Shorten(SpectatorHelp);
    assert t[91] == SpectatorHelp[91] && t[92] == SpectatorHelp[92] && t[93] == SpectatorHelp[93];
    assert t[91..94] == "!pv";
    assert OccursAt(t, "!pv", 91);
  }

  /** The help reply is one message of at most 140 characters; the player
      room's list leaves out `!pv` and the spectators' includes it
      (chatter.py:205-217). */
  lemma HelpFits(s: State, setup: Setup, g: Game, c: Collab, room: string)
    ensures var r := HandleCommand(s, setup, g, c, room, "help");
      && r.state == s && |r.sends| == 1 && r.sends[0].room == room
      && |r.sends[0].text| <= Pv.Budget
      && (room == "player" ==> !Contains(r.sends[0].text, "!pv"))
      && (room != "player" && !c.sendRaises ==> Contains(r.sends[0].text, "!pv"))
  {
    if room == "player" {
      if c.sendRaises {
        ShortHelpAvoidsPv();
      } else {
        PlayerHelpAvoidsPv();
      }
    } else if !c.sendRaises {
      SpectatorHelpListsPv();
    }
  }

  // ---------------------------------------------------------------------
  // Statistics and the `!game` verdict
  // ---------------------------------------------------------------------

  /** The conventional value of an army in pawns: 1, 3, 3, 5 and 9 for
      pawns, knights, bishops, rooks and queens; kings do not count. */
  function ArmyValue(a: Army): nat {
    a.pawns + 3 * a.knights + 3 * a.bishops + 5 * a.rooks + 9 * a.queens
  }

  /** The material advantage of `!stats` is White's army value less
      Black's, so swapping the colours negates it (chatter.py:174-186). */
  lemma MaterialIsValueDifference(white: Army, black: Army)
    ensures MaterialScore(white, black) == ArmyValue(white) - ArmyValue(black)
    ensures MaterialScore(black, white) == -MaterialScore(white, black)
  {
  }

  /** More pieces never mean a later phase (chatter.py:188-194). */
  lemma PhaseOrder(m: nat, n: nat)
    requires m <= n
    ensures Phase(m) == "Opening" ==> Phase(n) == "Opening"
    ensures Phase(n) == "Endgame" ==> Phase(m) == "Endgame"
    ensures Phase(n) == "Opening" <==> n > 20
    ensures Phase(n) == "Endgame" <==> n <= 10
  {
  }

  /** The `!game` verdict (chatter.py:247-262): winning exactly for a
      forced mate for the bot or more than half a pawn ahead, losing exactly
      for a forced mate against it or more than half a pawn behind. */
  lemma Verdict(score: Score)
    ensures Winning <= VerdictText(score) <==> (score.Mate? && score.moves > 0) || (score.Centipawns? && score.cp > 50)
    ensures Losing <= VerdictText(score) <==> (score.Mate? && score.moves < 0) || (score.Centipawns? && score.cp < -50)
  {
    var t := VerdictText(score);
    assert Winning[4] == 'w' && Losing[4] == 'l';
    if (score.Mate? && score.moves > 0) || (score.Centipawns? && score.cp > 50) {
      assert Winning <= t;
    } else if (score.Mate? && score.moves < 0) || (score.Centipawns? && score.cp < -50) {
      assert Losing <= t;
    } else {
      assert t[0] == 'T';
    }
  }

  /** The `!game` reply is the verdict on the latest score, or the
      analysing notice before there is one (chatter.py:245-266). */
  lemma GameVerdict(scores: seq<Score>)
    ensures |scores| == 0 ==> GameText(scores) == "I'm currently analyzing the position."
    ensures |scores| > 0 ==>
              var last := scores[|scores| - 1];
              && (Winning <= GameText(scores) <==> (last.Mate? && last.moves > 0) || (last.Centipawns? && last.cp > 50))
              && (Losing <= GameText(scores) <==> (last.Mate? && last.moves < 0) || (last.Centipawns? && last.cp < -50))
  {
    if |scores| > 0 {
      Verdict(scores[|scores| - 1]);
    }
  }

  // ---------------------------------------------------------------------
  // Evaluation echo, greetings and goodbyes
  // ---------------------------------------------------------------------

  /** The periodic echo sends nothing in a game without increment once the
      bot has under 30 seconds; otherwise every subscribed room gets
      exactly one echo (chatter.py:69-74). */
  lemma EchoReachesEachRoomOnce(s: State, g: Game, order: seq<string>)
    requires forall room :: room in s.evalRooms <==> room in order
    requires forall i, j :: 0 <= i < j < |order| ==> order[i] != order[j]
    requires !(g.incrementMs == 0 && g.ownTime < 30.0)
    ensures var sends := PrintEval(s, g, order);
      && (forall room :: room in s.evalRooms <==> exists k :: 0 <= k < |sends| && sends[k].room == room)
      && (forall i, j :: 0 <= i < j < |sends| ==> sends[i].room != sends[j].room)
  {
    var sends := PrintEval(s, g, order);
    forall room ensures room in s.evalRooms <==> exists k :: 0 <= k < |sends| && sends[k].room == room {
      if room in s.evalRooms {
        var k :| 0 <= k < |order| && order[k] == room;
        assert sends[k].room == room;
      }
    }
  }

  /** A room is addressed exactly when its text is configured, with that
      text, and the player room comes first. */
  predicate AddressesBoth(sends: seq<Message>, player: string, spectator: string) {
    && ((exists k :: 0 <= k < |sends| && sends[k].room == "player") <==> player != "")
    && ((exists k :: 0 <= k < |sends| && sends[k].room == "spectator") <==> spectator != "")
    && (forall k :: 0 <= k < |sends| ==> sends[k] in [Message("player", player), Message("spectator", spectator)])
    && (|sends| == 2 ==> sends[0].room == "player")
  }

  /** The two-room sender addresses each room exactly when its text is
      configured (chatter.py:77-81 and 87-91). */
  lemma BothRooms(player: string, spectator: string)
    ensures AddressesBoth(ToBothRooms(player, spectator), player, spectator)
  {
    var sends := ToBothRooms(player, spectator);
    if player != "" { assert sends[0].room == "player"; }
    if spectator != "" { assert sends[|sends| - 1].room == "spectator"; }
  }

  /** Greetings go to the player room and then the spectators, each only
      when configured and with its own text (chatter.py:76-81). */
  lemma GreetingRooms(setup: Setup)
    ensures AddressesBoth(Greetings(setup), setup.playerGreeting, setup.spectatorGreeting)
  {
    BothRooms(setup.playerGreeting, setup.spectatorGreeting);
  }

  /** Goodbyes do the same unless the game can still be aborted, when no
      room hears anything (chatter.py:83-91). */
  lemma GoodbyeRooms(setup: Setup, g: Game)
    ensures g.isAbortable ==> Goodbyes(setup, g) == []
    ensures !g.isAbortable ==> AddressesBoth(Goodbyes(setup, g), setup.playerGoodbye, setup.spectatorGoodbye)
  {
    BothRooms(setup.playerGoodbye, setup.spectatorGoodbye);
  }
}
