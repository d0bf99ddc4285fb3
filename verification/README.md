# Chat assistant and opening lookup of a Lichess bot, in Dafny

This project models the per-game chat assistant of a Lichess bot (`chatter.py`)
and the opening corpus it consults (`openings_db.py`), and proves what they
promise.

The chat assistant (`Chatter`) answers the lines typed in a game's two chat rooms.
- Lines from the server's `lichess` account are dropped.
- With commands switched off, commands and hint keywords get one fixed refusal.
- Otherwise a `!command` is matched against eighteen command names (`help` and `commands` share one handler).
- A hint keyword (`firsthint` … `seventhhint`, in any case) goes to the hint protocol.
- The handlers share four gates. Hints are served in order, at most seven per game, and the counter advances only when the hint actually went out.

The assistant also does the following:
- It echoes the engine's last evaluation, renaming "Engine" to "Evaluation" and collapsing the whitespace.
- In the spectator room it appends the principal variation (PV), rendered move by move within 140 characters.
- It keeps a set of rooms subscribed to those echoes through `!printeval` and `!quiet`.
- It sends greetings and goodbyes to both rooms.

The opening corpus (`Openings`, `FallbackTable`, `Corpus`) works in three steps:
- It reads `Openings.txt` line by line. Each line is stripped and filtered, then matched by four regular expressions tried in order.
- Move numbers are removed from the captured move text and its whitespace is collapsed; the result is the entry's key.
- The ten-entry fallback table is used when the file is missing or unreadable. `get_opening_info` picks the entry with the longest key that starts the played moves, and the first such entry on a tie.

Layout, one module per file:

| file | module | contents |
|---|---|---|
| `outcomes.dfy` | `Outcomes` | `Option` and `Result` |
| `chars.dfy` | `Chars` | the character classes `\s`, `\d`, `\w`, `[1-9]`, and lower-casing as far as comparisons with ASCII names need it |
| `strings.dfy` | `Strings` | `strip`, `split`, `join`, `replace`, and occurrence of a text inside another |
| `spacing.dfy` | `Spacing` | `' '.join(s.split())` and its properties |
| `numerals.dfy` | `Numerals` | `str(int)` |
| `openings.dfy` | `Openings` | line filters, the four patterns, the move-key normalisation, loading and resolving |
| `fallback.dfy` | `FallbackTable` | the fallback table and the proof that its keys are the normalised move texts |
| `corpus.dfy` | `Corpus` | the choice of corpus, and facts about parsing and resolving |
| `pv.dfy` | `Pv` | the PV renderer |
| `chatter.dfy` | `Chatter` | the assistant's state and handlers |
| `chatter_props.dfy` | `ChatterProps` | properties of the handlers over whole transitions and runs |

Every handler is a pure function from the current state to an `Outcome`: the next state and the messages sent, in order.
- Whatever a handler reads from the game, the engine, the clock or the network arrives as a value.
- A `Game` carries the clock and board facts, the engine's last message, PV and scores, and the loaded corpus.
- A `Collab` carries the engine's hint, whether a send inside a `try` raised, and the measured ping.

## Model

| member | source | states |
|---|---|---|
| Chatter.HandleChat | chatter.py:43-67 | Handling a chat line leaves the hint counter alone or raises it by exactly one to at most 7, and every reply goes to the room the line came from |
| ChatterProps.LichessIgnored | chatter.py:46-49 | A line from the `lichess` account gets no reply and changes nothing, in any room |
| ChatterProps.CommandsDisabled | chatter.py:59-62 | With commands disabled the state never changes; one fixed refusal is sent exactly when the text is a command or a hint keyword, otherwise nothing |
| ChatterProps.PlainTextIgnored | chatter.py:64-67 | Text that is neither a `!command` nor a hint keyword gets no reply and changes nothing |
| ChatterProps.HintKeywordAnyCase | chatter.py:66-67 | A hint keyword in any letter case is handled by the hint protocol with its lower-cased form |
| ChatterProps.UnknownCommandIgnored | chatter.py:272-273 | A command outside the eighteen known names is silently ignored |
| Chatter.HandleCommand | chatter.py:98-273 | No command touches the hint counter; only `printeval` and `quiet` change the state; unknown commands do nothing; all replies go to the asking room |
| Chatter.Reply | chatter.py:101-273 | The stateless commands answer only known names, and only in the asking room |
| Chatter.HintNumber | chatter.py:297-307 | Each keyword's number is its 1-based position in the keyword order, between 1 and 7 |
| Chatter.HandleHint | chatter.py:275-338 | A hint request sends exactly one reply, to the asking room; it never touches the subscriptions; the counter stays or advances by one to at most 7 |
| ChatterProps.HintAcceptance | chatter.py:307-335 | Once the gates pass, a request is refused exactly when 7 hints were given or it is not the next number; the counter advances exactly when the request is in order, the engine answers and the send succeeds, and then the reply names that hint |
| ChatterProps.InOrderRepliesNotRefused | chatter.py:323-338 | The answers to an in-order request, the hint and "Hint unavailable.", are never refusals |
| ChatterProps.HintFailure | chatter.py:323-338 | An in-order request whose engine call or send fails yields only "Hint unavailable." and leaves the state unchanged |
| ChatterProps.InnerHintsOverUnreachable | chatter.py:309-321 | The inner "hints are over" branch is dead: dropping it gives the same handler on every input |
| ChatterProps.GateOrder | chatter.py:276-295 | Each gate's reply is given exactly when its own test fails and all earlier tests passed, and no reply exactly when all four pass |
| ChatterProps.GateStopsHints | chatter.py:218-242 | A failing gate sends its reply and changes nothing, for hint keywords and `!hint` alike; with all gates passing `!hint` sends the instructions |
| ChatterProps.RunKeepsCounter | chatter.py:309-335 | Over any sequence of chat lines the hint counter stays within 0..7 and never decreases |
| ChatterProps.StartIsValid | chatter.py:40-41 | A new assistant has given no hints and has no subscriptions |
| Chatter.CleanText | chatter.py:354-355 | The echoed engine message has collapsed whitespace and contains no "Engine", and keeps every word of the renamed message, in order |
| Chatter.CleanTextKeepsClean | chatter.py:354-355 | A message that is already collapsed and names no "Engine" is echoed unchanged |
| Chatter.CleanTextRenames | chatter.py:354 | A message that starts with "Engine" and holds no other is echoed as "Evaluation" followed by the rest, collapsed |
| Chatter.CleanTextExample | chatter.py:354-355 | `Engine:  +0.5` is echoed as `Evaluation: +0.5` |
| Chatter.LastMessage | chatter.py:353-360 | The echo goes to the given room and is the cleaned engine message; only in the spectator room, and only when the PV has at least two moves, is the PV appended to it |
| Chatter.EvalTextClean | chatter.py:354-355 | Renaming "Engine" and collapsing whitespace leaves collapsed text with no "Engine" in it |
| ChatterProps.EvalEchoShape | chatter.py:353-360 | Every echo is the cleaned engine message, which has collapsed whitespace and no "Engine". In the spectator room with a PV of two or more moves, it continues with the PV header and the rendering of the longest prefix of the later PV moves that fits in 140 characters |
| Chatter.PrintEval | chatter.py:69-74 | Without increment and under 30 seconds nothing is sent; otherwise each subscribed room gets one echo, as many echoes as rooms |
| ChatterProps.EchoReachesEachRoomOnce | chatter.py:69-74 | An active periodic echo reaches exactly the subscribed rooms, each one once |
| ChatterProps.PrintEvalCases | chatter.py:126-138 | `!printeval` in a short game without increment answers once and subscribes nothing; an already subscribed room gets nothing; otherwise the room is subscribed and gets the stop instructions and then the echo |
| ChatterProps.QuietUnsubscribesOneRoom | chatter.py:139-140 | `!quiet` sends nothing and removes exactly the asking room from the subscriptions |
| ChatterProps.PvReplies | chatter.py:141-148 | `!pv` is silent in the player room; elsewhere it sends one reply, which is "No PV available." exactly when the PV has fewer than two moves |
| ChatterProps.ResourceReplies | chatter.py:153-172 | `!book` and `!egtb` announce books or tablebases in use exactly when some are configured |
| ChatterProps.MaterialIsValueDifference | chatter.py:174-186 | The material advantage is White's army value (1, 3, 3, 5, 9) minus Black's, so swapping the colours negates it |
| ChatterProps.PhaseOrder | chatter.py:188-194 | The phase is Opening exactly above 20 pieces and Endgame exactly at 10 or fewer, and more pieces never mean a later phase |
| Chatter.Shorten | chatter.py:212-213 | A reply never exceeds 140 characters; a short one is kept and a long one becomes its first 137 characters and "..." |
| ChatterProps.HelpFits | chatter.py:205-217 | The help reply is one message of at most 140 characters; the player room's list never offers `!pv`, and the spectators' full list does |
| ChatterProps.PlayerHelpAvoidsPv | chatter.py:207-213 | The shortened player help text contains no `!pv` |
| ChatterProps.SpectatorHelpListsPv | chatter.py:209-213 | The shortened spectator help text still contains `!pv` |
| ChatterProps.ShortHelpAvoidsPv | chatter.py:215-217 | The fallback command list contains no `!pv` |
| ChatterProps.Verdict | chatter.py:247-262 | The verdict says winning exactly for a mate for the bot or more than half a pawn ahead, and losing exactly for a mate against it or more than half a pawn behind |
| ChatterProps.GameVerdict | chatter.py:245-266 | `!game` reports the analysing notice before any score and otherwise the verdict on the latest score |
| ChatterProps.OpeningReplies | chatter.py:112-125 | `!opening` answers once; outside standard chess with the fixed notice, before any move with the starting position, and with an unknown opening when no key matches |
| ChatterProps.PingReplies | chatter.py:340-351 | `!ping` answers once, reporting a measurement exactly when the round trip and the send succeeded |
| Chatter.Greetings | chatter.py:76-81 | At most two greetings are sent, none of them empty |
| ChatterProps.GreetingRooms | chatter.py:76-81 | Each room is greeted exactly when its greeting is configured, with that text, the player room first |
| Chatter.Goodbyes | chatter.py:83-91 | Nothing is sent while the game can still be aborted; otherwise at most two non-empty goodbyes |
| ChatterProps.GoodbyeRooms | chatter.py:83-91 | Goodbyes reach each room exactly when configured, the player room first, and no room while the game is abortable |
| ChatterProps.BothRooms | chatter.py:87-91 | The two-room sender addresses a room exactly when its text is non-empty, with that text, player first |
| Chatter.AbortionMessage | chatter.py:93-96 | The abortion notice is one message to the player room |
| Pv.PushUnpushInverse | chatter.py:421-425 | Taking back a move undoes playing it and the other way round. So on the bot's turn, taking back the opponent's last move restores the position right after the bot's own move, where the shown PV begins |
| Pv.Fit | chatter.py:432-442 | The loop only appends to its start text, and whatever it appends stays within 140 characters |
| Pv.FitSpec | chatter.py:432-442 | The loop yields the full rendering of exactly the longest prefix of moves that fits in 140 characters, stopping at the first move that overflows: never a partial move, and no later move |
| Pv.AppendPv | chatter.py:414-442 | Fewer than two PV moves leave the message unchanged; otherwise the result starts with the message and the header and exceeds 140 characters only when it is the header alone |
| Pv.AppendPvShape | chatter.py:414-442 | The PV text is the header plus the full rendering of the longest prefix of the shown moves (all but the first) that fits |
| Pv.NoPvIffShort | chatter.py:145-146 | The PV text on its own is empty exactly when the PV has fewer than two moves |
| Openings.ParseLine | openings_db.py:45-91 | Skipped lines and lines without a colon give nothing; any entry found is well formed, with name and move text taken from the line |
| Openings.Contribution | openings_db.py:45-91 | A line adds at most one well-formed entry, and a skipped line adds none |
| Openings.ParseCorpus | openings_db.py:39-91 | The parsed corpus has at most one entry per line of the file |
| Openings.MovesHead | openings_db.py:60-61 | The head of patterns 1 and 2 ends at the first colon, and the text before it is move text at least two characters long |
| Openings.FirstTrailingGroup | openings_db.py:60 | The trailing `(…)` group found is the leftmost from which `\(([^)]+)\)$` matches |
| Openings.Pattern1 | openings_db.py:60 | A pattern-1 match yields move text and a name from the line, the name ending before a trailing parenthetical |
| Openings.Pattern2 | openings_db.py:61 | A pattern-2 match yields move text and a name from the line |
| Openings.Pattern3At | openings_db.py:62 | Pattern 3 tried at one colon yields move text and a name from the line |
| Openings.Pattern4At | openings_db.py:63 | Pattern 4 tried at one colon yields move text and a name from the line |
| Openings.NameFirst | openings_db.py:62-63 | Trying the colons from left to right, the first match yields move text and a name from the line |
| Openings.Pattern3 | openings_db.py:62 | A pattern-3 match yields move text and a name from the line |
| Openings.Pattern4 | openings_db.py:63 | A pattern-4 match yields move text and a name from the line |
| Openings.Pattern4Reads | openings_db.py:62-63 | When the first colon is followed by a digit 1-9 and move characters to the end of the line, pattern 3 fails and pattern 4 reads the text before the colon as the name and the text after it as the moves |
| Openings.Pattern3Reads | openings_db.py:62 | When the first colon is followed by a digit 1-9 and move characters up to a trailing parenthetical, pattern 3 reads the name before the colon and the moves up to the parenthetical |
| Openings.NameFirstCascade | openings_db.py:73-84 | A line that does not start with a digit 1-9 is decided by pattern 3, or failing that pattern 4 |
| Openings.Cascade | openings_db.py:65-84 | Whichever pattern wins, the groups are move text and a name taken from the line |
| Openings.GroupText | openings_db.py:74-84 | A stripped group is a piece of the line |
| Openings.Normalize | openings_db.py:87-88 | The key has collapsed whitespace and no move number left in it |
| Openings.StripMoveNumbersClean | openings_db.py:87 | Removing `\d+\.` leaves no digit followed by a dot |
| Openings.StripMoveNumbersAppend | openings_db.py:87 | The removal works piecewise across a boundary that does not follow a digit |
| Openings.CollapseKeepsNoMoveNumber | openings_db.py:87-88 | Collapsing whitespace creates no move number |
| Openings.NormalizeToken | openings_db.py:87-88 | A numbered or bare move followed by more move text puts the move, then a space, at the front of the key |
| Openings.BestIndex | openings_db.py:116-125 | The scan's choice is a matching entry with the longest key among those scanned and strictly longer than every earlier match; no choice means no non-empty key matches |
| Openings.Resolve | openings_db.py:111-127 | No moves give the starting position; no matching key gives an unknown opening; otherwise the name and line of the best entry |
| FallbackTable.NormalizeSpell | openings_db.py:87-88 | Normalising move text made of numbered or bare moves gives the moves one space apart, never empty |
| FallbackTable.FallbackWellFormed | openings_db.py:12-23 | Every fallback entry's key is the normalised form of its own move text, as the parser would have stored it |
| FallbackTable.FallbackEntries | openings_db.py:12-23 | The table has ten entries; the two Italian entries come first; no key is longer than 21 characters |
| Corpus.Load | openings_db.py:6-109 | A missing or unreadable file gives the ten fallback entries, a readable one its parsed entries; either way every entry is well formed |
| Corpus.ParseCorpusAppend | openings_db.py:39-91 | Entries keep file order: two texts joined by a newline parse to the first's entries followed by the second's |
| Corpus.SkippedLinesYieldNothing | openings_db.py:45-56 | A file whose every line is blank, a header, double-spaced or colon-free yields no entry |
| Corpus.MovesFirstWins | openings_db.py:73-78 | When a line starts with move text and a colon followed by more text, its moves come from before the first colon, whatever patterns 3 and 4 say |
| Corpus.NameBeforeGroup | openings_db.py:60-75 | Pattern 1 is tried before pattern 2: when a line starts with move text and a colon and a parenthetical closes the line after the name's first character, the name is the stripped text up to the first such parenthetical, which is dropped |
| Corpus.NameWithoutGroup | openings_db.py:61-78 | When no parenthetical closes the line after the colon, pattern 2 reads the whole stripped rest of the line as the name |
| Corpus.ParsePlainLine | openings_db.py:45-91 | Every line `moves: name` with well-formed move text and a name that has no trailing parenthetical is stored as the entry with key the cleaned moves, that name and the move text |
| Corpus.ParseLineWithGroup | openings_db.py:45-91 | A line `moves: name (note)` with well-formed move text is stored with key the cleaned moves, that name and the move text, and the note is dropped. This holds when every `(` in the name is closed within it and the note holds no `)` |
| Corpus.ParseNameFirstLine | openings_db.py:45-91 | A line `name: moves`, with a name that has no colon, does not start with a digit 1-9 and is no index header, is stored by pattern 4 with key the cleaned moves, that name and the move text |
| Corpus.ParseNameFirstWithCode | openings_db.py:45-91 | The same line followed by ` (code)`, where the code holds no `)`, is stored by pattern 3 as the same entry: the code is dropped |
| Openings.ParseLineStores | openings_db.py:86-91 | A kept line whose cascade finds non-empty move text and name, with moves that do not clean to nothing, is stored as exactly that entry |
| Corpus.SicilianLine | openings_db.py:45-91 | `1.e4 c5: Sicilian Defense` gives the entry with key `e4 c5`, name `Sicilian Defense` and line `1.e4 c5` |
| Corpus.BestIsUnique | openings_db.py:120-125 | At most one entry satisfies the longest-key, first-on-tie rule |
| Corpus.GiuocoPiano | openings_db.py:111-127 | On the fallback table the Giuoco Piano moves resolve to the Giuoco Piano entry, not to the shorter Italian Game entry that also matches |
| Spacing.CollapseIsCollapsed | chatter.py:355 | Collapsing whitespace yields text with no outer whitespace and single plain spaces between words |
| Spacing.CollapseIdempotent | chatter.py:355 | Collapsing already collapsed text changes nothing |
| Spacing.CollapseAddsNoText | chatter.py:355 | A whitespace-free text found in the collapsed text was already in the original |
| Strings.EngineReplacedEverywhere | chatter.py:354 | After renaming "Engine" to "Evaluation" no "Engine" is left |
| Strings.ReplaceAbsent | chatter.py:354 | `str.replace` leaves text without the pattern unchanged |
| Spacing.CollapseKeepsWords | chatter.py:355 | Collapsing keeps the words of the text, in order, and changes only the whitespace between them |
| Strings.StripShape | openings_db.py:46 | `strip` keeps one slice of the text and cuts only whitespace before and after it |
| Strings.SplitOn | openings_db.py:39 | The pieces contain no separator, and joining them with it gives the text back |
| Strings.SplitOnAppend | openings_db.py:39 | Splitting two texts joined by the separator splits each of them |
| Numerals.NatToStringRoundTrip | chatter.py:320 | The decimal text of a number reads back as the same number |
| Chars.Lower | chatter.py:99 | Lower-casing keeps the length and maps each character separately |

## Left out

- I/O is not modelled: sending to the server, the console echo of chat lines (chatter.py:46-57), reading `Openings.txt` and its encodings (openings_db.py:26-37), and the load statistics printed at the end. A send is a `Message` in the result. File reading is the `Source` the corpus loader receives: missing, unreadable, or decoded text.
- Sends outside a `try` block are taken to be delivered. A failure there would propagate out of the handler, and the handler's callers are not part of this model.
- Hardware and version probes are not modelled (`_get_cpu`, `_get_ram`, `_get_draw_message`, `_get_name_message`, chatter.py:362-402). Neither is placeholder formatting (`_format_message`, chatter.py:404-412). Their finished texts are fields of `Setup`.
- Chess rules are not modelled: SAN generation, the move stack replayed for `!opening`, and piece counting. The played SAN moves, the PV moves as SAN, the piece counts and the side to move with the move number arrive in `Game`.
- Chatter.VerdictText: the pawn value is printed with one decimal by float formatting; the model takes that text as a field of the score instead of computing it.
- Timing is not modelled. `!ping` receives the measured milliseconds as a value. Asynchrony and concurrency are absent, because each handler runs to completion.
- Chars.IsWordChar: `\w` and `\d` are modelled on ASCII only. Python also counts non-ASCII letters and digits.
- Pv.PvBoard: on the bot's turn, taking back the opponent's last move raises an error in Python when the move stack is empty. The model takes back a move unconditionally.
- Chars.Lower: lower-cases only the ASCII capitals and U+212A KELVIN SIGN, one character for one. Python's `str.lower()` lowers all of Unicode, and turns U+0130 into two characters. The result is used only in equality tests against the ASCII command and hint names (chatter.py:60, 66, 99, 307), and there the two answer alike.
- Chatter.PrintEval: Python visits the subscribed rooms in the set's own order; the model takes that order as a parameter.
- `!stats` text formatting is modelled as a function (`Chatter.StatsText`), but only its material score and phase have lemmas.
- The logo and the configuration tests are not modelled: `logo.py` and `test_config.py` are not part of this model.

Behaviours of the code worth noting, which the model follows:

- Resolving matches keys with a plain prefix test on the joined moves (openings_db.py:121), not on whole moves: a key `e4 c` would match `e4 c5`.
- Lines from the `lichess` account are dropped in every room, not only the player room (chatter.py:46-49).
- The index-header filter skips only `A ` to `E ` (openings_db.py:52), not every capital letter followed by a space.
- When even the first PV move overflows the budget, the result is the message plus the `PV:` header, not the message unchanged (chatter.py:432). So a long incoming message can make the result exceed 140 characters (Pv.AppendPv).
- `!pv` in the player room and `!printeval` from an already subscribed room send nothing (chatter.py:141-143, 131-132).
