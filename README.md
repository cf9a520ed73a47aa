# Translation Manzai — a verified model of the game's core

The game is a Milk Boy style manzai (a two-person comedy routine). The
player, on the 駒場 side, hints at a hidden topic. A language model on the
内海 side guesses and replies in Kansai dialect. At the end the server
analyses which of sixteen *translation strategies* each hint used, and
writes a finished script. This project models the deterministic core of
that program and proves properties of it:

- `client.dfy` (module `Client`) models the browser side:
  - the one game-state record, as the class `Client.Game`, with one method
    per event: choosing a difficulty, the topic arriving or failing,
    submitting a hint, the reply arriving or failing, the two delayed
    follow-up messages, the delayed move to the report, the end-game
    button, the report arriving or failing, and replay;
  - the pure helpers the screens use: the last message of a speaker, the
    difficulty label, and the badge colour of a result item.

  Each `await` and each `setTimeout` callback is its own step. The
  callbacks scheduled but not yet run are three fields of the class:
  `topicRequests`, `turn` and `reportRequests`. Each step requires its
  callback to be pending, so the model also covers other events running
  in between. The class invariant `Valid` says four things:
  - the input stays locked while a turn's callbacks are pending;
  - every counted turn put a player's hint into the history;
  - the continuing path is only taken below the ten-turn limit;
  - the turn count exceeds ten by at most the number of failed replies in
    the current game. While the game screen accepts hints, it stays below
    ten plus that number. The failed replies are counted by a ghost
    field, `failedReplies`.
- `strategies.dfy` (module `Strategies`) holds the sixteen-card catalogue,
  transcribed entry by entry, and its two lookups: by id, and by name.
  Each lookup takes the table it searches as a parameter, so its contract
  holds for any table. The program always searches `Catalogue`, and the
  lemmas about the catalogue pass it.
- `server.dfy` (module `Server`) holds the server's deterministic string
  work:
  - the correctness rule and the reply body;
  - stripping Markdown code fences from model output;
  - the greedy `{…}` extraction of a JSON object;
  - the numbered hint list;
  - the speaker-labelled transcript;
  - the level label and description of the topic prompt;
  - the strategy table that the server sends in its analysis prompt.
- `agreement.dfy` (module `Agreement`) relates the client's catalogue to
  the server's copy of the table.
- `builtins.dfy` (module `Builtins`) models the JavaScript string and array
  built-ins the core calls: `trim` with the ECMAScript whitespace set,
  ASCII `toLowerCase`, `includes`, `find`, `join`, and number-to-decimal
  conversion. It also holds two pieces that the program does not call:
  - the first and last position of a character, which model where the
    greedy `{…}` match of the JSON extraction starts and ends;
  - `split` on one character, the reader-side inverse of `join`, which the
    read-back lemmas use.
- `wrappers.dfy` (module `Wrappers`) holds `Option` and `Result`.

Everything the language model produces is a parameter of the step that
receives it: the topic, the guess, the two reply lines, the analysis and
the script.

How the two sides fit together shows one more thing. The server numbers
*every* `user` entry of the history as a hint turn
(`Client.HintListCountsUserEntries`). The client stores each automatic
denial (`でも、オカンが言うには「…」ではないらしいねん`) as a `user` entry, so
after the first wrong guess the numbers in the analysis prompt no longer
match the player's turns. `Client.HintNumberingAfterWrongGuess` plays
one wrong-guess turn and a second hint, then ends the game. The report
request it sends is numbered as three hints, while the game has counted
two turns. The model is faithful to this behaviour. It is not listed as a
finding, because the source does not show which numbering the authors
intended.

The ten-turn limit is not a hard cap either. A failed reply unlocks the
input but keeps the turn it counted. So after nine wrong-guess turns, a
tenth hint whose reply fails lets an eleventh hint through, and the
request for it carries turn 11 (`Client.Game.PassTurnLimit`). What does
hold is the bound in `Valid`: ten plus the failed replies. This is not
listed as a finding either, because the source does not show whether a
failed reply should use up a turn.

## Model

| member | source | states |
|---|---|---|
| Client.Game.constructor | src/main.ts:32-42 | the record starts on the intro screen: no difficulty, empty topic, category, history and script, turn 0, input unlocked, no analysis; nothing is pending and no reply has failed |
| Client.Game.ChooseDifficulty | src/main.ts:266-271 | on the intro screen, a level stores the difficulty, switches to the loading screen and adds one pending topic request; nothing else changes |
| Client.Game.TopicLoaded | src/main.ts:273-279 | the arriving topic and category are stored, the history is emptied, the turn count is reset to 0 and the game screen is shown; nothing else changes, and the failed replies of the new game start at 0 |
| Client.Game.TopicLoadFailed | src/main.ts:280-285 | a failed topic request returns to the intro screen and changes nothing else |
| Client.Game.SubmitHint | src/main.ts:294-304 | no request and no change at all iff the trimmed hint is empty or the input is locked; otherwise the input locks, the turn count goes up by exactly one, exactly one `user` entry holding the trimmed hint is appended, and the reply request carries the topic, the hint and the updated history and count |
| Client.Game.ReplyReceived | src/main.ts:304-310 | exactly one `ai` entry with the first reply line is appended; the finishing path is scheduled iff the reply is correct or the turn count is at least 10, otherwise the denial of the guess is scheduled; the input stays locked |
| Client.Game.ReplyFailed | src/main.ts:336-339 | a failed reply unlocks the input; the hint already appended and the turn already counted are kept, and one more failed reply is counted |
| Client.Game.ShowDenial | src/main.ts:323-326 | a `user` entry denying the guess is appended, and the retraction is scheduled; the input stays locked |
| Client.Game.ShowRetraction | src/main.ts:329-333 | an `ai` entry with the second reply line is appended, and only then is the input unlocked; nothing remains pending for the turn |
| Client.Game.StartFinishing | src/main.ts:312-315 | after a correct reply or the last turn: the loading screen and one pending report request, which carries the topic and the whole history as they are; the input stays locked |
| Client.Game.StartFinishingCorrected | src/main.ts:312-315 | the same step, with the input unlocked as the turn ends |
| Client.Game.EndGame | src/main.ts:352-360 | refused, with no change and no request, iff the history has fewer than two entries; otherwise the loading screen and one pending report request, which carries the topic and the whole history as they are |
| Client.Game.ReportReceived | src/main.ts:315-317 | with both the analysis and the script in, these are stored and the result screen shows |
| Client.Game.ReportFailed | src/main.ts:74-97 | when one report request fails, whatever did arrive is stored, and the screen stays where it is |
| Client.Game.Replay | src/main.ts:377-386 | every field returns to its initial value except the input lock, which keeps its value; pending callbacks are untouched; the failed replies start again at 0 |
| Client.Game.PlayContinuingTurn | src/main.ts:294-334 | a whole wrong-guess turn adds exactly four entries, in the order hint, affirming line, denial, retraction, and counts one turn; every other field, the input lock and the pending callbacks end as they began |
| Client.Game.PassTurnLimit | src/main.ts:294-298 | at turn nine, a tenth hint whose reply fails (src/main.ts:336-339) is followed by an eleventh hint that is accepted and sent as turn 11 |
| Client.HintNumberingAfterWrongGuess | src/main.ts:294-334 | one wrong-guess turn, a second hint and the end-game button: the game has counted two turns, while the report request it returns carries the topic and a history the server numbers as three hints, the denial being hint 2 (server/index.ts:148-150) |
| Client.HintLinesOfAppend | server/index.ts:148-150 | one more history entry adds one numbered line iff it is the player's, numbered after the earlier `user` entries |
| Client.WrongTurnNumbered | server/index.ts:148-150 | the history of one wrong-guess turn is numbered as two hints, the denial being the second, and holds two `user` entries |
| Client.DenialNumberedAsHint | server/index.ts:148-150 | the history of a wrong-guess turn and a second hint, as the server numbers it: the hint, the denial, then the second hint, as lines 1, 2 and 3 |
| Client.ReplayAfterWinAsWritten | src/main.ts:310-318 | two wrong-guess turns, then a third hint whose reply the server judges correct; after the report, replay and a new choice of level, no request is sent for any hint of the next game |
| Client.ReplayAfterWinCorrected | src/main.ts:310-318 | with the corrected finishing step, the same run sends a request exactly when the next hint is not blank, and it is the first turn of the new game: the new topic, the trimmed hint, a history of that one hint, turn 1 |
| Client.LastContent | src/main.ts:156-157 | the content of the last entry spoken by the given side, or the empty string when that side has not spoken |
| Client.DifficultyLabel | src/main.ts:159 | 初級 iff easy, 中級 iff normal, 上級 iff hard or no difficulty |
| Client.DifficultyLabelMatchesServer | src/main.ts:159 | for every chosen level, the header label is the label the server puts into the topic prompt |
| Client.BadgeColor | src/main.ts:237-238 | the colour of the first card matching the item by id or Japanese name, and blue when no card matches |
| Client.BadgeColorOfCard | src/main.ts:237-238 | an item naming a card by its id and its name gets that card's colour: blue for the first eight cards, red for the rest |
| Client.DenialNamesGuess | src/main.ts:324 | a denial message reads back as exactly the guess it rejects |
| Client.ToMessages | src/main.ts:64-69 | the history the server receives has one message per entry, with role `user` exactly on the player's entries and the same contents |
| Client.HintListCountsUserEntries | server/index.ts:148-151 | the server's hint list has one line for every `user` entry the client sends, denials included |
| Strategies.CatalogueShape | src/utils/strategies.ts:12-159 | the table has sixteen cards: the first eight blue, the last eight red |
| Strategies.IdsDistinct | src/utils/strategies.ts:12-159 | no two cards share an id |
| Strategies.NamesDistinct | src/utils/strategies.ts:12-159 | no two cards share a Japanese name |
| Strategies.LoweredEnglishNamesDistinct | src/utils/strategies.ts:12-159 | no two English names are equal once lower-cased |
| Strategies.EnglishNamesStartAscii | src/utils/strategies.ts:12-159 | every English name starts with an upper-case ASCII letter |
| Strategies.EnglishNamesTellApart | src/utils/strategies.ts:12-159 | any two English names differ in length or in their second letter, which is always lower-case |
| Strategies.JapaneseNamesStartOutsideAscii | src/utils/strategies.ts:12-159 | every Japanese name starts with a character outside ASCII |
| Strategies.LowerSeparatesAlphabets | src/utils/strategies.ts:166 | a name that starts with an ASCII character and one that starts outside ASCII never compare equal once lower-cased |
| Strategies.GetStrategyById | src/utils/strategies.ts:161-163 | none iff no card of the table has the id; a card returned carries the id, is in the table, and no earlier card carries it |
| Strategies.GetStrategyByIdOfCard | src/utils/strategies.ts:161-163 | looking a card of the catalogue up by its own id gives that card |
| Strategies.GetStrategyByName | src/utils/strategies.ts:165-167 | none iff no card of the table matches by exact Japanese name or case-insensitive English name; a card returned matches, is in the table, and no earlier card matches |
| Strategies.GetStrategyByNameOfCard | src/utils/strategies.ts:165-167 | looking a card up by its Japanese name gives that card |
| Strategies.GetStrategyByEnglishNameOfCard | src/utils/strategies.ts:165-167 | looking a card up by its English name, in any ASCII letter case, gives that card |
| Agreement.CopiesAgree | server/index.ts:129-146 | the server's table and the client's catalogue list the same sixteen ids, Japanese names and English names, in the same order |
| Agreement.PromptEntryFindsCard | server/index.ts:129-146 | an id or Japanese name from the server's table finds, on the client, the card in the same position |
| Server.IsCorrect | server/index.ts:115 | correct iff the reply contains やないかい and the turn count is at least 3 |
| Server.Respond | server/index.ts:117 | the body carries the reply unchanged and the correctness verdict; the suggested answer is present iff the verdict is correct, and it is then the topic |
| Server.FenceMatch | server/index.ts:62 | the fence matched at a position, with alternatives tried in regex order: it only consumes fence characters; a match not starting with a backtick is a line break before three backticks |
| Server.StripFences | server/index.ts:62 | stripping never lengthens the text, only removes characters, and keeps every character that cannot be part of a fence |
| Server.StripKeeps | server/index.ts:62 | a character that cannot start a fence is kept, and stripping carries on after it |
| Server.StripWithoutBackticks | server/index.ts:62 | text without backticks is left unchanged |
| Server.StripLoneClosingFence | server/index.ts:62 | a closing fence on its own strips to nothing |
| Server.StripBeforeTail | server/index.ts:62 | backtick-free text before a tail that does not start with a backtick is kept, and the tail is stripped on its own |
| Server.StripClosingFence | server/index.ts:62 | a backtick-free body followed by a closing fence strips to the body |
| Server.StripJsonCodeBlock | server/index.ts:62 | a `json` code block around a backtick-free body strips to the body |
| Server.ExtractJson | server/index.ts:186-192 | succeeds iff some `{` comes before some `}`; the text extracted runs from the first `{` to the last `}`, both included; otherwise the error is `Invalid JSON response` |
| Server.UserPositions | server/index.ts:148-149 | the positions of exactly the `user` entries, in increasing order |
| Server.UserContents | server/index.ts:148-149 | the contents of the `user` entries, in history order |
| Server.HintLines | server/index.ts:148-150 | one line per `user` entry, in history order, numbered consecutively from 1 as `ターン<n>: <hint>` |
| Server.HintLinesAppend | server/index.ts:148-150 | appending a message adds one line iff it is a `user` entry, numbered one past the earlier lines |
| Server.HintLineSingle | server/index.ts:150 | a hint without a line break gives a numbered line without one |
| Server.UserHintsReadBack | server/index.ts:148-151 | splitting the hint list at line breaks gives back the numbered lines, when no hint holds a line break |
| Server.Speaker | server/index.ts:84 | 駒場 iff the role is `user`, 内海 for every other role |
| Server.TranscriptLineReadBack | server/index.ts:84 | a transcript line reads back as its speaker side and its content |
| Server.TranscriptLines | server/index.ts:209 | one line per history entry, each reading back as that entry's side and content |
| Server.TranscriptReadBack | server/index.ts:84 | when no content holds a line break, the transcript splits into one line per entry, each reading back as that entry |
| Server.StrategyLineSingle | server/index.ts:161 | an entry whose fields hold no line break gives a strategy line without one |
| Server.StrategyListingReadBack | server/index.ts:161 | the strategy list of a non-empty table of single-line entries splits back at line breaks into one `- <name>（<nameEn>）: <description>` line per entry, in order |
| Server.LevelLabel | server/index.ts:47 | 初級 iff `easy`, 中級 iff `normal`, 上級 for every other level |
| Server.LevelDescription | server/index.ts:48 | a known level gets its own description; any other level gets the `normal` one; the result is never empty |
| Builtins.TrimKeepsCore | src/main.ts:295 | `trim` leaves a slice of the input with only whitespace outside it and none at either end; it is empty iff the input is all whitespace |
| Builtins.TrimStartDrops | src/main.ts:295 | trimming the front leaves a suffix of the input; only whitespace is dropped, and the result does not start with whitespace |
| Builtins.TrimEndDrops | src/main.ts:295 | trimming the back leaves a prefix of the input; only whitespace is dropped, and the result does not end with whitespace |
| Builtins.AsciiLower | src/utils/strategies.ts:166 | same length; each character is kept or is an upper-case ASCII letter lowered; no upper-case ASCII letter remains; ASCII text stays ASCII and only ASCII text lowers to ASCII |
| Builtins.Includes | server/index.ts:115 | true iff the substring occurs at some position |
| Builtins.Find | src/utils/strategies.ts:162 | none iff no element satisfies the test; otherwise the element at the first position where it holds |
| Builtins.FindAtFirstMatch | src/utils/strategies.ts:162 | when position i is the first match, `find` returns the element at i |
| Builtins.IndexOfChar | server/index.ts:186 | none iff the character is absent; otherwise its first position |
| Builtins.LastIndexOfChar | server/index.ts:186 | none iff the character is absent; otherwise its last position |
| Builtins.Split | server/index.ts:151 | at least one piece, no piece holds the separator, and the pieces joined by the separator give the text back; the reader-side inverse of the join at server/index.ts:151 |
| Builtins.SplitJoin | server/index.ts:151 | joining pieces that lack the separator, then splitting at it, gives the pieces back |
| Builtins.NatToDecimal | server/index.ts:150 | a non-empty string of decimal digits without a leading zero |
| Builtins.DecimalRoundTrip | server/index.ts:150 | the decimal text of a number reads back as that number |

## Left out

- HTML rendering, `innerHTML`, listener wiring, `alert`, `window.print` and `console` are user-interface plumbing. The screens are modelled only through the `screen` field. Each event method requires the screen on which its button exists.
- `fetch` and the language-model calls are not modelled. What they return is a parameter of the step that receives it.
- The `setTimeout` delays and the join of the analysis and script requests are each one atomic step. Delays and concurrency within a step are not modelled.
- `Client.Game.ReportFailed`: the analysis and the script are stored as they arrive and the join fails as a whole. The model does not capture which request finished first.
- HTTP failure statuses are not modelled. The server's error bodies are ordinary JSON, so the client's `catch` paths run only on network or parse errors; the model offers those paths as explicit failure steps.
- Express setup, CORS, static file serving, the catch-all route and the password gate are server plumbing and are not modelled.
- `JSON.parse` is not modelled. The model stops at the text that would be parsed: the fence-stripped topic reply and the extracted analysis object.
- The server's `trim` of the model's text is not modelled separately. It is the same `Builtins.Trim`.
- `Builtins.AsciiLower`: lower-cases ASCII letters only, not the full Unicode mapping of `toLowerCase`. Every English name in the catalogue is written in ASCII letters and spaces. The one non-ASCII character whose lower case is an ASCII letter is the Kelvin sign U+212A, which lowers to `k`. No English name contains `k`, so no name could match through it.
- Strings are sequences of Unicode scalar values, not UTF-16 code units. Hints and model output may hold characters outside the Basic Multilingual Plane, such as emoji. Every character the modelled code looks for lies inside it: whitespace, the fence characters, the braces, the catch-phrase and the line break. No modelled result exposes a length or an index of such a text.
- A level string that names a property of a JavaScript object's prototype (such as `constructor`) is not modelled. The description table is a plain map.
- The client reads `guess`, `responseV1` and `responseV2` from the reply, while the server sends `response`, `isCorrect` and `suggestedAnswer`. The model keeps both sides as written and does not reconcile the field names.
- The server's strategy table phrases each description differently from the client's catalogue. Only ids and names are compared (`Agreement.CopiesAgree`).
- `Server.StrategyListingReadBack` is proved for any table of single-line entries. That the server's own sixteen entries hold no line break is plain from the table, but it is not proved: checking the literal strings costs the solver more than its budget. `Server.Transcript` and `Server.UserHints` are stated through the read-back lemmas above.
- The prompt texts themselves are not modelled. They are inputs to the language model, and only the pieces computed from data are modelled.
- `turnCount` is a natural number. The source's JavaScript number only ever starts at 0 and goes up by one, so it stays an exact integer for any game a player could play.

## Findings

| source | as written | input that shows it | evidently intended | confidence | as-written member | corrected member |
|---|---|---|---|---|---|---|
| src/main.ts:310-318 | the finishing path (a correct reply, or the tenth turn) never sets `isProcessing` back to false, and replay (src/main.ts:377-386) does not reset it either | choose any level, play two wrong-guess turns, submit a third hint, receive a reply the server judges correct (it holds やないかい and the turn count sent is 3), let the report arrive, press replay, choose a level again, submit a non-blank hint: the hint is ignored, and so is every later one until the page reloads | the input is unlocked once the turn's chain ends, as it is on the continuing path (src/main.ts:331) | not executed | Client.ReplayAfterWinAsWritten | Client.ReplayAfterWinCorrected |
