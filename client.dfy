/** The browser side of the game: the single game-state record, the events
    that drive it (choosing a difficulty, the topic arriving, submitting a
    hint, the reply arriving, the two delayed follow-up messages, the delayed
    move to the report, the end-game button, the report arriving, the replay
    button), and the pure helpers the game and result screens use.

    Each `await` and each `setTimeout` callback of the source becomes its own
    step method. The callbacks that are scheduled but have not run yet are
    kept in three fields (`topicRequests`, `turn`, `reportRequests`), since
    the browser may run other events in between; each step requires that its
    callback is pending. The network, the language model and the timers are
    outside the model: what they deliver is a parameter of the step. */
module Client {
  import opened Wrappers
  import opened Builtins
  import Strategies
  import Server

  datatype Screen = IntroScreen | GameScreen | LoadingScreen | ResultScreen

  datatype Difficulty = Easy | Normal | Hard

  datatype Role = User | Ai

  datatype ConversationItem = ConversationItem(role: Role, content: string)

  datatype AnalysisItem = AnalysisItem(
    turn: int, userHint: string, strategy: string, strategyName: string, explanation: string)

  datatype Analysis = Analysis(analysis: seq<AnalysisItem>, summary: string)

  /** The fields of the game-state record. */
  datatype GameState = GameState(
    screen: Screen,
    difficulty: Option<Difficulty>,
    topic: string,
    category: string,
    conversationHistory: seq<ConversationItem>,
    turnCount: nat,
    isProcessing: bool,
    script: string,
    analysis: Option<Analysis>)

  /** The record as the page starts it. */
  const InitialState := GameState(IntroScreen, None, "", "", [], 0, false, "", None)

  /** The game moves to the report once a reply arrives at this turn. */
  const MaxTurns := 10

  // ---------------------------------------------------------------------
  // Wire names

  function LevelName(d: Difficulty): string {
    match d
    case Easy => "easy"
    case Normal => "normal"
    case Hard => "hard"
  }

  function RoleName(r: Role): string {
    match r
    case User => "user"
    case Ai => "ai"
  }

  /** The history as the server receives it. */
  function ToMessages(h: seq<ConversationItem>): (r: seq<Server.Message>)
    ensures |r| == |h|
    ensures forall i :: 0 <= i < |h| ==> (r[i].role == "user" <==> h[i].role == User) && r[i].content == h[i].content
  {
    seq(|h|, i requires 0 <= i < |h| => Server.Message(RoleName(h[i].role), h[i].content))
  }

  /** The number of entries of a history spoken by `role`. */
  function CountRole(h: seq<ConversationItem>, role: Role): nat
    decreases |h|
  {
    if |h| == 0 then 0
    else CountRole(h[..|h| - 1], role) + (if h[|h| - 1].role == role then 1 else 0)
  }

  lemma CountRoleAppend(h: seq<ConversationItem>, item: ConversationItem, role: Role)
    ensures CountRole(h + [item], role) == CountRole(h, role) + (if item.role == role then 1 else 0)
  {
    assert (h + [item])[..|h|] == h;
  }

  /** The server's hint list has one line for every `user` entry of the
      history, the follow-up denials included. */
  lemma {:induction false} HintListCountsUserEntries(h: seq<ConversationItem>)
    ensures |Server.HintLines(ToMessages(h))| == CountRole(h, User)
    decreases |h|
  {
    if |h| > 0 {
      var front := h[..|h| - 1];
      HintListCountsUserEntries(front);
      assert ToMessages(h)[..|h| - 1] == ToMessages(front);
    }
  }

  // ---------------------------------------------------------------------
  // View helpers

  /** The content of the last entry spoken by `role`, or the empty string
      when there is none (the `?.content || ''` fallback). */
  function LastContent(h: seq<ConversationItem>, role: Role): (r: string)
    ensures (forall i :: 0 <= i < |h| ==> h[i].role != role) ==> r == ""
    ensures forall i :: 0 <= i < |h| && h[i].role == role && (forall j :: i < j < |h| ==> h[j].role != role)
                        ==> r == h[i].content
    decreases |h|
  {
    if |h| == 0 then ""
    else if h[|h| - 1].role == role then h[|h| - 1].content
    else
      var r := LastContent(h[..|h| - 1], role);
      assert forall i :: 0 <= i < |h| - 1 ==> h[..|h| - 1][i] == h[i];
      r
  }

  /** The label of the game header: easy and normal have their own, and both
      hard and no difficulty at all show the advanced label. */
  function DifficultyLabel(d: Option<Difficulty>): (r: string)
    ensures r == Server.Beginner <==> d == Some(Easy)
    ensures r == Server.Intermediate <==> d == Some(Normal)
    ensures r == Server.Advanced <==> d == Some(Hard) || d == None
  {
    assert Server.Beginner[0] != Server.Intermediate[0] && Server.Intermediate[0] != Server.Advanced[0]
           && Server.Advanced[0] != Server.Beginner[0];
    match d
    case Some(Easy) => Server.Beginner
    case Some(Normal) => Server.Intermediate
    case _ => Server.Advanced
  }

  /** The header's label for a chosen level is the one the server puts into
      the topic prompt for that level. */
  lemma DifficultyLabelMatchesServer(d: Difficulty)
    ensures DifficultyLabel(Some(d)) == Server.LevelLabel(LevelName(d))
  {
  }

  /** The card a result item stands for: same id, or same Japanese name. */
  predicate MatchesItem(s: Strategies.Strategy, item: AnalysisItem) {
    s.id == item.strategy || s.name == item.strategyName
  }

  /** The test `find` applies to each card for a result item. */
  function ItemMatcher(item: AnalysisItem): Strategies.Strategy -> bool {
    s => MatchesItem(s, item)
  }

  /** The badge colour of a result item: the colour of the first card that
      matches it, and blue when no card does. */
  function BadgeColor(item: AnalysisItem): (c: Strategies.Color)
    ensures (forall i :: 0 <= i < |Strategies.Catalogue| ==> !MatchesItem(Strategies.Catalogue[i], item))
            ==> c == Strategies.Blue
    ensures forall i :: FirstMatch(Strategies.Catalogue, ItemMatcher(item), i) ==> c == Strategies.Catalogue[i].color
  {
    assert forall i :: FirstMatch(Strategies.Catalogue, ItemMatcher(item), i)
                       ==> Find(Strategies.Catalogue, ItemMatcher(item)) == Some(Strategies.Catalogue[i]) by {
      forall i | FirstMatch(Strategies.Catalogue, ItemMatcher(item), i)
        ensures Find(Strategies.Catalogue, ItemMatcher(item)) == Some(Strategies.Catalogue[i]) {
        FindAtFirstMatch(Strategies.Catalogue, ItemMatcher(item), i);
      }
    }
    match Find(Strategies.Catalogue, ItemMatcher(item))
    case Some(s) => s.color
    case None => Strategies.Blue
  }

  /** An item that names a card by both its id and its Japanese name gets
      that card's colour: blue for the first eight, red for the rest. */
  lemma BadgeColorOfCard(i: int, item: AnalysisItem)
    requires 0 <= i < |Strategies.Catalogue|
    requires item.strategy == Strategies.Catalogue[i].id && item.strategyName == Strategies.Catalogue[i].name
    ensures BadgeColor(item) == Strategies.Catalogue[i].color
    ensures BadgeColor(item) == Strategies.Blue <==> i < 8
  {
    Strategies.IdsDistinct();
    Strategies.NamesDistinct();
    Strategies.CatalogueShape();
    assert FirstMatch(Strategies.Catalogue, ItemMatcher(item), i);
  }

  // ---------------------------------------------------------------------
  // The follow-up denial

  const DenialPrefix := "でも、オカンが言うには「"
  const DenialSuffix := "」ではないらしいねん"

  /** What the player's side says after a wrong guess. */
  function DenialMessage(guess: string): string {
    DenialPrefix + guess + DenialSuffix
  }

  /** The guess a denial message rejects, if it is one. */
  function DeniedGuess(m: string): Option<string> {
    if |m| >= |DenialPrefix| + |DenialSuffix| && m[..|DenialPrefix|] == DenialPrefix
       && m[|m| - |DenialSuffix|..] == DenialSuffix
    then Some(m[|DenialPrefix|..|m| - |DenialSuffix|])
    else None
  }

  /** A denial names exactly the guess it rejects. */
  lemma DenialNamesGuess(guess: string)
    ensures DeniedGuess(DenialMessage(guess)) == Some(guess)
  {
    var m := DenialMessage(guess);
    assert m[..|DenialPrefix|] == DenialPrefix;
    assert m[|m| - |DenialSuffix|..] == DenialSuffix;
    assert m[|DenialPrefix|..|m| - |DenialSuffix|] == guess;
  }

  // ---------------------------------------------------------------------
  // The game

  /** Where the chain of callbacks started by an accepted hint stands. */
  datatype TurnStage =
    | NoTurn
    | AwaitingReply
    | DenialDue(guess: string, responseV2: string)
    | RetractionDue(responseV2: string)
    | FinishDue

  /** The callbacks scheduled and not yet run: topic requests in flight, the
      stage of the current turn, and report requests (analysis and script,
      joined) in flight. */
  datatype Scheduled = Scheduled(topicRequests: nat, turn: TurnStage, reportRequests: nat)

  /** What a submitted hint sends to the reply endpoint. */
  datatype ReplyRequest = ReplyRequest(
    topic: string, userHint: string, conversationHistory: seq<ConversationItem>, turnCount: nat)

  /** What the end of a game sends to both the analysis and the script
      endpoints. */
  datatype ReportRequest = ReportRequest(topic: string, conversationHistory: seq<ConversationItem>)

  class Game {
    var screen: Screen
    var difficulty: Option<Difficulty>
    var topic: string
    var category: string
    var conversationHistory: seq<ConversationItem>
    var turnCount: nat
    var isProcessing: bool
    var script: string
    var analysis: Option<Analysis>

    var topicRequests: nat
    var turn: TurnStage
    var reportRequests: nat

    /** The replies of the current game that failed. Each lets the player
        take one turn more than the limit would otherwise allow. */
    ghost var failedReplies: nat

    function State(): GameState
      reads this
    {
      GameState(screen, difficulty, topic, category, conversationHistory, turnCount, isProcessing, script, analysis)
    }

    function Pending(): Scheduled
      reads this
    {
      Scheduled(topicRequests, turn, reportRequests)
    }

    /** While a turn's callbacks are pending the input stays locked; every
        turn counted put the player's hint into the history; the continuing
        path is only ever taken below the turn limit; and the turn count
        passes the limit by at most the number of failed replies, staying
        below that bound while the game screen accepts hints. */
    ghost predicate Valid()
      reads this
    {
      && (turn != NoTurn ==> isProcessing)
      && turnCount <= CountRole(conversationHistory, User)
      && ((turn.DenialDue? || turn.RetractionDue?) ==> turnCount < MaxTurns)
      && turnCount <= MaxTurns + failedReplies
      && (!isProcessing && screen == GameScreen ==> turnCount < MaxTurns + failedReplies)
    }

    constructor ()
      ensures Valid()
      ensures State() == InitialState
      ensures Pending() == Scheduled(0, NoTurn, 0)
      ensures failedReplies == 0
    {
      screen := IntroScreen;
      difficulty := None;
      topic := "";
      category := "";
      conversationHistory := [];
      turnCount := 0;
      isProcessing := false;
      script := "";
      analysis := None;
      topicRequests := 0;
      turn := NoTurn;
      reportRequests := 0;
      failedReplies := 0;
    }

    /** A difficulty button (intro screen): remember the level, show the
        loading screen and request a topic. */
    method ChooseDifficulty(level: Difficulty)
      requires Valid() && screen == IntroScreen
      modifies this
      ensures Valid()
      ensures State() == old(State()).(difficulty := Some(level), screen := LoadingScreen)
      ensures Pending() == old(Pending()).(topicRequests := old(topicRequests) + 1)
      ensures failedReplies == old(failedReplies)
    {
      difficulty := Some(level);
      screen := LoadingScreen;
      topicRequests := topicRequests + 1;
    }

    /** The topic arrives: a fresh game with an empty history, no turns and
        no failed replies. */
    method TopicLoaded(newTopic: string, newCategory: string)
      requires Valid() && topicRequests > 0
      modifies this
      ensures Valid()
      ensures State() == old(State()).(topic := newTopic, category := newCategory,
                                       conversationHistory := [], turnCount := 0, screen := GameScreen)
      ensures Pending() == old(Pending()).(topicRequests := old(topicRequests) - 1)
      ensures failedReplies == 0
    {
      topic := newTopic;
      category := newCategory;
      conversationHistory := [];
      turnCount := 0;
      screen := GameScreen;
      topicRequests := topicRequests - 1;
      failedReplies := 0;
    }

    /** The topic request fails: back to the intro screen, nothing else
        changes. */
    method TopicLoadFailed()
      requires Valid() && topicRequests > 0
      modifies this
      ensures Valid()
      ensures State() == old(State()).(screen := IntroScreen)
      ensures Pending() == old(Pending()).(topicRequests := old(topicRequests) - 1)
      ensures failedReplies == old(failedReplies)
    {
      screen := IntroScreen;
      topicRequests := topicRequests - 1;
    }

    /** The send button or Enter (game screen). An empty trimmed hint, or
        the input being locked, leaves everything as it was. Otherwise the
        input locks, the turn count goes up by one, the trimmed hint is
        appended as the player's entry, and the reply is requested with the
        history and turn count as they now are. */
    method SubmitHint(input: string) returns (request: Option<ReplyRequest>)
      requires Valid() && screen == GameScreen
      modifies this
      ensures Valid()
      ensures request.None? <==> Trim(input) == "" || old(isProcessing)
      ensures request.None? ==> State() == old(State()) && Pending() == old(Pending())
      ensures request.Some? ==>
                && State() == old(State()).(isProcessing := true, turnCount := old(turnCount) + 1,
                     conversationHistory := old(conversationHistory) + [ConversationItem(User, Trim(input))])
                && Pending() == old(Pending()).(turn := AwaitingReply)
                && request.value == ReplyRequest(topic, Trim(input), conversationHistory, turnCount)
      ensures failedReplies == old(failedReplies)
    {
      var hint := Trim(input);
      if hint == "" || isProcessing {
        return None;
      }
      isProcessing := true;
      turnCount := turnCount + 1;
      CountRoleAppend(conversationHistory, ConversationItem(User, hint), User);
      conversationHistory := conversationHistory + [ConversationItem(User, hint)];
      turn := AwaitingReply;
      request := Some(ReplyRequest(topic, hint, conversationHistory, turnCount));
    }

    /** The reply arrives: the affirming line is appended as the AI's entry.
        A correct reply, or one at or past the turn limit, schedules the move
        to the report; any other schedules the denial of `guess`. */
    method ReplyReceived(guess: string, isCorrect: bool, responseV1: string, responseV2: string)
      returns (finishing: bool)
      requires Valid() && turn == AwaitingReply
      modifies this
      ensures Valid()
      ensures finishing <==> isCorrect || old(turnCount) >= MaxTurns
      ensures State() == old(State()).(
                conversationHistory := old(conversationHistory) + [ConversationItem(Ai, responseV1)])
      ensures Pending() == old(Pending()).(turn := if finishing then FinishDue else DenialDue(guess, responseV2))
      ensures failedReplies == old(failedReplies)
    {
      CountRoleAppend(conversationHistory, ConversationItem(Ai, responseV1), User);
      conversationHistory := conversationHistory + [ConversationItem(Ai, responseV1)];
      finishing := isCorrect || turnCount >= MaxTurns;
      if finishing {
        turn := FinishDue;
      } else {
        turn := DenialDue(guess, responseV2);
      }
    }

    /** The reply request fails: the input unlocks; the hint already appended
        and the turn already counted stay. */
    method ReplyFailed()
      requires Valid() && turn == AwaitingReply
      modifies this
      ensures Valid()
      ensures State() == old(State()).(isProcessing := false)
      ensures Pending() == old(Pending()).(turn := NoTurn)
      ensures failedReplies == old(failedReplies) + 1
    {
      isProcessing := false;
      turn := NoTurn;
      failedReplies := failedReplies + 1;
    }

    /** First delayed step of a continuing turn: the player's side denies
        the guess. */
    method ShowDenial()
      requires Valid() && turn.DenialDue?
      modifies this
      ensures Valid()
      ensures State() == old(State()).(conversationHistory :=
                old(conversationHistory) + [ConversationItem(User, DenialMessage(old(turn).guess))])
      ensures Pending() == old(Pending()).(turn := RetractionDue(old(turn).responseV2))
      ensures failedReplies == old(failedReplies)
    {
      var item := ConversationItem(User, DenialMessage(turn.guess));
      CountRoleAppend(conversationHistory, item, User);
      conversationHistory := conversationHistory + [item];
      turn := RetractionDue(turn.responseV2);
    }

    /** Second delayed step: the AI retracts, and only now does the input
        unlock. */
    method ShowRetraction()
      requires Valid() && turn.RetractionDue?
      modifies this
      ensures Valid()
      ensures State() == old(State()).(isProcessing := false, conversationHistory :=
                old(conversationHistory) + [ConversationItem(Ai, old(turn).responseV2)])
      ensures Pending() == old(Pending()).(turn := NoTurn)
      ensures failedReplies == old(failedReplies)
    {
      var item := ConversationItem(Ai, turn.responseV2);
      CountRoleAppend(conversationHistory, item, User);
      conversationHistory := conversationHistory + [item];
      isProcessing := false;
      turn := NoTurn;
    }

    /** The delayed move to the report after a correct reply or the last
        turn: the loading screen, and the report is requested for the topic
        and the history as they are now. The input stays locked. */
    method StartFinishing() returns (report: ReportRequest)
      requires Valid() && turn == FinishDue
      modifies this
      ensures Valid()
      ensures State() == old(State()).(screen := LoadingScreen)
      ensures isProcessing
      ensures Pending() == old(Pending()).(turn := NoTurn, reportRequests := old(reportRequests) + 1)
      ensures failedReplies == old(failedReplies)
      ensures report == ReportRequest(topic, conversationHistory)
    {
      screen := LoadingScreen;
      turn := NoTurn;
      reportRequests := reportRequests + 1;
      report := ReportRequest(topic, conversationHistory);
    }

    /** The same step with the input unlocked as the turn ends, as the
        continuing path does. */
    method StartFinishingCorrected() returns (report: ReportRequest)
      requires Valid() && turn == FinishDue
      modifies this
      ensures Valid()
      ensures State() == old(State()).(screen := LoadingScreen, isProcessing := false)
      ensures Pending() == old(Pending()).(turn := NoTurn, reportRequests := old(reportRequests) + 1)
      ensures failedReplies == old(failedReplies)
      ensures report == ReportRequest(topic, conversationHistory)
    {
      screen := LoadingScreen;
      isProcessing := false;
      turn := NoTurn;
      reportRequests := reportRequests + 1;
      report := ReportRequest(topic, conversationHistory);
    }

    /** The end-game button (game screen): refused, changing nothing, while
        the history has fewer than two entries; otherwise the loading screen
        and the report is requested for the topic and the history as they
        are now. */
    method EndGame() returns (report: Option<ReportRequest>)
      requires Valid() && screen == GameScreen
      modifies this
      ensures Valid()
      ensures report.Some? <==> |old(conversationHistory)| >= 2
      ensures report.None? ==> State() == old(State()) && Pending() == old(Pending())
      ensures report.Some? ==> && State() == old(State()).(screen := LoadingScreen)
                               && Pending() == old(Pending()).(reportRequests := old(reportRequests) + 1)
                               && report.value == ReportRequest(topic, conversationHistory)
      ensures failedReplies == old(failedReplies)
    {
      if |conversationHistory| < 2 {
        return None;
      }
      screen := LoadingScreen;
      reportRequests := reportRequests + 1;
      report := Some(ReportRequest(topic, conversationHistory));
    }

    /** Analysis and script both arrive: they are stored and the result
        screen shows. */
    method ReportReceived(newAnalysis: Analysis, newScript: string)
      requires Valid() && reportRequests > 0
      modifies this
      ensures Valid()
      ensures State() == old(State()).(analysis := Some(newAnalysis), script := newScript, screen := ResultScreen)
      ensures Pending() == old(Pending()).(reportRequests := old(reportRequests) - 1)
      ensures failedReplies == old(failedReplies)
    {
      analysis := Some(newAnalysis);
      script := newScript;
      screen := ResultScreen;
      reportRequests := reportRequests - 1;
    }

    /** One of the two report requests fails: whichever arrived is stored,
        and the screen stays where it is. */
    method ReportFailed(newAnalysis: Option<Analysis>, newScript: Option<string>)
      requires Valid() && reportRequests > 0
      requires newAnalysis.None? || newScript.None?
      modifies this
      ensures Valid()
      ensures State() == old(State()).(
                analysis := if newAnalysis.Some? then newAnalysis else old(analysis),
                script := if newScript.Some? then newScript.value else old(script))
      ensures Pending() == old(Pending()).(reportRequests := old(reportRequests) - 1)
      ensures failedReplies == old(failedReplies)
    {
      if newAnalysis.Some? {
        analysis := newAnalysis;
      }
      if newScript.Some? {
        script := newScript.value;
      }
      reportRequests := reportRequests - 1;
    }

    /** The replay button (result screen): every field of the record returns
        to its initial value except `isProcessing`, which is left as it is;
        the failed replies counted belonged to the game that ended. */
    method Replay()
      requires Valid() && screen == ResultScreen
      modifies this
      ensures Valid()
      ensures State() == InitialState.(isProcessing := old(isProcessing))
      ensures Pending() == old(Pending())
      ensures failedReplies == 0
    {
      screen := IntroScreen;
      difficulty := None;
      topic := "";
      category := "";
      conversationHistory := [];
      turnCount := 0;
      script := "";
      analysis := None;
      failedReplies := 0;
    }

    /** A whole continuing turn, with no other event in between: the history
        grows by exactly four entries (the hint, the affirming line, the
        denial, the retraction), the turn is counted once, the input is
        unlocked again, and nothing else changes. */
    method PlayContinuingTurn(input: string, guess: string, responseV1: string, responseV2: string)
      requires Valid() && screen == GameScreen && !isProcessing
      requires Trim(input) != "" && turnCount + 1 < MaxTurns
      modifies this
      ensures Valid()
      ensures State() == old(State()).(
                conversationHistory := old(conversationHistory) + [
                  ConversationItem(User, Trim(input)), ConversationItem(Ai, responseV1),
                  ConversationItem(User, DenialMessage(guess)), ConversationItem(Ai, responseV2)],
                turnCount := old(turnCount) + 1)
      ensures Pending() == old(Pending())
      ensures failedReplies == old(failedReplies)
    {
      AppendFour(conversationHistory, ConversationItem(User, Trim(input)), ConversationItem(Ai, responseV1),
                 ConversationItem(User, DenialMessage(guess)), ConversationItem(Ai, responseV2));
      var request := SubmitHint(input);
      var finishing := ReplyReceived(guess, false, responseV1, responseV2);
      ShowDenial();
      ShowRetraction();
    }

    /** Past the turn limit: at turn nine with the input unlocked, a tenth
        hint whose reply fails unlocks the input without ending the game, and
        an eleventh hint is accepted and sent as turn eleven. */
    method PassTurnLimit(input: string) returns (sent: Option<ReplyRequest>)
      requires Valid() && screen == GameScreen && !isProcessing
      requires Trim(input) != "" && turnCount == MaxTurns - 1
      modifies this
      ensures Valid()
      ensures sent.Some? && sent.value.turnCount == MaxTurns + 1
      ensures failedReplies == old(failedReplies) + 1
    {
      var tenth := SubmitHint(input);
      ReplyFailed();
      sent := SubmitHint(input);
    }
  }

  // ---------------------------------------------------------------------
  // The hint numbering of the report

  /** Appending one entry to the history the server receives appends a
      numbered hint line exactly when the entry is the player's, numbered
      after all the earlier `user` entries. */
  lemma HintLinesOfAppend(h: seq<ConversationItem>, item: ConversationItem)
    ensures Server.HintLines(ToMessages(h + [item])) == Server.HintLines(ToMessages(h))
              + (if item.role == User then [Server.HintLine(CountRole(h, User) + 1, item.content)] else [])
  {
    var m := Server.Message(RoleName(item.role), item.content);
    assert ToMessages(h + [item]) == ToMessages(h) + [m];
    HintListCountsUserEntries(h);
    Server.HintLinesAppend(ToMessages(h), m);
  }

  /** One step of the numbering: the lines of `h` and its number of
      `user` entries determine those of `h` with one more entry. */
  lemma NumberingStep(h: seq<ConversationItem>, lines: seq<string>, item: ConversationItem)
    requires Server.HintLines(ToMessages(h)) == lines && CountRole(h, User) == |lines|
    ensures item.role == User ==> && Server.HintLines(ToMessages(h + [item]))
                                       == lines + [Server.HintLine(|lines| + 1, item.content)]
                                  && CountRole(h + [item], User) == |lines| + 1
    ensures item.role == Ai ==> && Server.HintLines(ToMessages(h + [item])) == lines
                                && CountRole(h + [item], User) == |lines|
  {
    HintLinesOfAppend(h, item);
    CountRoleAppend(h, item, User);
    assert lines + [] == lines;
  }

  /** Four entries appended one at a time are the four appended at once. */
  lemma AppendFour(h: seq<ConversationItem>, a: ConversationItem, b: ConversationItem,
                   c: ConversationItem, d: ConversationItem)
    ensures h + [a] + [b] + [c] + [d] == h + [a, b, c, d]
  {
  }

  /** The four entries of a wrong-guess turn, appended one at a time. */
  lemma TurnEntries(a: ConversationItem, b: ConversationItem, c: ConversationItem, d: ConversationItem)
    ensures [] + [a] == [a]
    ensures [a] + [b] == [a, b]
    ensures [a, b] + [c] == [a, b, c]
    ensures [a, b, c] + [d] == [a, b, c, d]
  {
  }

  /** The history of one wrong-guess turn gives two numbered lines, the
      automatic denial being the second. */
  lemma WrongTurnNumbered(hint: string, responseV1: string, guess: string, responseV2: string)
    ensures Server.HintLines(ToMessages([
              ConversationItem(User, hint), ConversationItem(Ai, responseV1),
              ConversationItem(User, DenialMessage(guess)), ConversationItem(Ai, responseV2)]))
            == [Server.HintLine(1, hint), Server.HintLine(2, DenialMessage(guess))]
    ensures CountRole([
              ConversationItem(User, hint), ConversationItem(Ai, responseV1),
              ConversationItem(User, DenialMessage(guess)), ConversationItem(Ai, responseV2)], User)
            == 2
  {
    var a, b := ConversationItem(User, hint), ConversationItem(Ai, responseV1);
    var c, d := ConversationItem(User, DenialMessage(guess)), ConversationItem(Ai, responseV2);
    var l1 := [Server.HintLine(1, hint)];
    var l2 := l1 + [Server.HintLine(2, DenialMessage(guess))];
    TurnEntries(a, b, c, d);
    assert Server.HintLines(ToMessages([])) == [];
    NumberingStep([], [], a);
    NumberingStep([a], l1, b);
    NumberingStep([a, b], l1, c);
    NumberingStep([a, b, c], l2, d);
  }

  /** A wrong-guess turn and one more entry, as one history. */
  lemma TurnThenEntry(h: seq<ConversationItem>, e: ConversationItem)
    requires |h| == 4
    ensures h + [e] == [h[0], h[1], h[2], h[3], e]
  {
  }

  /** The history of one wrong-guess turn followed by a second hint gives
      three numbered lines, the automatic denial being the second. */
  lemma DenialNumberedAsHint(hint1: string, responseV1: string, guess: string, responseV2: string, hint2: string)
    ensures Server.HintLines(ToMessages([
              ConversationItem(User, hint1), ConversationItem(Ai, responseV1),
              ConversationItem(User, DenialMessage(guess)), ConversationItem(Ai, responseV2),
              ConversationItem(User, hint2)]))
            == [Server.HintLine(1, hint1), Server.HintLine(2, DenialMessage(guess)), Server.HintLine(3, hint2)]
  {
    var h := [ConversationItem(User, hint1), ConversationItem(Ai, responseV1),
              ConversationItem(User, DenialMessage(guess)), ConversationItem(Ai, responseV2)];
    var e := ConversationItem(User, hint2);
    TurnThenEntry(h, e);
    WrongTurnNumbered(hint1, responseV1, guess, responseV2);
    NumberingStep(h, [Server.HintLine(1, hint1), Server.HintLine(2, DenialMessage(guess))], e);
  }

  /** A whole game: one wrong-guess turn, a second hint, and the end-game
      button. The report request makes the server number the automatic
      denial as the second hint and the player's second hint as the third,
      while the game has counted two turns. */
  method HintNumberingAfterWrongGuess(level: Difficulty, topic: string, hint1: string, guess: string,
                                      responseV1: string, responseV2: string, hint2: string)
    returns (turns: nat, report: ReportRequest)
    requires Trim(hint1) != "" && Trim(hint2) != ""
    ensures turns == 2
    ensures report.topic == topic
    ensures Server.HintLines(ToMessages(report.conversationHistory))
              == [Server.HintLine(1, Trim(hint1)), Server.HintLine(2, DenialMessage(guess)),
                  Server.HintLine(3, Trim(hint2))]
  {
    var g := new Game();
    g.ChooseDifficulty(level);
    g.TopicLoaded(topic, "");
    g.PlayContinuingTurn(hint1, guess, responseV1, responseV2);
    var request := g.SubmitHint(hint2);
    var sent := g.EndGame();
    report := sent.value;
    assert report.conversationHistory == [
      ConversationItem(User, Trim(hint1)), ConversationItem(Ai, responseV1),
      ConversationItem(User, DenialMessage(guess)), ConversationItem(Ai, responseV2),
      ConversationItem(User, Trim(hint2))];
    DenialNumberedAsHint(Trim(hint1), responseV1, guess, responseV2, Trim(hint2));
    turns := g.turnCount;
  }

  // ---------------------------------------------------------------------
  // After a game that ends on a correct reply, playing again

  /** As written: two wrong-guess turns, then a third hint whose reply the
      server judges correct (it affirms, and the turn count sent is 3);
      after the report, replay and a new choice of level, the next game
      sends no request for any hint, because nothing ever unlocked the
      input. */
  method ReplayAfterWinAsWritten(level: Difficulty, topic: string, hint: string, guess: string,
                                 responseV1: string, responseV2: string, reply: string,
                                 analysis: Analysis, script: string, nextTopic: string, nextHint: string)
    returns (next: Option<ReplyRequest>)
    requires Trim(hint) != "" && Server.IsCorrect(reply, 3)
    ensures next.None?
  {
    var g := new Game();
    g.ChooseDifficulty(level);
    g.TopicLoaded(topic, "");
    g.PlayContinuingTurn(hint, guess, responseV1, responseV2);
    g.PlayContinuingTurn(hint, guess, responseV1, responseV2);
    var request := g.SubmitHint(hint);
    var verdict := Server.Respond(reply, request.value.topic, request.value.turnCount).isCorrect;
    var finishing := g.ReplyReceived(guess, verdict, reply, "");
    var report := g.StartFinishing();
    g.ReportReceived(analysis, script);
    g.Replay();
    g.ChooseDifficulty(level);
    g.TopicLoaded(nextTopic, "");
    next := g.SubmitHint(nextHint);
  }

  /** Corrected: with the input unlocked when the finishing turn ends, the
      same sequence sends the next hint whenever it is not blank, as the
      first turn of the new game. */
  method ReplayAfterWinCorrected(level: Difficulty, topic: string, hint: string, guess: string,
                                 responseV1: string, responseV2: string, reply: string,
                                 analysis: Analysis, script: string, nextTopic: string, nextHint: string)
    returns (next: Option<ReplyRequest>)
    requires Trim(hint) != "" && Server.IsCorrect(reply, 3)
    ensures next.Some? <==> Trim(nextHint) != ""
    ensures next.Some? ==> next.value == ReplyRequest(nextTopic, Trim(nextHint), [ConversationItem(User, Trim(nextHint))], 1)
  {
    var g := new Game();
    g.ChooseDifficulty(level);
    g.TopicLoaded(topic, "");
    g.PlayContinuingTurn(hint, guess, responseV1, responseV2);
    g.PlayContinuingTurn(hint, guess, responseV1, responseV2);
    var request := g.SubmitHint(hint);
    var verdict := Server.Respond(reply, request.value.topic, request.value.turnCount).isCorrect;
    var finishing := g.ReplyReceived(guess, verdict, reply, "");
    var report := g.StartFinishingCorrected();
    g.ReportReceived(analysis, script);
    g.Replay();
    g.ChooseDifficulty(level);
    g.TopicLoaded(nextTopic, "");
    next := g.SubmitHint(nextHint);
  }
}
