/** The deterministic pieces of the game server's request handlers: the rule
    that judges a reply correct, the fence stripping applied to a generated
    topic, the extraction of the JSON object from a generated analysis, the
    numbered list of the player's hints, the speaker-labelled transcript, the
    difficulty label and description, and the strategy list sent in the
    analysis prompt. The language model that produces the texts is outside
    the model: its outputs are parameters. */
module Server {
  import opened Wrappers
  import opened Builtins

  /** One entry of the conversation history as the server receives it; the
      role is whatever string the client sent. */
  datatype Message = Message(role: string, content: string)

  // ---------------------------------------------------------------------
  // Judging a reply (POST /api/respond)

  /** The catch-phrase with which the straight man names the answer. */
  const Affirmation := "やないかい"

  /** No reply counts as correct before this turn. */
  const MinTurnsForCorrect := 3

  /** A reply is correct exactly when it contains the catch-phrase and the
      turn count has reached three. */
  function IsCorrect(response: string, turnCount: int): (b: bool)
    ensures b <==> turnCount >= 3 && exists k :: OccursAt(response, Affirmation, k)
  {
    Includes(response, Affirmation) && turnCount >= MinTurnsForCorrect
  }

  /** The body the server sends back for a generated reply. */
  datatype RespondBody = RespondBody(response: string, isCorrect: bool, suggestedAnswer: Option<string>)

  /** The reply is passed on unchanged, judged by `IsCorrect`, and the topic
      is suggested as the answer exactly when the reply is correct, which
      never happens before turn three. */
  function Respond(response: string, topic: string, turnCount: int): (r: RespondBody)
    ensures r.response == response
    ensures r.isCorrect <==> IsCorrect(response, turnCount)
    ensures r.suggestedAnswer.Some? <==> r.isCorrect
    ensures r.suggestedAnswer.Some? ==> r.suggestedAnswer.value == topic && turnCount >= 3
  {
    var correct := IsCorrect(response, turnCount);
    RespondBody(response, correct, if correct then Some(topic) else None)
  }

  // ---------------------------------------------------------------------
  // Stripping Markdown fences (POST /api/generate-topic)

  /** The characters the fence pattern can remove. */
  const FenceChars := "`json\n"

  lemma MultisetOfSplit(s: string, n: nat)
    requires n <= |s|
    ensures multiset(s) == multiset(s[..n]) + multiset(s[n..])
  {
    assert s == s[..n] + s[n..];
  }

  lemma FenceOnlyFenceChars(t: string)
    requires forall i :: 0 <= i < |t| ==> t[i] in FenceChars
    ensures forall c :: c !in FenceChars ==> multiset(t)[c] == 0
  {
  }

  /** The length of the fence match at the start of `s`, 0 when there is
      none: the first alternative (```` ```json ```` with its optional
      newline, greedily) is tried before the second (an optional newline,
      then ```` ``` ````). A match consists of fence characters only and
      starts with a backtick or with a newline followed by a backtick fence. */
  function FenceMatch(s: string): (n: nat)
    ensures n <= |s|
    ensures forall i :: 0 <= i < n ==> s[i] in FenceChars
    ensures n > 0 && s[0] != '`' ==> s[0] == '\n' && StartsWith(s[1..], "```")
    ensures n == 0 && |s| > 0 && s[0] == '`' ==> !StartsWith(s, "```")
  {
    if StartsWith(s, "```json\n") then 8
    else if StartsWith(s, "```json") then 7
    else if StartsWith(s, "\n```") then
      assert s[1..][..3] == s[1..4];
      4
    else if StartsWith(s, "```") then 3
    else 0
  }

  /** `text.replace(/```json\n?|\n?```/g, '')`: scanning left to right, a
      fence match at the current position is removed and scanning resumes
      after it; otherwise one character is kept. Only fence characters are
      removed: every other character occurs in the result as often as in the
      text. */
  function StripFences(s: string): (r: string)
    ensures |r| <= |s|
    ensures multiset(r) <= multiset(s)
    ensures forall c :: c !in FenceChars ==> multiset(r)[c] == multiset(s)[c]
    decreases |s|
  {
    var n := FenceMatch(s);
    if n > 0 then
      var rest := StripFences(s[n..]);
      StripDropBound(s, n, rest);
      rest
    else if |s| == 0 then
      ""
    else
      var rest := StripFences(s[1..]);
      StripKeepBound(s, rest);
      [s[0]] + rest
  }

  /** The bounds `StripFences` promises, for a text and what is left of it. */
  ghost predicate StripBound(s: string, r: string) {
    && |r| <= |s|
    && multiset(r) <= multiset(s)
    && (forall c :: c !in FenceChars ==> multiset(r)[c] == multiset(s)[c])
  }

  /** Dropping a prefix of fence characters keeps the bounds. */
  lemma StripDropBound(s: string, n: nat, rest: string)
    requires 0 < n <= |s| && forall i :: 0 <= i < n ==> s[i] in FenceChars
    requires StripBound(s[n..], rest)
    ensures StripBound(s, rest)
  {
    MultisetOfSplit(s, n);
    FenceOnlyFenceChars(s[..n]);
  }

  /** Keeping the first character keeps the bounds. */
  lemma StripKeepBound(s: string, rest: string)
    requires |s| > 0 && StripBound(s[1..], rest)
    ensures StripBound(s, [s[0]] + rest)
  {
    MultisetOfSplit(s, 1);
    assert s[..1] == [s[0]];
  }

  /** A character that is no backtick, and no newline starting a fence, is
      kept and scanning continues with the next one. */
  lemma StripKeeps(c: char, t: string)
    requires c != '`' && !(c == '\n' && StartsWith(t, "```"))
    ensures StripFences([c] + t) == [c] + StripFences(t)
  {
    var s := [c] + t;
    assert s[1..] == t;
    assert FenceMatch(s) == 0;
  }

  /** A fence can only start at a backtick. */
  lemma FenceStartsWithBacktick(t: string)
    requires |t| == 0 || t[0] != '`'
    ensures !StartsWith(t, "```")
  {
    if |t| >= 3 {
      assert t[..3][0] == t[0];
    }
  }

  /** Text without backticks passes through unchanged. */
  lemma {:induction false} StripWithoutBackticks(s: string)
    requires '`' !in s
    ensures StripFences(s) == s
    decreases |s|
  {
    if |s| > 0 {
      assert s == [s[0]] + s[1..];
      StripWithoutBackticks(s[1..]);
      assert |s| > 1 ==> s[1..][0] == s[1];
      FenceStartsWithBacktick(s[1..]);
      StripKeeps(s[0], s[1..]);
    }
  }

  lemma StripLoneClosingFence()
    ensures StripFences("\n```") == ""
  {
    var s := "\n```";
    assert StartsWith(s, "\n```");
    assert !StartsWith(s, "```json\n") && !StartsWith(s, "```json");
    assert FenceMatch(s) == 4;
    assert s[4..] == "";
  }

  /** Text without backticks, followed by a tail that does not start with
      one, is kept and the tail is stripped on its own. */
  lemma {:induction false} StripBeforeTail(body: string, tail: string)
    requires '`' !in body && (|tail| == 0 || tail[0] != '`')
    ensures StripFences(body + tail) == body + StripFences(tail)
    decreases |body|
  {
    if |body| == 0 {
      assert body + tail == tail;
    } else {
      var t := body[1..] + tail;
      FirstAndRest(body, tail, StripFences(tail));
      FenceStartsWithBacktick(t);
      StripKeeps(body[0], t);
      StripBeforeTail(body[1..], tail);
    }
  }

  /** Splitting the first character off a concatenation, for the text and
      for its stripped form; what follows the first character of a body
      without backticks starts with no backtick. */
  lemma FirstAndRest(body: string, tail: string, r: string)
    requires |body| > 0 && '`' !in body && (|tail| == 0 || tail[0] != '`')
    ensures body + tail == [body[0]] + (body[1..] + tail)
    ensures [body[0]] + (body[1..] + r) == body + r
    ensures |body[1..] + tail| == 0 || (body[1..] + tail)[0] != '`'
  {
    assert [body[0]] + body[1..] == body;
    var t := body[1..] + tail;
    if |body| > 1 {
      assert t[0] == body[1];
    } else {
      assert t == tail;
    }
  }

  /** A body followed by a closing fence on its own line comes back as the
      body. */
  lemma StripClosingFence(body: string)
    requires '`' !in body
    ensures StripFences(body + "\n```") == body
  {
    StripBeforeTail(body, "\n```");
    StripLoneClosingFence();
    assert body + "" == body;
  }

  /** A body fenced as a JSON code block, the body itself free of
      backticks, is recovered exactly. */
  lemma StripJsonCodeBlock(body: string)
    requires '`' !in body
    ensures StripFences("```json\n" + body + "\n```") == body
  {
    var s := "```json\n" + body + "\n```";
    assert StartsWith(s, "```json\n");
    assert s[8..] == body + "\n```";
    StripClosingFence(body);
  }

  // ---------------------------------------------------------------------
  // Extracting the JSON object (POST /api/analyze)

  const InvalidJson := "Invalid JSON response"

  /** `i` is the first `{` of the text and `j` its last `}`, after `i`. */
  ghost predicate ObjectSpan(text: string, i: int, j: int) {
    0 <= i < j < |text| && text[i] == '{' && text[j] == '}'
    && (forall k :: 0 <= k < i ==> text[k] != '{')
    && (forall k :: j < k < |text| ==> text[k] != '}')
  }

  /** `text.match(/\{[\s\S]*\}/)`: the leftmost match starts at the first
      `{` and, the star being greedy, ends at the last `}`. There is a match
      exactly when some `{` comes before some `}`; otherwise the handler
      raises "Invalid JSON response". */
  function ExtractJson(text: string): (r: Result<string, string>)
    ensures r.Ok? <==> exists i, j :: 0 <= i < j < |text| && text[i] == '{' && text[j] == '}'
    ensures r.Ok? ==> exists i, j :: ObjectSpan(text, i, j) && r.value == text[i..j + 1]
    ensures r.Err? ==> r.error == InvalidJson
  {
    var first := IndexOfChar(text, '{');
    var last := LastIndexOfChar(text, '}');
    if first.Some? && last.Some? && first.value < last.value then
      assert ObjectSpan(text, first.value, last.value);
      Ok(text[first.value..last.value + 1])
    else
      Err(InvalidJson)
  }

  // ---------------------------------------------------------------------
  // The numbered hint list (POST /api/analyze)

  /** The positions of the `user` entries of a history, in increasing order,
      all of them and nothing else. */
  function UserPositions(h: seq<Message>): (r: seq<nat>)
    ensures forall k :: 0 <= k < |r| ==> r[k] < |h| && h[r[k]].role == "user"
    ensures forall k, l :: 0 <= k < l < |r| ==> r[k] < r[l]
    ensures forall i :: 0 <= i < |h| && h[i].role == "user" ==> i in r
    decreases |h|
  {
    if |h| == 0 then []
    else
      var rest := UserPositions(h[..|h| - 1]);
      if h[|h| - 1].role == "user" then rest + [|h| - 1] else rest
  }

  /** `filter(role === 'user')` followed by `map(content)`: the contents of
      the user entries, one per position of `UserPositions`, in order. */
  function UserContents(h: seq<Message>): (r: seq<string>)
    ensures |r| == |UserPositions(h)|
    ensures forall k :: 0 <= k < |r| ==> r[k] == h[UserPositions(h)[k]].content
    decreases |h|
  {
    if |h| == 0 then []
    else
      var rest := UserContents(h[..|h| - 1]);
      if h[|h| - 1].role == "user" then rest + [h[|h| - 1].content] else rest
  }

  /** One line of the hint list: `ターン<n>: <hint>`. */
  function HintLine(n: nat, hint: string): string {
    "ターン" + NatToDecimal(n) + ": " + hint
  }

  /** The lines of the hint list: the k-th user entry in history order,
      numbered k + 1. */
  function HintLines(h: seq<Message>): (r: seq<string>)
    ensures |r| == |UserPositions(h)|
    ensures forall k :: 0 <= k < |r| ==> r[k] == HintLine(k + 1, h[UserPositions(h)[k]].content)
  {
    Numbered(UserContents(h))
  }

  /** The k-th hint as line k + 1. */
  function Numbered(hints: seq<string>): seq<string> {
    seq(|hints|, k requires 0 <= k < |hints| => HintLine(k + 1, hints[k]))
  }

  /** Numbering one more hint appends one more line. */
  lemma NumberedAppend(hints: seq<string>, hint: string)
    ensures Numbered(hints + [hint]) == Numbered(hints) + [HintLine(|hints| + 1, hint)]
  {
  }

  /** Appending one message appends its content to the user contents
      exactly when it is a `user` entry. */
  lemma UserContentsAppend(h: seq<Message>, m: Message)
    ensures UserContents(h + [m]) == UserContents(h) + (if m.role == "user" then [m.content] else [])
  {
    var g := h + [m];
    assert g[..|g| - 1] == h;
  }

  /** Appending one message appends a numbered line exactly when the
      message is a `user` entry, numbered after all the earlier ones. */
  lemma HintLinesAppend(h: seq<Message>, m: Message)
    ensures HintLines(h + [m])
              == HintLines(h) + (if m.role == "user" then [HintLine(|HintLines(h)| + 1, m.content)] else [])
  {
    UserContentsAppend(h, m);
    NumberedAppend(UserContents(h), m.content);
    assert UserContents(h) + [] == UserContents(h);
  }

  /** The hint list as it goes into the analysis prompt. */
  function UserHints(h: seq<Message>): string {
    Join(HintLines(h), "\n")
  }

  lemma HintLineSingle(n: nat, hint: string)
    requires '\n' !in hint
    ensures '\n' !in HintLine(n, hint)
  {
    var d := NatToDecimal(n);
    assert '\n' !in d by {
      forall i | 0 <= i < |d| ensures d[i] != '\n' { }
    }
  }

  /** When no user entry spans several lines, the hint list splits back into
      exactly one numbered line per user entry, in history order. */
  lemma UserHintsReadBack(h: seq<Message>)
    requires |UserPositions(h)| >= 1
    requires forall i :: 0 <= i < |h| && h[i].role == "user" ==> '\n' !in h[i].content
    ensures Split(UserHints(h), '\n') == HintLines(h)
  {
    var lines := HintLines(h);
    var ps := UserPositions(h);
    forall k | 0 <= k < |lines| ensures '\n' !in lines[k] {
      HintLineSingle(k + 1, h[ps[k]].content);
    }
    SplitJoin(lines, '\n');
  }

  // ---------------------------------------------------------------------
  // The transcript (POST /api/respond, POST /api/generate-script)

  /** The player's comedian and the straight man. */
  const Komaba := "駒場"
  const Utsumi := "内海"

  /** A `user` entry is spoken by Komaba; an entry with any other role by
      Utsumi. */
  function Speaker(role: string): (r: string)
    ensures r == Komaba <==> role == "user"
    ensures r == Utsumi <==> role != "user"
  {
    if role == "user" then Komaba else Utsumi
  }

  /** `<speaker>: <content>`. */
  function TranscriptLine(m: Message): string {
    Speaker(m.role) + ": " + m.content
  }

  /** Reads a transcript line back: whether Komaba speaks it, and what is
      said. */
  function ParseTranscriptLine(line: string): Option<(bool, string)> {
    if |line| >= 4 && line[2..4] == ": " && (line[..2] == Komaba || line[..2] == Utsumi) then
      Some((line[..2] == Komaba, line[4..]))
    else
      None
  }

  /** A transcript line tells whose line it is and what was said. */
  lemma TranscriptLineReadBack(m: Message)
    ensures ParseTranscriptLine(TranscriptLine(m)) == Some((m.role == "user", m.content))
  {
    var line := TranscriptLine(m);
    assert line[..2] == Speaker(m.role);
    assert line[2..4] == ": ";
    assert line[4..] == m.content;
  }

  /** The transcript lines: one per history entry, in order, each telling
      whether the entry was the user's and what it said. */
  function TranscriptLines(h: seq<Message>): (r: seq<string>)
    ensures |r| == |h|
    ensures forall i :: 0 <= i < |h| ==> ParseTranscriptLine(r[i]) == Some((h[i].role == "user", h[i].content))
  {
    var r := seq(|h|, i requires 0 <= i < |h| => TranscriptLine(h[i]));
    assert forall i :: 0 <= i < |h| ==> ParseTranscriptLine(r[i]) == Some((h[i].role == "user", h[i].content)) by {
      forall i | 0 <= i < |h| ensures ParseTranscriptLine(r[i]) == Some((h[i].role == "user", h[i].content)) {
        TranscriptLineReadBack(h[i]);
      }
    }
    r
  }

  /** The transcript as it goes into the reply and script prompts. */
  function Transcript(h: seq<Message>): string {
    Join(TranscriptLines(h), "\n")
  }

  /** When no entry spans several lines, the transcript splits back into one
      line per entry, each read back as its speaker and content. */
  lemma TranscriptReadBack(h: seq<Message>)
    requires |h| >= 1
    requires forall i :: 0 <= i < |h| ==> '\n' !in h[i].content
    ensures |Split(Transcript(h), '\n')| == |h|
    ensures forall i :: 0 <= i < |h| ==>
              ParseTranscriptLine(Split(Transcript(h), '\n')[i]) == Some((h[i].role == "user", h[i].content))
  {
    var lines := TranscriptLines(h);
    forall i | 0 <= i < |lines| ensures '\n' !in lines[i] {
      assert lines[i] == TranscriptLine(h[i]);
      assert '\n' !in Speaker(h[i].role);
    }
    SplitJoin(lines, '\n');
  }

  // ---------------------------------------------------------------------
  // Difficulty (POST /api/generate-topic)

  const Beginner := "初級"
  const Intermediate := "中級"
  const Advanced := "上級"

  /** `easy` is the beginner level, `normal` the intermediate one, and every
      other value, unknown ones included, the advanced one. */
  function LevelLabel(level: string): (r: string)
    ensures r == Beginner <==> level == "easy"
    ensures r == Intermediate <==> level == "normal"
    ensures r == Advanced <==> level != "easy" && level != "normal"
  {
    if level == "easy" then Beginner else if level == "normal" then Intermediate else Advanced
  }

  const LevelDescriptions: map<string, string> := map[
    "easy" := "誰もが共通のイメージを持つ具体的な物体（例：おにぎり、ハサミ、傘、電車など）",
    "normal" := "複数の要素が組み合わさった日常的な概念や場所（例：友情、動物園、誕生日、通勤など）",
    "hard" := "視覚化しづらい感情や、説明に工夫が必要な複雑な事象（例：断捨離、絶望、デジャブ、孤独など）"
  ]

  /** `levelDescriptions[level] || levelDescriptions.normal`: the level's own
      description when it has one (none is empty, so the `||` fallback only
      fires for unknown levels), and the `normal` one otherwise. */
  function LevelDescription(level: string): (r: string)
    ensures level in LevelDescriptions ==> r == LevelDescriptions[level]
    ensures level !in LevelDescriptions ==> r == LevelDescriptions["normal"]
    ensures r != ""
  {
    if level in LevelDescriptions && LevelDescriptions[level] != "" then LevelDescriptions[level]
    else LevelDescriptions["normal"]
  }

  // ---------------------------------------------------------------------
  // The strategy list of the analysis prompt

  datatype PromptStrategy = PromptStrategy(id: string, name: string, nameEn: string, description: string)

  const PromptStrategies: seq<PromptStrategy> := [
    PromptStrategy("amplification", "増幅", "Amplification", "元の意味をより強く、広く、目立たせるように言い換える"),
    PromptStrategy("diffusion", "拡散", "Diffusion", "ある言葉や意味を、別のジャンルや文脈に広げる"),
    PromptStrategy("divergence", "発散", "Divergence", "ある言葉から連想できるものを、自由にたくさん出す"),
    PromptStrategy("deletion", "ゼロユニット化", "Deletion", "あえて何かを削除して、抜けた意味から新たな物語を引き出す"),
    PromptStrategy("generalization", "一般化", "Generalization", "共通する部分を発見して、グループやカテゴリの名前に置き換える"),
    PromptStrategy("abstraction", "抽象化", "Abstraction", "具体的な事例や物を、概念的な言葉に変える"),
    PromptStrategy("ethicalization", "倫理化", "Ethicalization", "すでに倫理的に意味づけられた言葉に、別の視点から新しい意味を与える"),
    PromptStrategy("visualization", "視覚化", "Visualization", "言葉の内容を視覚的なイメージに変換する"),
    PromptStrategy("concretion", "具体化", "Concretion", "抽象的な言葉を、具体的な場面や行動で表す"),
    PromptStrategy("condensation", "凝縮", "Condensation", "たくさんの意味や思いを、一言にギュッと詰め込む"),
    PromptStrategy("reduction", "削減", "Reduction", "長い表現をそぎ落として、必要な要素だけにする"),
    PromptStrategy("convergence", "収束", "Convergence", "バラバラな視点や要素を、共通するテーマにまとめる"),
    PromptStrategy("culturalTranslation", "文化的変換", "Cultural Translation", "ある文化特有の言葉を、別の文化にも伝わる形に変える"),
    PromptStrategy("substitution", "代用", "Substitution", "ある言葉を、似た意味や役割の別の言葉に置き換える"),
    PromptStrategy("reordering", "順番変え", "Reordering", "決まった言葉の順番をあえて変えて、新たな視点や関係性を生み出す"),
    PromptStrategy("verbalization", "言語化", "Verbalization", "普段言葉にしていないことを、あえて言葉にする")
  ]

  /** One line of the strategy list: `- <name>（<nameEn>）: <description>`. */
  function StrategyLine(s: PromptStrategy): string {
    "- " + s.name + "（" + s.nameEn + "）: " + s.description
  }

  /** The lines of the strategy list, one per entry of the table, in order. */
  function StrategyLines(table: seq<PromptStrategy>): seq<string> {
    seq(|table|, i requires 0 <= i < |table| => StrategyLine(table[i]))
  }

  /** The strategy list of the analysis prompt, built from a table; the
      server builds it from `PromptStrategies`. */
  function StrategyListing(table: seq<PromptStrategy>): string {
    Join(StrategyLines(table), "\n")
  }

  /** No field of the entry holds a line break. */
  predicate SingleLineEntry(s: PromptStrategy) {
    '\n' !in s.name && '\n' !in s.nameEn && '\n' !in s.description
  }

  /** An entry without line breaks gives a line without one. */
  lemma StrategyLineSingle(s: PromptStrategy)
    requires SingleLineEntry(s)
    ensures '\n' !in StrategyLine(s)
  {
  }

  /** A non-empty table of single-line entries gives a listing that splits
      back at line breaks into one line per entry, in order. */
  lemma StrategyListingReadBack(table: seq<PromptStrategy>)
    requires |table| >= 1
    requires forall i :: 0 <= i < |table| ==> SingleLineEntry(table[i])
    ensures Split(StrategyListing(table), '\n') == StrategyLines(table)
  {
    var lines := StrategyLines(table);
    forall k | 0 <= k < |lines| ensures '\n' !in lines[k] {
      StrategyLineSingle(table[k]);
    }
    SplitJoin(lines, '\n');
  }
}
