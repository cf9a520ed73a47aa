/** The catalogue of the sixteen translation strategies the result screen
    shows as coloured badges, and its two lookups: by id, and by name (the
    Japanese name exactly, or the English name ignoring case). */
module Strategies {
  import opened Wrappers
  import opened Builtins

  datatype Color = Blue | Red

  datatype Strategy = Strategy(
    id: string,
    name: string,
    nameEn: string,
    description: string,
    example: string,
    color: Color,
    icon: string)

  /** The table, in its published order: eight blue cards, then eight red. */
  const Catalogue: seq<Strategy> := [
    // Blue cards
    Strategy("amplification", "増幅", "Amplification",
      "元の意味をより強く、広く、目立たせるように言い換えよう。",
      "「寒い」→「凍えるほど寒い」", Blue, "⬤○○/⬤⬤⬤"),
    Strategy("diffusion", "拡散", "Diffusion",
      "ある言葉や意味を、別のジャンルや文脈に広げてみよう。",
      "「エンパス」→「人生の指針」「チームの方向性」", Blue, "✱"),
    Strategy("divergence", "発散", "Divergence",
      "ある言葉から連想できるものを、自由にたくさん出してみよう。",
      "「鯛」→「鯛/尾/笛/クラゲ/蛇/羽根」", Blue, "◆→→→"),
    Strategy("deletion", "ゼロユニット化", "Deletion",
      "あえて何かを削除して、抜けた意味から新たな物語を引き出そう。",
      "「父・母・兄・姉」→「母・姉」", Blue, "○—○/○—○"),
    Strategy("generalization", "一般化", "Generalization",
      "共通する部分を発見して、グループやカテゴリの名前に置き換えよう。",
      "「犬・猫」→「ペット」", Blue, "▲△△"),
    Strategy("abstraction", "抽象化", "Abstraction",
      "具体的な事例や物を、概念的な言葉に変えてみよう。",
      "「走る」→「身体を整える習慣」", Blue, "●—→"),
    Strategy("ethicalization", "倫理化", "Ethicalization",
      "すでに倫理的に意味づけられた言葉に、あえて別の視点から新しい意味を与えてみよう。",
      "「ピンク」→「女の子はピンクでしょ」", Blue, "○△○"),
    Strategy("visualization", "視覚化", "Visualization",
      "言葉の内容を視覚的なイメージに変換してみよう。",
      "「時間」→「流れている川」の画像", Blue, "○—□"),
    // Red cards
    Strategy("concretion", "具体化", "Concretion",
      "抽象的な言葉を、具体的な場面や行動で表してみよう。",
      "「努力」→「朝5時に起きて勉強」", Red, "▽→⬤"),
    Strategy("condensation", "凝縮", "Condensation",
      "たくさんの意味や思いを、一言にギュッと詰め込んでみよう。",
      "「うまく言えないけど気になる」→「モヤる」", Red, "✱→●"),
    Strategy("reduction", "削減", "Reduction",
      "長い表現をそぎ落として、必要な要素だけにしてみよう。",
      "「いろいろあって疲れた」→「疲れた」", Red, "■■→■"),
    Strategy("convergence", "収束", "Convergence",
      "バラバラな視点や要素を、共通するテーマにまとめてみよう。",
      "「魚・陸続き・海鮮丼」→「居酒屋」", Red, "◆◆→■"),
    Strategy("culturalTranslation", "文化的変換", "Cultural Translation",
      "ある文化特有の言葉を、別の文化にも伝わる形に変えてみよう。",
      "「日本」「おせち料理」→「中国」「餃子」", Red, "○→○"),
    Strategy("substitution", "代用", "Substitution",
      "ある言葉を、似た意味や役割の別の言葉に置き換えてみよう。",
      "「スマホ」→「ポケットの中のパソコン」", Red, "■■→■■"),
    Strategy("reordering", "順番変え", "Reordering",
      "決まった言葉の順番をあえて変えて、新たな視点や関係性を生み出してみよう。",
      "「男女」→「女男」", Red, "○□→□○"),
    Strategy("verbalization", "言語化", "Verbalization",
      "普段言葉にしていないことを、あえて言葉にしてみよう。",
      "「心ななめの気」→「愛おしさ」", Red, "?→○")
  ]

  /** Sixteen cards: the first eight blue, the last eight red. */
  lemma CatalogueShape()
    ensures |Catalogue| == 16
    ensures forall i :: 0 <= i < 8 ==> Catalogue[i].color == Blue
    ensures forall i :: 8 <= i < 16 ==> Catalogue[i].color == Red
  {
  }

  /** No two cards share an id. */
  lemma IdsDistinct()
    ensures forall i, j :: 0 <= i < j < |Catalogue| ==> Catalogue[i].id != Catalogue[j].id
  {
  }

  /** No two cards share a Japanese name. */
  lemma NamesDistinct()
    ensures forall i, j :: 0 <= i < j < |Catalogue| ==> Catalogue[i].name != Catalogue[j].name
  {
  }

  /** The test `getStrategyById` applies to each card. */
  function IdTest(id: string): Strategy -> bool {
    (s: Strategy) => s.id == id
  }

  /** `getStrategyById`, over the table it searches (the program always
      passes `Catalogue`): none exactly when no card has the id; otherwise
      the card at the first position that has it. */
  function GetStrategyById(table: seq<Strategy>, id: string): (r: Option<Strategy>)
    ensures r.None? <==> forall i :: 0 <= i < |table| ==> table[i].id != id
    ensures r.Some? ==> r.value.id == id
    ensures r.Some? ==> exists i :: 0 <= i < |table| && table[i] == r.value
                                    && forall j :: 0 <= j < i ==> table[j].id != id
  {
    Find(table, IdTest(id))
  }

  /** Looking a card up by its own id gives that card. */
  lemma GetStrategyByIdOfCard(i: int)
    requires 0 <= i < |Catalogue|
    ensures GetStrategyById(Catalogue, Catalogue[i].id) == Some(Catalogue[i])
  {
    IdsDistinct();
    var id := Catalogue[i].id;
    assert FirstMatch(Catalogue, IdTest(id), i);
    FindAtFirstMatch(Catalogue, IdTest(id), i);
  }

  /** The name test of `getStrategyByName`: the Japanese name exactly, or the
      English name compared after lower-casing both sides. */
  predicate NameMatches(s: Strategy, name: string) {
    s.name == name || AsciiLower(s.nameEn) == AsciiLower(name)
  }

  /** The test `getStrategyByName` applies to each card. */
  function NameTest(name: string): Strategy -> bool {
    s => NameMatches(s, name)
  }

  /** `getStrategyByName`, over the table it searches: none exactly when no
      card's name matches; otherwise the card at the first position whose
      name matches. */
  function GetStrategyByName(table: seq<Strategy>, name: string): (r: Option<Strategy>)
    ensures r.None? <==> forall i :: 0 <= i < |table| ==> !NameMatches(table[i], name)
    ensures r.Some? ==> NameMatches(r.value, name)
    ensures r.Some? ==> exists i :: 0 <= i < |table| && table[i] == r.value
                                    && forall j :: 0 <= j < i ==> !NameMatches(table[j], name)
  {
    Find(table, NameTest(name))
  }

  /** Every English name starts with an upper-case ASCII letter. */
  lemma EnglishNamesStartAscii()
    ensures forall i :: 0 <= i < |Catalogue| ==> |Catalogue[i].nameEn| > 0 && 'A' <= Catalogue[i].nameEn[0] <= 'Z'
  {
  }

  /** Every Japanese name starts with a character outside ASCII. */
  lemma JapaneseNamesStartOutsideAscii()
    ensures forall i :: 0 <= i < |Catalogue| ==> |Catalogue[i].name| > 0 && Catalogue[i].name[0] >= '\U{0080}'
  {
  }

  /** A string that starts with an ASCII character and one that starts
      outside ASCII stay different once lower-cased. */
  lemma LowerSeparatesAlphabets(ascii: string, other: string)
    requires |ascii| > 0 && ascii[0] < '\U{0080}' && |other| > 0 && other[0] >= '\U{0080}'
    ensures AsciiLower(ascii) != AsciiLower(other)
  {
    var a, o := AsciiLower(ascii), AsciiLower(other);
    if |a| == |o| {
      assert a[0] < '\U{0080}';
      assert o[0] == other[0];
    }
  }

  /** Looking a card up by its Japanese name gives that card. */
  lemma GetStrategyByNameOfCard(i: int)
    requires 0 <= i < |Catalogue|
    ensures GetStrategyByName(Catalogue, Catalogue[i].name) == Some(Catalogue[i])
  {
    NamesDistinct();
    EnglishNamesStartAscii();
    JapaneseNamesStartOutsideAscii();
    var name := Catalogue[i].name;
    forall j | 0 <= j < i ensures !NameMatches(Catalogue[j], name) {
      LowerSeparatesAlphabets(Catalogue[j].nameEn, name);
    }
    assert FirstMatch(Catalogue, NameTest(name), i);
    FindAtFirstMatch(Catalogue, NameTest(name), i);
  }

  /** No two cards' English names are equal once lower-cased. */
  lemma LoweredEnglishNamesDistinct()
    ensures forall i, j :: 0 <= i < j < |Catalogue| ==> AsciiLower(Catalogue[i].nameEn) != AsciiLower(Catalogue[j].nameEn)
  {
    EnglishNamesTellApart();
    forall i, j | 0 <= i < j < |Catalogue|
      ensures AsciiLower(Catalogue[i].nameEn) != AsciiLower(Catalogue[j].nameEn)
    {
      var a, b := Catalogue[i].nameEn, Catalogue[j].nameEn;
      if |a| == |b| {
        assert AsciiLower(a)[1] == a[1] && AsciiLower(b)[1] == b[1];
      }
    }
  }

  /** Any two English names differ in length or in their second letter,
      which is always a lower-case one. */
  lemma EnglishNamesTellApart()
    ensures forall i :: 0 <= i < |Catalogue| ==> |Catalogue[i].nameEn| >= 2 && 'a' <= Catalogue[i].nameEn[1] <= 'z'
    ensures forall i, j :: 0 <= i < j < |Catalogue| ==>
              |Catalogue[i].nameEn| != |Catalogue[j].nameEn| || Catalogue[i].nameEn[1] != Catalogue[j].nameEn[1]
  {
  }

  /** Looking a card up by its English name, in any ASCII letter case, gives
      that card. */
  lemma GetStrategyByEnglishNameOfCard(i: int, name: string)
    requires 0 <= i < |Catalogue|
    requires AsciiLower(name) == AsciiLower(Catalogue[i].nameEn)
    ensures GetStrategyByName(Catalogue, name) == Some(Catalogue[i])
  {
    LoweredEnglishNamesDistinct();
    EnglishNamesStartAscii();
    JapaneseNamesStartOutsideAscii();
    forall j | 0 <= j < i ensures !NameMatches(Catalogue[j], name) {
      if Catalogue[j].name == name {
        LowerSeparatesAlphabets(Catalogue[i].nameEn, name);
      }
    }
    assert FirstMatch(Catalogue, NameTest(name), i);
    FindAtFirstMatch(Catalogue, NameTest(name), i);
  }
}
