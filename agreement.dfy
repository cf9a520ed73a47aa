/** The two copies of the strategy table: the catalogue the result screen
    colours its badges from, and the list the server puts into its analysis
    prompt. */
module Agreement {
  import opened Wrappers
  import Strategies
  import Server

  /** Both copies hold the same sixteen strategies in the same order: the
      same ids, Japanese names and English names. */
  lemma CopiesAgree()
    ensures |Strategies.Catalogue| == |Server.PromptStrategies| == 16
    ensures forall i :: 0 <= i < 16 ==>
              && Strategies.Catalogue[i].id == Server.PromptStrategies[i].id
              && Strategies.Catalogue[i].name == Server.PromptStrategies[i].name
              && Strategies.Catalogue[i].nameEn == Server.PromptStrategies[i].nameEn
  {
  }

  /** An id or a Japanese name taken from the prompt's list finds, on the
      client, the card in the same position. */
  lemma PromptEntryFindsCard(i: int)
    requires 0 <= i < |Server.PromptStrategies|
    ensures Strategies.GetStrategyById(Strategies.Catalogue, Server.PromptStrategies[i].id) == Some(Strategies.Catalogue[i])
    ensures Strategies.GetStrategyByName(Strategies.Catalogue, Server.PromptStrategies[i].name) == Some(Strategies.Catalogue[i])
  {
    CopiesAgree();
    Strategies.GetStrategyByIdOfCard(i);
    Strategies.GetStrategyByNameOfCard(i);
  }
}
