/**
 * What the three example prompts of the free-text form do when clicked and submitted:
 * none is blank, so each reaches the server action, and the keyword fallback
 * classifies each as the category written on its badge.
 */
module ExamplePrompts {
  import opened Text
  import opened MockRecommendations
  import opened SimpleNaturalInput
  import opened ExampleWords

  /** Words joined by spaces are not blank when the first word starts with a visible character. */
  lemma JoinedWordsNotBlank(words: seq<string>)
    requires |words| >= 1 && words[0] != "" && !IsWhiteSpace(words[0][0])
    ensures !Blank(Join(words, " "))
  {
    var t := Join(words, " ");
    if |words| > 1 {
      assert t == words[0] + " " + Join(words[1..], " ");
    }
    assert t[0] == words[0][0];
    BlankIffWhiteSpace(t);
  }

  /**
   * A space-joined text whose words hold a keyword of `p`, and none of a category tried
   * before `p`, is classified as `p`.
   */
  lemma ClassifyJoinedWords(words: seq<string>, lower: seq<string>, p: ProjectType, k: nat)
    requires p != Blog
    requires LowerAll(words) == lower
    requires k < |lower| && MentionsAny(lower[k], Keywords(p))
    requires forall q, i :: Rank(q) < Rank(p) && 0 <= i < |lower| ==> !MentionsAny(lower[i], Keywords(q))
    ensures Classify(Join(words, " ")) == p
  {
    var text := Join(words, " ");
    LowerJoin(words);
    assert Lower(text) == Join(lower, " ");
    MentionsAnyIff(lower[k], Keywords(p));
    var kw :| kw in Keywords(p) && Includes(lower[k], kw);
    JoinHasWord(lower, " ", k);
    IncludesTransitive(Lower(text), lower[k], kw);
    MentionsAnyIff(Lower(text), Keywords(p));
    forall q | Rank(q) < Rank(p)
      ensures !Mentions(Lower(text), q)
    {
      KeywordsAreWords(q);
      MentionsAnyWords(lower, Keywords(q));
    }
    ClassifyPriority(text, p);
  }

  /** The "Red Social" example is not blank, so clicking it and submitting reaches the server action. */
  lemma SocialExampleNotBlank()
    ensures !Blank(Examples[0].text)
  {
    JoinedWordsNotBlank(SocialPromptWords);
  }

  /** The "E-commerce" example is not blank, so clicking it and submitting reaches the server action. */
  lemma StoreExampleNotBlank()
    ensures !Blank(Examples[1].text)
  {
    JoinedWordsNotBlank(StorePromptWords);
  }

  /** The "Portafolio" example is not blank, so clicking it and submitting reaches the server action. */
  lemma FolioExampleNotBlank()
    ensures !Blank(Examples[2].text)
  {
    JoinedWordsNotBlank(FolioPromptWords);
  }

  /** The "Red Social" example is classified as social: "usuarios" holds "usuario" and no earlier category occurs. */
  lemma SocialExampleIsSocial()
    ensures Examples[0].category == "Red Social"
    ensures Classify(Examples[0].text) == Social
  {
    SocialPromptLowered();
    SocialPromptMentionsSocial();
    SocialWordsMissEarlierCategories();
    ClassifyJoinedWords(SocialPromptWords, SocialPromptLower, Social, 5);
  }

  /** The "E-commerce" example is classified as e-commerce: it holds "tienda", the first category tried. */
  lemma StoreExampleIsEcommerce()
    ensures Examples[1].category == "E-commerce"
    ensures Classify(Examples[1].text) == Ecommerce
  {
    StorePromptLowered();
    StorePromptMentionsEcommerce();
    ClassifyJoinedWords(StorePromptWords, StorePromptLower, Ecommerce, 2);
  }

  /** The "Portafolio" example is classified as portfolio: it holds "portafolio" and no e-commerce keyword. */
  lemma FolioExampleIsPortfolio()
    ensures Examples[2].category == "Portafolio"
    ensures Classify(Examples[2].text) == Portfolio
  {
    FolioPromptLowered();
    FolioPromptMentionsPortfolio();
    FolioWordsMissEarlierCategories();
    ClassifyJoinedWords(FolioPromptWords, FolioPromptLower, Portfolio, 3);
  }
}
