/**
 * Word-by-word facts about the three example prompts of the free-text form: each
 * prompt lower-cased word by word, and which category's keywords each lower-cased
 * word holds or misses. The classifier's verdict on the whole prompts is derived
 * from these in module ExamplePrompts.
 */
module ExampleWords {
  import opened Text
  import opened MockRecommendations
  import opened SimpleNaturalInput

  const SocialPromptLower: seq<string> := ["quiero", "una", "app", "donde", "los", "usuarios", "se", "registren", "y", "escriban", "posts"]
  const StorePromptLower: seq<string> := ["necesito", "una", "tienda", "online", "para", "vender", "productos", "con", "pagos"]
  const FolioPromptLower: seq<string> := ["quiero", "crear", "un", "portafolio", "personal", "para", "mostrar", "proyectos"]

  lemma SocialPromptLowered()
    ensures LowerAll(SocialPromptWords) == SocialPromptLower
  {
    assert Lower("Quiero") == "quiero";
    forall i | 1 <= i < |SocialPromptWords| ensures Lower(SocialPromptWords[i]) == SocialPromptWords[i] {
    }
  }

  lemma StorePromptLowered()
    ensures LowerAll(StorePromptWords) == StorePromptLower
  {
    assert Lower("Necesito") == "necesito";
    forall i | 1 <= i < |StorePromptWords| ensures Lower(StorePromptWords[i]) == StorePromptWords[i] {
    }
  }

  lemma FolioPromptLowered()
    ensures LowerAll(FolioPromptWords) == FolioPromptLower
  {
    assert Lower("Quiero") == "quiero";
    forall i | 1 <= i < |FolioPromptWords| ensures Lower(FolioPromptWords[i]) == FolioPromptWords[i] {
    }
  }

  lemma QuieroMissesEcommerce()
    ensures !MentionsAny("quiero", EcommerceKeywords)
  {
  }

  lemma QuieroMissesPortfolio()
    ensures !MentionsAny("quiero", PortfolioKeywords)
  {
  }

  lemma QuieroMissesDashboard()
    ensures !MentionsAny("quiero", DashboardKeywords)
  {
  }

  lemma UnaMissesEcommerce()
    ensures !MentionsAny("una", EcommerceKeywords)
  {
  }

  lemma UnaMissesPortfolio()
    ensures !MentionsAny("una", PortfolioKeywords)
  {
  }

  lemma UnaMissesDashboard()
    ensures !MentionsAny("una", DashboardKeywords)
  {
  }

  lemma AppMissesEcommerce()
    ensures !MentionsAny("app", EcommerceKeywords)
  {
  }

  lemma AppMissesPortfolio()
    ensures !MentionsAny("app", PortfolioKeywords)
  {
  }

  lemma AppMissesDashboard()
    ensures !MentionsAny("app", DashboardKeywords)
  {
  }

  lemma DondeMissesEcommerce()
    ensures !MentionsAny("donde", EcommerceKeywords)
  {
  }

  lemma DondeMissesPortfolio()
    ensures !MentionsAny("donde", PortfolioKeywords)
  {
  }

  lemma DondeMissesDashboard()
    ensures !MentionsAny("donde", DashboardKeywords)
  {
  }

  lemma LosMissesEcommerce()
    ensures !MentionsAny("los", EcommerceKeywords)
  {
  }

  lemma LosMissesPortfolio()
    ensures !MentionsAny("los", PortfolioKeywords)
  {
  }

  lemma LosMissesDashboard()
    ensures !MentionsAny("los", DashboardKeywords)
  {
  }

  lemma UsuariosMissesEcommerce()
    ensures !MentionsAny("usuarios", EcommerceKeywords)
  {
  }

  lemma UsuariosMissesPortfolio()
    ensures !MentionsAny("usuarios", PortfolioKeywords)
  {
  }

  lemma UsuariosMissesDashboard()
    ensures !MentionsAny("usuarios", DashboardKeywords)
  {
  }

  lemma SeMissesEcommerce()
    ensures !MentionsAny("se", EcommerceKeywords)
  {
  }

  lemma SeMissesPortfolio()
    ensures !MentionsAny("se", PortfolioKeywords)
  {
  }

  lemma SeMissesDashboard()
    ensures !MentionsAny("se", DashboardKeywords)
  {
  }

  lemma RegistrenMissesEcommerce()
    ensures !MentionsAny("registren", EcommerceKeywords)
  {
  }

  lemma RegistrenMissesPortfolio()
    ensures !MentionsAny("registren", PortfolioKeywords)
  {
  }

  lemma RegistrenMissesDashboard()
    ensures !MentionsAny("registren", DashboardKeywords)
  {
  }

  lemma YMissesEcommerce()
    ensures !MentionsAny("y", EcommerceKeywords)
  {
  }

  lemma YMissesPortfolio()
    ensures !MentionsAny("y", PortfolioKeywords)
  {
  }

  lemma YMissesDashboard()
    ensures !MentionsAny("y", DashboardKeywords)
  {
  }

  lemma EscribanMissesEcommerce()
    ensures !MentionsAny("escriban", EcommerceKeywords)
  {
  }

  lemma EscribanMissesPortfolio()
    ensures !MentionsAny("escriban", PortfolioKeywords)
  {
  }

  lemma EscribanMissesDashboard()
    ensures !MentionsAny("escriban", DashboardKeywords)
  {
  }

  lemma PostsMissesEcommerce()
    ensures !MentionsAny("posts", EcommerceKeywords)
  {
  }

  lemma PostsMissesPortfolio()
    ensures !MentionsAny("posts", PortfolioKeywords)
  {
  }

  lemma PostsMissesDashboard()
    ensures !MentionsAny("posts", DashboardKeywords)
  {
  }

  lemma CrearMissesEcommerce()
    ensures !MentionsAny("crear", EcommerceKeywords)
  {
  }

  lemma UnMissesEcommerce()
    ensures !MentionsAny("un", EcommerceKeywords)
  {
  }

  lemma PortafolioMissesEcommerce()
    ensures !MentionsAny("portafolio", EcommerceKeywords)
  {
  }

  lemma PersonalMissesEcommerce()
    ensures !MentionsAny("personal", EcommerceKeywords)
  {
  }

  lemma ParaMissesEcommerce()
    ensures !MentionsAny("para", EcommerceKeywords)
  {
  }

  lemma MostrarMissesEcommerce()
    ensures !MentionsAny("mostrar", EcommerceKeywords)
  {
  }

  lemma ProyectosMissesEcommerce()
    ensures !MentionsAny("proyectos", EcommerceKeywords)
  {
  }

  /** No word among the first six of the lower-cased social prompt holds an e-commerce keyword. */
  lemma SocialWordsMissEcommerceA()
    ensures forall i :: 0 <= i < 6 ==> !MentionsAny(SocialPromptLower[i], EcommerceKeywords)
  {
    forall i | 0 <= i < 6
      ensures !MentionsAny(SocialPromptLower[i], EcommerceKeywords)
    {
      if i == 0 {
        QuieroMissesEcommerce();
      } else if i == 1 {
        UnaMissesEcommerce();
      } else if i == 2 {
        AppMissesEcommerce();
      } else if i == 3 {
        DondeMissesEcommerce();
      } else if i == 4 {
        LosMissesEcommerce();
      } else {
        UsuariosMissesEcommerce();
      }
    }
  }

  /** No word among the last five of the lower-cased social prompt holds an e-commerce keyword. */
  lemma SocialWordsMissEcommerceB()
    ensures forall i :: 6 <= i < 11 ==> !MentionsAny(SocialPromptLower[i], EcommerceKeywords)
  {
    forall i | 6 <= i < 11
      ensures !MentionsAny(SocialPromptLower[i], EcommerceKeywords)
    {
      if i == 6 {
        SeMissesEcommerce();
      } else if i == 7 {
        RegistrenMissesEcommerce();
      } else if i == 8 {
        YMissesEcommerce();
      } else if i == 9 {
        EscribanMissesEcommerce();
      } else {
        PostsMissesEcommerce();
      }
    }
  }

  /** No word among the first six of the lower-cased social prompt holds a portfolio keyword. */
  lemma SocialWordsMissPortfolioA()
    ensures forall i :: 0 <= i < 6 ==> !MentionsAny(SocialPromptLower[i], PortfolioKeywords)
  {
    forall i | 0 <= i < 6
      ensures !MentionsAny(SocialPromptLower[i], PortfolioKeywords)
    {
      if i == 0 {
        QuieroMissesPortfolio();
      } else if i == 1 {
        UnaMissesPortfolio();
      } else if i == 2 {
        AppMissesPortfolio();
      } else if i == 3 {
        DondeMissesPortfolio();
      } else if i == 4 {
        LosMissesPortfolio();
      } else {
        UsuariosMissesPortfolio();
      }
    }
  }

  /** No word among the last five of the lower-cased social prompt holds a portfolio keyword. */
  lemma SocialWordsMissPortfolioB()
    ensures forall i :: 6 <= i < 11 ==> !MentionsAny(SocialPromptLower[i], PortfolioKeywords)
  {
    forall i | 6 <= i < 11
      ensures !MentionsAny(SocialPromptLower[i], PortfolioKeywords)
    {
      if i == 6 {
        SeMissesPortfolio();
      } else if i == 7 {
        RegistrenMissesPortfolio();
      } else if i == 8 {
        YMissesPortfolio();
      } else if i == 9 {
        EscribanMissesPortfolio();
      } else {
        PostsMissesPortfolio();
      }
    }
  }

  /** No word among the first six of the lower-cased social prompt holds a dashboard keyword. */
  lemma SocialWordsMissDashboardA()
    ensures forall i :: 0 <= i < 6 ==> !MentionsAny(SocialPromptLower[i], DashboardKeywords)
  {
    forall i | 0 <= i < 6
      ensures !MentionsAny(SocialPromptLower[i], DashboardKeywords)
    {
      if i == 0 {
        QuieroMissesDashboard();
      } else if i == 1 {
        UnaMissesDashboard();
      } else if i == 2 {
        AppMissesDashboard();
      } else if i == 3 {
        DondeMissesDashboard();
      } else if i == 4 {
        LosMissesDashboard();
      } else {
        UsuariosMissesDashboard();
      }
    }
  }

  /** No word among the last five of the lower-cased social prompt holds a dashboard keyword. */
  lemma SocialWordsMissDashboardB()
    ensures forall i :: 6 <= i < 11 ==> !MentionsAny(SocialPromptLower[i], DashboardKeywords)
  {
    forall i | 6 <= i < 11
      ensures !MentionsAny(SocialPromptLower[i], DashboardKeywords)
    {
      if i == 6 {
        SeMissesDashboard();
      } else if i == 7 {
        RegistrenMissesDashboard();
      } else if i == 8 {
        YMissesDashboard();
      } else if i == 9 {
        EscribanMissesDashboard();
      } else {
        PostsMissesDashboard();
      }
    }
  }

  /** No word among the first three of the lower-cased portfolio prompt holds an e-commerce keyword. */
  lemma FolioWordsMissEcommerceA()
    ensures forall i :: 0 <= i < 3 ==> !MentionsAny(FolioPromptLower[i], EcommerceKeywords)
  {
    forall i | 0 <= i < 3
      ensures !MentionsAny(FolioPromptLower[i], EcommerceKeywords)
    {
      if i == 0 {
        QuieroMissesEcommerce();
      } else if i == 1 {
        CrearMissesEcommerce();
      } else {
        UnMissesEcommerce();
      }
    }
  }

  /** Neither the fourth nor the fifth word of the lower-cased portfolio prompt holds an e-commerce keyword. */
  lemma FolioWordsMissEcommerceB()
    ensures forall i :: 3 <= i < 5 ==> !MentionsAny(FolioPromptLower[i], EcommerceKeywords)
  {
    forall i | 3 <= i < 5
      ensures !MentionsAny(FolioPromptLower[i], EcommerceKeywords)
    {
      if i == 3 {
        PortafolioMissesEcommerce();
      } else {
        PersonalMissesEcommerce();
      }
    }
  }

  /** No word among the last three of the lower-cased portfolio prompt holds an e-commerce keyword. */
  lemma FolioWordsMissEcommerceC()
    ensures forall i :: 5 <= i < 8 ==> !MentionsAny(FolioPromptLower[i], EcommerceKeywords)
  {
    forall i | 5 <= i < 8
      ensures !MentionsAny(FolioPromptLower[i], EcommerceKeywords)
    {
      if i == 5 {
        ParaMissesEcommerce();
      } else if i == 6 {
        MostrarMissesEcommerce();
      } else {
        ProyectosMissesEcommerce();
      }
    }
  }

  /** No word of the lower-cased social prompt holds an e-commerce keyword. */
  lemma SocialWordsMissEcommerce()
    ensures forall i :: 0 <= i < |SocialPromptLower| ==> !MentionsAny(SocialPromptLower[i], EcommerceKeywords)
  {
    SocialWordsMissEcommerceA();
    SocialWordsMissEcommerceB();
  }

  /** No word of the lower-cased social prompt holds a portfolio keyword. */
  lemma SocialWordsMissPortfolio()
    ensures forall i :: 0 <= i < |SocialPromptLower| ==> !MentionsAny(SocialPromptLower[i], PortfolioKeywords)
  {
    SocialWordsMissPortfolioA();
    SocialWordsMissPortfolioB();
  }

  /** No word of the lower-cased social prompt holds a dashboard keyword. */
  lemma SocialWordsMissDashboard()
    ensures forall i :: 0 <= i < |SocialPromptLower| ==> !MentionsAny(SocialPromptLower[i], DashboardKeywords)
  {
    SocialWordsMissDashboardA();
    SocialWordsMissDashboardB();
  }

  /** "usuarios" holds the social keyword "usuario". */
  lemma UsuariosMentionsSocial()
    ensures MentionsAny("usuarios", SocialKeywords)
  {
    assert "usuarios" == "" + "usuario" + "s";
    IncludesInfix("", "usuario", "s");
    assert SocialKeywords[1] == "usuario";
    MentionsAnyIff("usuarios", SocialKeywords);
  }

  /** The sixth word of the lower-cased social prompt holds a social keyword. */
  lemma SocialPromptMentionsSocial()
    ensures MentionsAny(SocialPromptLower[5], Keywords(Social))
  {
    UsuariosMentionsSocial();
  }

  /** No word of the lower-cased social prompt holds an e-commerce, portfolio or dashboard keyword. */
  lemma SocialWordsMissEarlierCategories()
    ensures forall q, i :: Rank(q) < Rank(Social) && 0 <= i < |SocialPromptLower| ==>
      !MentionsAny(SocialPromptLower[i], Keywords(q))
  {
    SocialWordsMissEcommerce();
    SocialWordsMissPortfolio();
    SocialWordsMissDashboard();
  }

  /** The third word of the lower-cased store prompt is the e-commerce keyword "tienda". */
  lemma StorePromptMentionsEcommerce()
    ensures MentionsAny(StorePromptLower[2], Keywords(Ecommerce))
  {
    assert StorePromptLower[2] == EcommerceKeywords[0];
  }

  /** The fourth word of the lower-cased portfolio prompt is the portfolio keyword "portafolio". */
  lemma FolioPromptMentionsPortfolio()
    ensures MentionsAny(FolioPromptLower[3], Keywords(Portfolio))
  {
    assert FolioPromptLower[3] == PortfolioKeywords[0];
  }

  /** No word of the lower-cased portfolio prompt holds an e-commerce keyword. */
  lemma FolioWordsMissEarlierCategories()
    ensures forall q, i :: Rank(q) < Rank(Portfolio) && 0 <= i < |FolioPromptLower| ==>
      !MentionsAny(FolioPromptLower[i], Keywords(q))
  {
    FolioWordsMissEcommerceA();
    FolioWordsMissEcommerceB();
    FolioWordsMissEcommerceC();
  }
}
