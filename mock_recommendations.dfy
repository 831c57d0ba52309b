/**
 * The rule-based fallback: a fixed table of six stacks keyed by project type, defaulting
 * to the blog stack, and a keyword classifier over free text that picks a table entry.
 */
module MockRecommendations {
  import opened Options
  import opened Text
  import opened Stack

  /** The six project types the table knows. */
  datatype ProjectType = Blog | Ecommerce | Portfolio | Dashboard | Social | Collaborative

  /** The property name under which each project type's stack is stored. */
  function Key(p: ProjectType): string
  {
    match p
    case Blog => "blog"
    case Ecommerce => "ecommerce"
    case Portfolio => "portfolio"
    case Dashboard => "dashboard"
    case Social => "social"
    case Collaborative => "collaborative"
  }

  /** Distinct project types are stored under distinct keys. */
  lemma KeyInjective(p: ProjectType, q: ProjectType)
    ensures Key(p) == Key(q) <==> p == q
  {
  }

  /** Property lookup in the table: the project type stored under `key`, if any. */
  function LookupKey(key: string): (r: Option<ProjectType>)
    ensures r.Some? ==> Key(r.value) == key
    ensures r.None? <==> forall p :: Key(p) != key
  {
    if key == "blog" then Some(Blog)
    else if key == "ecommerce" then Some(Ecommerce)
    else if key == "portfolio" then Some(Portfolio)
    else if key == "dashboard" then Some(Dashboard)
    else if key == "social" then Some(Social)
    else if key == "collaborative" then Some(Collaborative)
    else None
  }

  /**
   * The table: the stack stored under each project type. The long texts are written as
   * concatenations of short literals.
   */
  function Entry(p: ProjectType): Recommendation
  {
    match p
    case Blog =>
      Recommendation(
        frontend := Technology(
          "Next.js",
          "Framework React con " + "SSG perfecto para " + "blogs con excelente " +
          "SEO"),
        styling := Technology(
          "Tailwind CSS",
          "Framework CSS " + "utilitario que " + "permite diseños " +
          "rápidos y " + "consistentes"),
        backend := Technology(
          "Next.js API Routes",
          "Backend integrado que " + "simplifica el " + "desarrollo fullstack"),
        database := Technology(
          "MongoDB",
          "Base de datos NoSQL " + "flexible para " + "contenido de blog"),
        additionalTools := [
          Technology(
            "MDX",
            "Para escribir " + "contenido en Markdown " + "con componentes React"),
          Technology(
            "Vercel",
            "Plataforma de " + "deployment optimizada " + "para Next.js")],
        explanation :=
          "Este stack es ideal " + "para un blog porque " + "Next.js ofrece " +
          "generación estática " + "que mejora el SEO y " + "la velocidad de " +
          "carga. Tailwind CSS " + "permite crear diseños " + "atractivos " +
          "rápidamente, y " + "MongoDB es perfecto " + "para almacenar posts " +
          "y metadatos.")
    case Ecommerce =>
      Recommendation(
        frontend := Technology(
          "Next.js",
          "Framework React con " + "SSR/SSG ideal para " + "e-commerce con SEO " +
          "optimizado"),
        styling := Technology(
          "Tailwind CSS",
          "Framework CSS que " + "permite crear " + "interfaces de usuario " +
          "atractivas y " + "responsive"),
        backend := Technology(
          "Next.js + Stripe",
          "Backend integrado con " + "procesamiento de " + "pagos seguro"),
        database := Technology(
          "PostgreSQL",
          "Base de datos " + "relacional robusta " + "para productos, " +
          "usuarios y pedidos"),
        additionalTools := [
          Technology(
            "Stripe",
            "Procesamiento de " + "pagos seguro y " + "confiable"),
          Technology(
            "NextAuth.js",
            "Autenticación " + "completa para " + "usuarios"),
          Technology(
            "Prisma",
            "ORM moderno para " + "manejo de base de " + "datos")],
        explanation :=
          "Este stack es " + "perfecto para " + "e-commerce porque " +
          "combina el " + "rendimiento de " + "Next.js con la " +
          "seguridad de Stripe " + "para pagos. " + "PostgreSQL garantiza " +
          "la integridad de los " + "datos de productos y " + "pedidos, mientras que " +
          "NextAuth.js maneja la " + "autenticación de " + "usuarios de forma " +
          "segura.")
    case Portfolio =>
      Recommendation(
        frontend := Technology(
          "Next.js",
          "Framework React con " + "SSG perfecto para " + "portafolios con carga " +
          "rápida"),
        styling := Technology(
          "Tailwind CSS",
          "Framework CSS que " + "permite crear diseños " + "únicos y " +
          "profesionales"),
        backend := Technology(
          "Next.js API Routes",
          "Backend mínimo para " + "formularios de " + "contacto"),
        database := Technology(
          "No necesaria",
          "Los portafolios " + "estáticos no " + "requieren base de " +
          "datos"),
        additionalTools := [
          Technology(
            "Framer Motion",
            "Animaciones fluidas " + "para una experiencia " + "visual atractiva"),
          Technology(
            "EmailJS",
            "Envío de emails desde " + "formularios de " + "contacto")],
        explanation :=
          "Para un portafolio, " + "Next.js con " + "generación estática " +
          "es ideal porque " + "ofrece carga " + "ultra-rápida y " +
          "excelente SEO. " + "Tailwind CSS permite " + "crear diseños únicos, " +
          "y Framer Motion añade " + "animaciones " + "profesionales que " +
          "destacan tu trabajo.")
    case Dashboard =>
      Recommendation(
        frontend := Technology(
          "React + Vite",
          "Configuración rápida " + "y moderna para " + "aplicaciones " +
          "interactivas"),
        styling := Technology(
          "Tailwind CSS + shadcn/ui",
          "Componentes " + "pre-construidos para " + "dashboards " +
          "profesionales"),
        backend := Technology(
          "Node.js + Express",
          "Backend robusto para " + "APIs y manejo de " + "datos en tiempo real"),
        database := Technology(
          "PostgreSQL",
          "Base de datos " + "relacional para datos " + "estructurados y " +
          "reportes"),
        additionalTools := [
          Technology(
            "Chart.js",
            "Librería para " + "gráficos y " + "visualización de " +
            "datos"),
          Technology(
            "Socket.io",
            "Comunicación en " + "tiempo real para " + "actualizaciones live"),
          Technology(
            "JWT",
            "Autenticación segura " + "para usuarios " + "administrativos")],
        explanation :=
          "Este stack es " + "perfecto para " + "dashboards porque " +
          "React ofrece " + "interactividad " + "fluida, shadcn/ui " +
          "proporciona " + "componentes " + "profesionales, y " +
          "PostgreSQL maneja " + "eficientemente las " + "consultas complejas " +
          "necesarias para " + "reportes y análisis.")
    case Social =>
      Recommendation(
        frontend := Technology(
          "Next.js",
          "Framework fullstack " + "ideal para " + "aplicaciones sociales " +
          "complejas"),
        styling := Technology(
          "Tailwind CSS",
          "Estilos flexibles " + "para interfaces de " + "usuario dinámicas"),
        backend := Technology(
          "Next.js + Supabase",
          "Backend como servicio " + "con autenticación y " + "tiempo real"),
        database := Technology(
          "PostgreSQL (Supabase)",
          "Base de datos " + "relacional con " + "funciones en tiempo " +
          "real"),
        additionalTools := [
          Technology(
            "Supabase Auth",
            "Sistema de " + "autenticación " + "completo con OAuth"),
          Technology(
            "Supabase Realtime",
            "Actualizaciones en " + "tiempo real para " + "feeds y mensajes"),
          Technology(
            "Cloudinary",
            "Gestión y " + "optimización de " + "imágenes de usuarios")],
        explanation :=
          "Para una red social, " + "este stack ofrece " + "todo lo necesario: " +
          "autenticación " + "robusta, " + "actualizaciones en " +
          "tiempo real, y " + "escalabilidad. " + "Supabase simplifica " +
          "el backend mientras " + "proporciona todas las " + "funciones avanzadas " +
          "que necesita una " + "aplicación social.")
    case Collaborative =>
      Recommendation(
        frontend := Technology(
          "React + TypeScript",
          "Tipado fuerte para " + "aplicaciones " + "colaborativas " +
          "complejas"),
        styling := Technology(
          "Tailwind CSS + Headless UI",
          "Componentes " + "accesibles para " + "interfaces " +
          "colaborativas"),
        backend := Technology(
          "Node.js + Socket.io",
          "Backend en tiempo " + "real para " + "colaboración " +
          "simultánea"),
        database := Technology(
          "MongoDB",
          "Flexibilidad para " + "documentos " + "colaborativos y " +
          "estructuras dinámicas"),
        additionalTools := [
          Technology(
            "Socket.io",
            "Comunicación " + "bidireccional en " + "tiempo real"),
          Technology(
            "Yjs",
            "Algoritmos CRDT para " + "edición colaborativa " + "sin conflictos"),
          Technology(
            "Auth0",
            "Gestión de usuarios y " + "permisos granulares")],
        explanation :=
          "Este stack está " + "optimizado para " + "colaboración en " +
          "tiempo real. Yjs " + "maneja la " + "sincronización de " +
          "datos sin conflictos, " + "Socket.io permite " + "comunicación " +
          "instantánea, y " + "MongoDB ofrece la " + "flexibilidad " +
          "necesaria para " + "estructuras de datos " + "colaborativas " +
          "complejas.")
  }

  /** The blog entry is complete, with two tools. */
  lemma BlogEntryComplete()
    ensures WellFormed(Entry(Blog)) && |Entry(Blog).additionalTools| == 2
  {
  }

  /** The e-commerce entry is complete, with three tools. */
  lemma EcommerceEntryComplete()
    ensures WellFormed(Entry(Ecommerce)) && |Entry(Ecommerce).additionalTools| == 3
  {
  }

  /** The portfolio entry is complete, with two tools. */
  lemma PortfolioEntryComplete()
    ensures WellFormed(Entry(Portfolio)) && |Entry(Portfolio).additionalTools| == 2
  {
  }

  /** The dashboard entry is complete, with three tools. */
  lemma DashboardEntryComplete()
    ensures WellFormed(Entry(Dashboard)) && |Entry(Dashboard).additionalTools| == 3
  {
  }

  /** The social entry is complete, with three tools. */
  lemma SocialEntryComplete()
    ensures WellFormed(Entry(Social)) && |Entry(Social).additionalTools| == 3
  {
  }

  /** The collaborative entry is complete, with three tools. */
  lemma CollaborativeEntryComplete()
    ensures WellFormed(Entry(Collaborative)) && |Entry(Collaborative).additionalTools| == 3
  {
  }

  /**
   * The structured-form answers handed to the fallback. Each field may be missing;
   * `features` is a list of feature identifiers.
   */
  datatype FormData = FormData(
    projectType: Option<string>,
    experienceLevel: Option<string>,
    features: Option<seq<string>>,
    backendPreference: Option<string>,
    technologyPreference: Option<string>)

  /**
   * The project type whose stack `getMockRecommendation` returns: the one stored under
   * `projectType`, where a missing or empty project type means "blog" and an unknown
   * key falls back to the blog stack.
   */
  function SelectedType(formData: FormData): (p: ProjectType)
    ensures forall q :: formData.projectType == Some(Key(q)) ==> p == q
    ensures (forall q :: formData.projectType != Some(Key(q))) ==> p == Blog
  {
    var key := if Truthy(formData.projectType) then formData.projectType.value else "blog";
    match LookupKey(key)
    case Some(q) => q
    case None => Blog
  }

  /** `getMockRecommendation`: the table entry of the selected project type. */
  function GetMockRecommendation(formData: FormData): Recommendation
  {
    Entry(SelectedType(formData))
  }

  /** A form naming one of the six keys gets exactly that key's stack. */
  lemma MockEntryForKey(formData: FormData, p: ProjectType)
    requires formData.projectType == Some(Key(p))
    ensures GetMockRecommendation(formData) == Entry(p)
  {
    assert SelectedType(formData) == p;
  }

  /** A missing or empty project type, or one outside the six keys, gets the blog stack. */
  lemma MockDefaultsToBlog(formData: FormData)
    requires forall p :: formData.projectType != Some(Key(p))
    ensures GetMockRecommendation(formData) == Entry(Blog)
  {
    assert SelectedType(formData) == Blog;
  }

  /** Only `projectType` is read: forms that agree on it get the same stack. */
  lemma MockReadsOnlyProjectType(f: FormData, g: FormData)
    requires f.projectType == g.projectType
    ensures GetMockRecommendation(f) == GetMockRecommendation(g)
  {
    assert SelectedType(f) == SelectedType(g);
  }

  // ---------------------------------------------------------------------------
  // Keyword classifier: getMockNaturalLanguageRecommendation
  // ---------------------------------------------------------------------------

  const EcommerceKeywords: seq<string> := ["tienda", "venta", "pago", "producto", "carrito", "compra"]
  const PortfolioKeywords: seq<string> := ["portafolio", "portfolio", "trabajo", "cv", "curriculum", "personal"]
  const DashboardKeywords: seq<string> := ["dashboard", "panel", "admin", "gráfico", "reporte", "analítica"]
  const SocialKeywords: seq<string> :=
    ["social", "usuario", "post", "comentario", "seguir", "feed", "mensaje", "chat"]
  const CollaborativeKeywords: seq<string> :=
    ["colabor", "equipo", "compartir", "editar", "tiempo real", "simultáneo"]

  /** The keywords that select each category; blog is the default and has none. */
  function Keywords(p: ProjectType): seq<string>
  {
    match p
    case Ecommerce => EcommerceKeywords
    case Portfolio => PortfolioKeywords
    case Dashboard => DashboardKeywords
    case Social => SocialKeywords
    case Collaborative => CollaborativeKeywords
    case Blog => []
  }

  /** Position of each category in the order the classifier tries them; blog comes last. */
  function Rank(p: ProjectType): nat
  {
    match p
    case Ecommerce => 0
    case Portfolio => 1
    case Dashboard => 2
    case Social => 3
    case Collaborative => 4
    case Blog => 5
  }

  /** The chain of `text.includes(k1) || text.includes(k2) || ...`. */
  predicate MentionsAny(text: string, keywords: seq<string>)
  {
    |keywords| > 0 && (Includes(text, keywords[0]) || MentionsAny(text, keywords[1..]))
  }

  /** The chain holds exactly when one of the keywords occurs in the text. */
  lemma {:induction false} MentionsAnyIff(text: string, keywords: seq<string>)
    ensures MentionsAny(text, keywords) <==> exists i :: 0 <= i < |keywords| && Includes(text, keywords[i])
  {
    if |keywords| > 0 {
      MentionsAnyIff(text, keywords[1..]);
      assert forall i :: 0 < i < |keywords| ==> keywords[i] == keywords[1..][i - 1];
    }
  }

  /** The text contains one of the keywords of `p`. */
  predicate Mentions(text: string, p: ProjectType)
  {
    MentionsAny(text, Keywords(p))
  }

  /** Keywords without spaces are found in space-joined words exactly when one word holds one. */
  lemma MentionsAnyWords(words: seq<string>, keywords: seq<string>)
    requires forall j :: 0 <= j < |keywords| ==> keywords[j] != "" && ' ' !in keywords[j]
    ensures MentionsAny(Join(words, " "), keywords) <==>
      exists i :: 0 <= i < |words| && MentionsAny(words[i], keywords)
  {
    forall j | 0 <= j < |keywords|
      ensures Includes(Join(words, " "), keywords[j]) <==>
        exists i :: 0 <= i < |words| && Includes(words[i], keywords[j])
    {
      IncludesWords(words, keywords[j]);
    }
    MentionsAnyIff(Join(words, " "), keywords);
    forall i | 0 <= i < |words| {
      MentionsAnyIff(words[i], keywords);
    }
  }

  /** Every keyword except "tiempo real" is a single non-empty word, and only the collaborative list has that one. */
  lemma KeywordsAreWords(p: ProjectType)
    ensures forall j :: 0 <= j < |Keywords(p)| && Keywords(p)[j] != "tiempo real" ==>
      Keywords(p)[j] != "" && ' ' !in Keywords(p)[j]
    ensures forall j :: 0 <= j < |Keywords(p)| && Keywords(p)[j] == "tiempo real" ==> p == Collaborative
  {
  }

  /** The category the classifier picks for `description`. */
  function Classify(description: string): ProjectType
  {
    var lowerDesc := Lower(description);
    if Mentions(lowerDesc, Ecommerce) then Ecommerce
    else if Mentions(lowerDesc, Portfolio) then Portfolio
    else if Mentions(lowerDesc, Dashboard) then Dashboard
    else if Mentions(lowerDesc, Social) then Social
    else if Mentions(lowerDesc, Collaborative) then Collaborative
    else Blog
  }

  /** `getMockNaturalLanguageRecommendation`: the table entry of the classified category. */
  function GetMockNaturalLanguageRecommendation(description: string): Recommendation
  {
    GetMockRecommendation(FormData(Some(Key(Classify(description))), None, None, None, None))
  }

  /** The free-text fallback returns the table entry of the classified category. */
  lemma NaturalIsEntryOfClass(description: string)
    ensures GetMockNaturalLanguageRecommendation(description) == Entry(Classify(description))
  {
    MockEntryForKey(FormData(Some(Key(Classify(description))), None, None, None, None), Classify(description));
  }

  /**
   * First match wins: the classifier picks `p` exactly when the text mentions a keyword
   * of `p` (or `p` is the blog default) and no category tried earlier is mentioned.
   */
  lemma ClassifyPriority(description: string, p: ProjectType)
    ensures Classify(description) == p <==>
      (p == Blog || Mentions(Lower(description), p))
      && forall q :: Rank(q) < Rank(p) ==> !Mentions(Lower(description), q)
  {
    var t := Lower(description);
    assert !Mentions(t, Blog);
  }

  /** Text mentioning no keyword at all is classified as a blog, and only such text. */
  lemma ClassifyDefaultsToBlog(description: string)
    ensures Classify(description) == Blog <==> forall q :: !Mentions(Lower(description), q)
  {
    ClassifyPriority(description, Blog);
  }

  /** Case does not matter: a description and its lower-cased form are classified alike. */
  lemma ClassifyCaseInsensitive(description: string)
    ensures Classify(Lower(description)) == Classify(description)
  {
    LowerIdempotent(description);
  }

  /** Text containing both "tienda" and "chat" mentions social keywords but is e-commerce. */
  lemma TiendaBeatsChat(description: string)
    requires Includes(Lower(description), "tienda") && Includes(Lower(description), "chat")
    ensures Mentions(Lower(description), Social)
    ensures Classify(description) == Ecommerce
  {
    assert EcommerceKeywords[0] == "tienda";
    assert SocialKeywords[7] == "chat";
    MentionsAnyIff(Lower(description), EcommerceKeywords);
    MentionsAnyIff(Lower(description), SocialKeywords);
  }

  /**
   * Matching is by substring, not by word: once earlier categories are ruled out,
   * "colaborativa" selects the collaborative stack through the keyword "colabor".
   */
  lemma ColaborativaMatchesColabor(description: string)
    requires Includes(Lower(description), "colaborativa")
    requires forall q :: Rank(q) < Rank(Collaborative) ==> !Mentions(Lower(description), q)
    ensures Classify(description) == Collaborative
  {
    assert "colaborativa" == "" + "colabor" + "ativa";
    IncludesInfix("", "colabor", "ativa");
    IncludesTransitive(Lower(description), "colaborativa", "colabor");
    assert CollaborativeKeywords[0] == "colabor";
    MentionsAnyIff(Lower(description), CollaborativeKeywords);
    ClassifyPriority(description, Collaborative);
  }

  /**
   * "tiempo real" is the one keyword with a space: a description without spaces that is
   * classified as collaborative holds one of the other collaborative keywords.
   */
  lemma TiempoRealNeedsSpace(description: string)
    requires ' ' !in description
    requires Classify(description) == Collaborative
    ensures exists j ::
      0 <= j < |CollaborativeKeywords| && CollaborativeKeywords[j] != "tiempo real" &&
      Includes(Lower(description), CollaborativeKeywords[j])
  {
    var t := Lower(description);
    forall n | 0 <= n < |t|
      ensures t[n] != ' '
    {
      assert description[n] != ' ';
    }
    ClassifyPriority(description, Collaborative);
    MentionsAnyIff(t, CollaborativeKeywords);
    var j :| 0 <= j < |CollaborativeKeywords| && Includes(t, CollaborativeKeywords[j]);
    if CollaborativeKeywords[j] == "tiempo real" {
      IncludesChar(t, "tiempo real", 6);
      assert false;
    }
  }
}
