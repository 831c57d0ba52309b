/**
 * The free-text form: a description box, three example prompts that fill it, and a
 * submit that refuses blank text before asking the server action for a recommendation.
 */
module SimpleNaturalInput {
  import opened Options
  import opened Text
  import opened Stack
  import opened MockRecommendations
  import opened Actions

  /** One clickable example: the prompt it fills in and the category badge shown on it. */
  datatype Example = Example(text: string, category: string)

  /** The words of the three example prompts, which are these words joined by single spaces. */
  const SocialPromptWords: seq<string> := ["Quiero", "una", "app", "donde", "los", "usuarios", "se", "registren", "y", "escriban", "posts"]
  const StorePromptWords: seq<string> := ["Necesito", "una", "tienda", "online", "para", "vender", "productos", "con", "pagos"]
  const FolioPromptWords: seq<string> := ["Quiero", "crear", "un", "portafolio", "personal", "para", "mostrar", "proyectos"]

  /** The example cards, in display order. */
  const Examples: seq<Example> := [
    Example(Join(SocialPromptWords, " "), "Red Social"),
    Example(Join(StorePromptWords, " "), "E-commerce"),
    Example(Join(FolioPromptWords, " "), "Portafolio")
  ]

  const BlankMessage := "Por favor, describe tu proyecto"
  const FailureMessage := "Error al procesar la solicitud"

  /** `!description.trim()`: nothing but white space. */
  predicate Blank(description: string)
  {
    Trim(description) == ""
  }

  /** The blank test rejects exactly the texts made only of white space, the empty text included. */
  lemma BlankIffWhiteSpace(description: string)
    ensures Blank(description) <==> forall i :: 0 <= i < |description| ==> IsWhiteSpace(description[i])
  {
    TrimEmptyIffBlank(description);
  }

  /**
   * The awaited call in `handleSubmit`, on values: `getNaturalLanguageRecommendation` on
   * the text, and the recommendation shown afterwards: the result when the response is
   * delivered, the one shown before otherwise.
   */
  method AwaitTextRecommendation(env: Env, text: string, reply: Reply, parse: string -> Option<Recommendation>,
                                 delivered: bool, shown: Option<Recommendation>)
    returns (next: Option<Recommendation>, request: Option<GenerateOptions>)
    ensures SentFromText(request, env, text)
    ensures delivered ==> next == Some(RecommendFromText(env, text, reply, parse))
    ensures !delivered ==> next == shown
  {
    var result;
    result, request := GetNaturalLanguageRecommendation(env, text, reply, parse);
    next := if delivered then Some(result) else shown;
  }

  class SimpleNaturalInput {
    var description: string
    var isLoading: bool
    var recommendation: Option<Recommendation>
    var error: string

    constructor()
      ensures description == "" && !isLoading && recommendation.None? && error == ""
    {
      description := "";
      isLoading := false;
      recommendation := None;
      error := "";
    }

    /** The text area's `onChange`: the description follows what was typed. */
    method HandleDescriptionChange(value: string)
      modifies this
      ensures description == value
      ensures isLoading == old(isLoading) && recommendation == old(recommendation) && error == old(error)
    {
      description := value;
    }

    /**
     * `handleSubmit`: a blank description only sets the blank message. Otherwise the error
     * is cleared, `getNaturalLanguageRecommendation` is called with the description as
     * typed, and loading ends whatever happens. `env`, `reply` and `parse` stand for the
     * server's environment, the model's answer and JSON.parse; `delivered` is false when
     * the action's response never arrives, which shows the failure message. `request` is
     * what the action sent to the model: nothing for a blank description.
     */
    method HandleSubmit(env: Env, reply: Reply, parse: string -> Option<Recommendation>, delivered: bool)
      returns (called: bool, request: Option<GenerateOptions>)
      modifies this
      ensures description == old(description)
      ensures called <==> !Blank(description)
      ensures !called ==> request.None? && error == BlankMessage && isLoading == old(isLoading) && recommendation == old(recommendation)
      ensures called ==> !isLoading && SentFromText(request, env, description)
      ensures called && delivered ==>
        error == "" && recommendation == Some(RecommendFromText(env, description, reply, parse))
      ensures called && !delivered ==> error == FailureMessage && recommendation == old(recommendation)
    {
      if Trim(description) == "" {
        error := BlankMessage;
        return false, None;
      }
      called := true;
      request := RequestRecommendation(env, reply, parse, delivered);
    }

    /**
     * The part of `handleSubmit` past the blank check: clear the error, raise the loading
     * flag, await `getNaturalLanguageRecommendation` on the description, show its result or
     * the failure message, and lower the flag.
     */
    method RequestRecommendation(env: Env, reply: Reply, parse: string -> Option<Recommendation>, delivered: bool)
      returns (request: Option<GenerateOptions>)
      modifies this
      ensures description == old(description) && !isLoading
      ensures SentFromText(request, env, description)
      ensures delivered ==> error == "" && recommendation == Some(RecommendFromText(env, description, reply, parse))
      ensures !delivered ==> error == FailureMessage && recommendation == old(recommendation)
    {
      error := "";
      isLoading := true;
      var next;
      next, request := AwaitTextRecommendation(env, description, reply, parse, delivered, recommendation);
      if !delivered {
        error := FailureMessage;
      }
      isLoading := false;
      recommendation := next;
    }

    /** `handleExampleClick`: the description becomes the example's text and the error is cleared. */
    method HandleExampleClick(text: string)
      modifies this
      ensures description == text && error == ""
      ensures isLoading == old(isLoading) && recommendation == old(recommendation)
    {
      description := text;
      error := "";
    }

    /** The result view's reset: back to the form, description kept. */
    method ResetRecommendation()
      modifies this
      ensures recommendation.None?
      ensures description == old(description) && isLoading == old(isLoading) && error == old(error)
    {
      recommendation := None;
    }
  }
}
