/**
 * The guided form: its state (the answers, the per-field errors, the loading flag and
 * the recommendation shown), the four setters, the feature toggle, validation and
 * the submit gate in front of the structured server action.
 */
module SimpleForm {
  import opened Options
  import opened Stack
  import opened MockRecommendations
  import opened Actions

  // ---------------------------------------------------------------------------
  // The answers and the feature toggle
  // ---------------------------------------------------------------------------

  /** The form's answers; an unanswered question holds the empty string. */
  datatype FormState = FormState(
    projectType: string,
    experienceLevel: string,
    features: seq<string>,
    backendPreference: string,
    technologyPreference: string)

  /** The answers before the user has chosen anything. */
  const InitialForm: FormState := FormState("", "", [], "", "")

  /** What the form hands to `getRecommendation`: every field is present and holds the form's answer. */
  function ToFormData(f: FormState): (d: FormData)
    ensures d.projectType == Some(f.projectType) && d.experienceLevel == Some(f.experienceLevel)
    ensures d.features == Some(f.features)
    ensures d.backendPreference == Some(f.backendPreference) && d.technologyPreference == Some(f.technologyPreference)
  {
    FormData(Some(f.projectType), Some(f.experienceLevel), Some(f.features), Some(f.backendPreference),
      Some(f.technologyPreference))
  }

  /** `xs.filter((f) => f !== x)`: every occurrence of `x` dropped, the rest kept in order. */
  function Without(xs: seq<string>, x: string): seq<string>
  {
    if xs == [] then [] else (if xs[0] == x then [] else [xs[0]]) + Without(xs[1..], x)
  }

  /** Filtering drops every copy of `x` and keeps every copy of everything else. */
  lemma {:induction false} WithoutCounts(xs: seq<string>, x: string)
    ensures multiset(Without(xs, x)) == multiset(xs)[x := 0]
  {
    if xs != [] {
      WithoutCounts(xs[1..], x);
      assert xs == [xs[0]] + xs[1..];
    }
  }

  /** Filtering out a string that is not there changes nothing. */
  lemma {:induction false} WithoutAbsent(xs: seq<string>, x: string)
    requires x !in xs
    ensures Without(xs, x) == xs
  {
    if xs != [] {
      WithoutAbsent(xs[1..], x);
    }
  }

  /** Filtering distributes over concatenation. */
  lemma {:induction false} WithoutAppend(xs: seq<string>, ys: seq<string>, x: string)
    ensures Without(xs + ys, x) == Without(xs, x) + Without(ys, x)
  {
    if xs != [] {
      var s := xs + ys;
      assert s[0] == xs[0] && s[1..] == xs[1..] + ys;
      WithoutAppend(xs[1..], ys, x);
      var head := if xs[0] == x then [] else [xs[0]];
      assert Without(s, x) == head + Without(xs[1..] + ys, x);
      assert Without(xs, x) == head + Without(xs[1..], x);
    } else {
      assert xs + ys == ys;
    }
  }

  /** `handleFeatureToggle`'s new list: a listed feature is removed everywhere, an unlisted one appended. */
  function ToggleFeature(features: seq<string>, id: string): seq<string>
  {
    if id in features then Without(features, id) else features + [id]
  }

  /** No feature is listed twice. */
  ghost predicate Distinct(xs: seq<string>)
  {
    forall y :: multiset(xs)[y] <= 1
  }

  /** Toggling flips membership of the toggled feature and leaves every other feature's count alone. */
  lemma ToggleFlips(features: seq<string>, id: string, other: string)
    requires other != id
    ensures id in ToggleFeature(features, id) <==> id !in features
    ensures multiset(ToggleFeature(features, id))[other] == multiset(features)[other]
  {
    if id in features {
      WithoutCounts(features, id);
      assert multiset(Without(features, id))[id] == 0;
    } else {
      assert multiset(features + [id]) == multiset(features) + multiset{id};
    }
  }

  /** Toggling keeps a duplicate-free list duplicate-free. */
  lemma ToggleKeepsDistinct(features: seq<string>, id: string)
    requires Distinct(features)
    ensures Distinct(ToggleFeature(features, id))
  {
    if id in features {
      WithoutCounts(features, id);
    } else {
      assert multiset(features + [id]) == multiset(features) + multiset{id};
    }
  }

  /** Toggling an unlisted feature twice gives back the original list. */
  lemma ToggleTwiceRestores(features: seq<string>, id: string)
    requires id !in features
    ensures ToggleFeature(ToggleFeature(features, id), id) == features
  {
    WithoutAppend(features, [id], id);
    WithoutAbsent(features, id);
  }

  /** The list after toggling `ids` one after another, starting from `features`. */
  function ToggleAll(features: seq<string>, ids: seq<string>): seq<string>
    decreases |ids|
  {
    if ids == [] then features else ToggleAll(ToggleFeature(features, ids[0]), ids[1..])
  }

  /** From the initial empty list, no sequence of clicks lists a feature twice. */
  lemma {:induction false} ToggledListsAreDistinct(features: seq<string>, ids: seq<string>)
    requires Distinct(features)
    ensures Distinct(ToggleAll(features, ids))
    decreases |ids|
  {
    if ids != [] {
      ToggleKeepsDistinct(features, ids[0]);
      ToggledListsAreDistinct(ToggleFeature(features, ids[0]), ids[1..]);
    }
  }

  // ---------------------------------------------------------------------------
  // Validation
  // ---------------------------------------------------------------------------

  /** The error keys: the names of the four required answers. */
  const RequiredFields: set<string> := {"projectType", "experienceLevel", "backendPreference", "technologyPreference"}

  /** The answer stored under a required field's name. */
  function Answer(f: FormState, name: string): string
  {
    if name == "projectType" then f.projectType
    else if name == "experienceLevel" then f.experienceLevel
    else if name == "backendPreference" then f.backendPreference
    else f.technologyPreference
  }

  /** The message shown under an unanswered required question. */
  function RequiredMessage(name: string): string
  {
    if name == "projectType" then "Selecciona un tipo de proyecto"
    else if name == "experienceLevel" then "Selecciona tu nivel de experiencia"
    else if name == "backendPreference" then "Selecciona tu preferencia de backend"
    else "Selecciona tu preferencia de tecnología"
  }

  /** The errors validation reports: one entry, with its message, per unanswered required field. */
  function MissingErrors(f: FormState): map<string, string>
  {
    map name | name in RequiredFields && Answer(f, name) == "" :: RequiredMessage(name)
  }

  /** What one `if` of `validateForm` does to the error dictionary. */
  function Require(errors: map<string, string>, name: string, answer: string): map<string, string>
  {
    if answer == "" then errors[name := RequiredMessage(name)] else errors
  }

  /** The four checks in the order `validateForm` makes them compute exactly the missing-field errors. */
  lemma MissingErrorsStepwise(f: FormState)
    ensures MissingErrors(f) ==
      Require(Require(Require(Require(map[], "projectType", f.projectType), "experienceLevel", f.experienceLevel),
        "backendPreference", f.backendPreference), "technologyPreference", f.technologyPreference)
  {
    var e1 := Require(map[], "projectType", f.projectType);
    var e2 := Require(e1, "experienceLevel", f.experienceLevel);
    var e3 := Require(e2, "backendPreference", f.backendPreference);
    var e4 := Require(e3, "technologyPreference", f.technologyPreference);
    assert e4.Keys == MissingErrors(f).Keys;
  }

  /** A form passes validation exactly when its four required answers are filled in; features never matter. */
  lemma ValidIffAnswered(f: FormState)
    ensures MissingErrors(f) == map[] <==>
      f.projectType != "" && f.experienceLevel != "" && f.backendPreference != "" && f.technologyPreference != ""
    ensures "features" !in MissingErrors(f)
  {
    if f.projectType == "" {
      assert "projectType" in MissingErrors(f);
    } else if f.experienceLevel == "" {
      assert "experienceLevel" in MissingErrors(f);
    } else if f.backendPreference == "" {
      assert "backendPreference" in MissingErrors(f);
    } else if f.technologyPreference == "" {
      assert "technologyPreference" in MissingErrors(f);
    }
  }

  /** Validating the untouched form reports all four required fields. */
  lemma InitialFormIsInvalid()
    ensures MissingErrors(InitialForm).Keys == RequiredFields
  {
  }

  /**
   * The awaited call in `handleSubmit`, on values: `getRecommendation` on the answers,
   * and the recommendation shown afterwards: the result when the response is delivered,
   * the one shown before otherwise.
   */
  method AwaitRecommendation(env: Env, answers: FormState, reply: Reply, parse: string -> Option<Recommendation>,
                             delivered: bool, shown: Option<Recommendation>)
    returns (next: Option<Recommendation>, request: Option<GenerateOptions>)
    ensures SentStructured(request, env, ToFormData(answers))
    ensures delivered ==> next == Some(RecommendStructured(env, ToFormData(answers), reply, parse))
    ensures !delivered ==> next == shown
  {
    var result;
    result, request := GetRecommendation(env, ToFormData(answers), reply, parse);
    next := if delivered then Some(result) else shown;
  }

  // ---------------------------------------------------------------------------
  // The component
  // ---------------------------------------------------------------------------

  /** The `SimpleForm` component's state. */
  class SimpleForm {
    var formData: FormState
    var isLoading: bool
    var recommendation: Option<Recommendation>
    var errors: map<string, string>

    constructor()
      ensures formData == InitialForm && !isLoading && recommendation.None? && errors == map[]
    {
      formData := InitialForm;
      isLoading := false;
      recommendation := None;
      errors := map[];
    }

    /** `handleProjectTypeChange`: stores the answer and clears that field's error. */
    method HandleProjectTypeChange(value: string)
      modifies this
      ensures formData == old(formData).(projectType := value)
      ensures errors == old(errors)["projectType" := ""]
      ensures isLoading == old(isLoading) && recommendation == old(recommendation)
    {
      formData := formData.(projectType := value);
      errors := errors["projectType" := ""];
    }

    /** `handleExperienceChange`: stores the answer and clears that field's error. */
    method HandleExperienceChange(value: string)
      modifies this
      ensures formData == old(formData).(experienceLevel := value)
      ensures errors == old(errors)["experienceLevel" := ""]
      ensures isLoading == old(isLoading) && recommendation == old(recommendation)
    {
      formData := formData.(experienceLevel := value);
      errors := errors["experienceLevel" := ""];
    }

    /** `handleBackendChange`: stores the answer and clears that field's error. */
    method HandleBackendChange(value: string)
      modifies this
      ensures formData == old(formData).(backendPreference := value)
      ensures errors == old(errors)["backendPreference" := ""]
      ensures isLoading == old(isLoading) && recommendation == old(recommendation)
    {
      formData := formData.(backendPreference := value);
      errors := errors["backendPreference" := ""];
    }

    /** `handleTechnologyChange`: stores the answer and clears that field's error. */
    method HandleTechnologyChange(value: string)
      modifies this
      ensures formData == old(formData).(technologyPreference := value)
      ensures errors == old(errors)["technologyPreference" := ""]
      ensures isLoading == old(isLoading) && recommendation == old(recommendation)
    {
      formData := formData.(technologyPreference := value);
      errors := errors["technologyPreference" := ""];
    }

    /** `handleFeatureToggle`: toggles one feature; nothing else changes. */
    method HandleFeatureToggle(featureId: string)
      modifies this
      ensures formData == old(formData).(features := ToggleFeature(old(formData.features), featureId))
      ensures errors == old(errors) && isLoading == old(isLoading) && recommendation == old(recommendation)
    {
      formData := formData.(features := ToggleFeature(formData.features, featureId));
    }

    /**
     * `validateForm`: fills a fresh error dictionary field by field, installs it, and
     * reports whether it stayed empty.
     */
    method ValidateForm() returns (valid: bool)
      modifies this
      ensures errors == MissingErrors(formData)
      ensures valid <==> errors == map[]
      ensures formData == old(formData) && isLoading == old(isLoading) && recommendation == old(recommendation)
    {
      var newErrors: map<string, string> := map[];
      if formData.projectType == "" {
        newErrors := newErrors["projectType" := "Selecciona un tipo de proyecto"];
      }
      if formData.experienceLevel == "" {
        newErrors := newErrors["experienceLevel" := "Selecciona tu nivel de experiencia"];
      }
      if formData.backendPreference == "" {
        newErrors := newErrors["backendPreference" := "Selecciona tu preferencia de backend"];
      }
      if formData.technologyPreference == "" {
        newErrors := newErrors["technologyPreference" := "Selecciona tu preferencia de tecnología"];
      }
      MissingErrorsStepwise(formData);
      errors := newErrors;
      valid := |newErrors| == 0;
    }

    /**
     * `handleSubmit`: validates, and only a valid form calls `getRecommendation` with its
     * answers. `env`, `reply` and `parse` stand for the server's environment, the model's
     * answer and JSON.parse; `delivered` is false when the action's response never
     * arrives, which the component only logs. `request` is what the action sent to the
     * model: nothing when the form is invalid.
     */
    method HandleSubmit(env: Env, reply: Reply, parse: string -> Option<Recommendation>, delivered: bool)
      returns (called: bool, request: Option<GenerateOptions>)
      modifies this
      ensures errors == MissingErrors(old(formData)) && formData == old(formData)
      ensures called <==> errors == map[]
      ensures !called ==> request.None? && isLoading == old(isLoading) && recommendation == old(recommendation)
      ensures called ==> !isLoading && SentStructured(request, env, ToFormData(formData))
      ensures called && delivered ==> recommendation == Some(RecommendStructured(env, ToFormData(formData), reply, parse))
      ensures called && !delivered ==> recommendation == old(recommendation)
    {
      var valid := ValidateForm();
      if !valid {
        return false, None;
      }
      called := true;
      request := RequestRecommendation(env, reply, parse, delivered);
    }

    /**
     * The part of `handleSubmit` after validation: raise the loading flag, await
     * `getRecommendation` on the current answers, keep a delivered result, and lower the flag.
     */
    method RequestRecommendation(env: Env, reply: Reply, parse: string -> Option<Recommendation>, delivered: bool)
      returns (request: Option<GenerateOptions>)
      modifies this
      ensures formData == old(formData) && errors == old(errors) && !isLoading
      ensures SentStructured(request, env, ToFormData(formData))
      ensures delivered ==> recommendation == Some(RecommendStructured(env, ToFormData(formData), reply, parse))
      ensures !delivered ==> recommendation == old(recommendation)
    {
      var answers, shown := formData, recommendation;
      isLoading := true;
      recommendation, request := AwaitRecommendation(env, answers, reply, parse, delivered, shown);
      isLoading := false;
    }

    /** The result view's reset: back to the form, answers kept. */
    method ResetRecommendation()
      modifies this
      ensures recommendation.None?
      ensures formData == old(formData) && errors == old(errors) && isLoading == old(isLoading)
    {
      recommendation := None;
    }
  }
}
