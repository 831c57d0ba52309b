# Tech-stack recommender: a Dafny model of its core

The application recommends a web technology stack: frontend, styling, backend,
database, a few extra tools and a rationale. Users reach it two ways. The guided
form asks for a project type, an experience level, the features wanted and two
preferences. The free-text box takes a description of the project. Both call a
server action. The action picks an AI provider from the credentials in the
environment and sends it a prompt. It cuts the JSON object out of the reply and
parses it. When there is no provider, or anything fails, it answers with a
rule-based fallback instead: a six-entry table keyed by project type, plus a
keyword classifier for free text.

This project models that core and proves what it promises:

- `Stack` (stack.dfy) holds the recommendation record and what "complete" means
  for it.
- `MockRecommendations` (mock_recommendations.dfy) holds the fallback table with
  its lookup and blog default, and the priority keyword classifier. These are
  pure functions.
- `Actions` (actions.dfy) covers the server actions:
  - provider selection;
  - building the request, as a method that assigns the provider options into the
    options value;
  - the two prompts;
  - the greedy JSON-span extraction;
  - the routing to the fallback;
  - the tools section of the generated README.
- `SimpleForm` (simple_form.dfy) is the guided form. A class holds its state. It
  has the four setters, the feature toggle, validation that fills a fresh error
  dictionary, and the submit gate.
- `SimpleNaturalInput` (simple_natural_input.dfy) is the free-text form. A class
  holds its state. It has the blank check, submit, the example prompts and reset.
- `ExamplePrompts` (example_prompts.dfy) proves that each example prompt passes the
  blank check and is classified under the category on its badge. `ExampleWords`
  (example_words.dfy) holds the word-by-word facts those proofs rest on.
- `Text` (text.dfy) holds the JavaScript string operations the core calls:
  truthiness, `includes`, `toLowerCase`, `trim` and `join`, each with its
  specification lemmas. Three more stand in for what the core does not call
  directly. `FirstIndexOf` and `LastIndexOf` describe the span that the greedy
  regular expression at lib/actions.ts:94 matches. `Split` exists only to read
  the generated tools section back line by line.
- `Options` (options.dfy) holds the optional-value type.

The remote model, `JSON.parse` and the delivery of the server action's response
to the browser are not modelled as code. They become parameters:
- `reply`: the model answers with text (`Answered`) or the call throws (`Failed`);
- `parse`: JSON.parse, which returns `None` when it throws;
- `delivered`: whether the component received the action's result.

## Model

| member | source | states |
|---|---|---|
| Text.Truthy | lib/actions.ts:12-26 | JavaScript truthiness of an optional string: present and non-empty; GetAIModel and SelectedType state what it decides |
| Text.Includes | lib/mock-recommendations.ts:110-165 | `s.includes(k)` holds exactly when some position of `s` starts an occurrence of `k` |
| Text.IncludesWords | lib/mock-recommendations.ts:109-168 | a non-empty keyword without spaces occurs in words joined by spaces exactly when it occurs in one of the words |
| Text.IncludesTransitive | lib/mock-recommendations.ts:160 | a substring of a substring is a substring |
| Text.Lower | lib/mock-recommendations.ts:106 | `toLowerCase`, character by character over the capitals it covers; its properties are LowerIdempotent, LowerAppend and LowerJoin |
| Text.Trim | components/simple-natural-input.tsx:41 | `trim`: white space dropped at both ends; stated by TrimStartSpec, TrimEndSpec and TrimEmptyIffBlank |
| Text.LowerIdempotent | lib/mock-recommendations.ts:106 | lower-casing twice is lower-casing once |
| Text.LowerJoin | lib/mock-recommendations.ts:106 | lower-casing words joined by spaces lower-cases each word and keeps the spaces |
| Text.TrimStartSpec | components/simple-natural-input.tsx:41 | trimming the start drops a white-space prefix, and what is left does not start with white space |
| Text.TrimEndSpec | components/simple-natural-input.tsx:41 | trimming the end drops a white-space suffix, and what is left does not end with white space |
| Text.TrimEmptyIffBlank | components/simple-natural-input.tsx:41 | `trim()` gives "" exactly when every character is white space |
| Text.Join | lib/actions.ts:54 | `join(sep)`: the elements in order with the separator between neighbours, as at lib/actions.ts:54 and :221; JoinEmpty, IncludesWords and SplitJoin state its properties |
| Text.JoinEmpty | lib/actions.ts:54 | a join with a non-empty separator is empty exactly for no items or a single empty item |
| Text.FirstIndexOf | lib/actions.ts:94 | the first position holding `c`, with no `c` before it; none exactly when `c` does not occur |
| Text.LastIndexOf | lib/actions.ts:94 | the last position holding `c`, with no `c` after it; none exactly when `c` does not occur |
| Text.SplitJoin | lib/actions.ts:221 | splitting lines joined by a separator that none of them contains gives the lines back |
| MockRecommendations.KeyInjective | lib/mock-recommendations.ts:3-98 | the six table keys are pairwise distinct |
| MockRecommendations.LookupKey | lib/mock-recommendations.ts:101 | the property lookup finds the project type stored under the key, and finds none exactly when no type has that key |
| MockRecommendations.Entry | lib/mock-recommendations.ts:3-98 | the six table entries, text for text; each is shown complete by its own lemma below |
| MockRecommendations.BlogEntryComplete | lib/mock-recommendations.ts:4-18 | the blog entry names all four technologies, has a rationale and two named tools |
| MockRecommendations.EcommerceEntryComplete | lib/mock-recommendations.ts:19-40 | the e-commerce entry is complete with three named tools |
| MockRecommendations.PortfolioEntryComplete | lib/mock-recommendations.ts:41-52 | the portfolio entry is complete with two named tools |
| MockRecommendations.DashboardEntryComplete | lib/mock-recommendations.ts:53-68 | the dashboard entry is complete with three named tools |
| MockRecommendations.SocialEntryComplete | lib/mock-recommendations.ts:69-81 | the social entry is complete with three named tools |
| MockRecommendations.CollaborativeEntryComplete | lib/mock-recommendations.ts:82-97 | the collaborative entry is complete with three named tools |
| MockRecommendations.SelectedType | lib/mock-recommendations.ts:100-101 | a project type equal to one of the six keys selects that type; any other value, a missing one or an empty one included, selects blog |
| MockRecommendations.GetMockRecommendation | lib/mock-recommendations.ts:99-102 | `getMockRecommendation`: the entry of the selected type; characterised by MockEntryForKey, MockDefaultsToBlog and MockReadsOnlyProjectType |
| MockRecommendations.MockEntryForKey | lib/mock-recommendations.ts:100-101 | a form naming one of the six keys gets exactly that key's table entry |
| MockRecommendations.MockDefaultsToBlog | lib/mock-recommendations.ts:100-101 | a missing, empty or unknown project type gets the blog entry |
| MockRecommendations.MockReadsOnlyProjectType | lib/mock-recommendations.ts:100 | two forms with the same project type get the same stack, whatever their other fields |
| MockRecommendations.MentionsAny | lib/mock-recommendations.ts:109-165 | one `includes(...) \|\| ...` chain over a keyword list; MentionsAnyIff and MentionsAnyWords state what it decides |
| MockRecommendations.MentionsAnyIff | lib/mock-recommendations.ts:109-116 | the `includes(...) \|\| includes(...)` chain holds exactly when one of its keywords occurs |
| MockRecommendations.MentionsAnyWords | lib/mock-recommendations.ts:109-168 | a chain of one-word keywords holds on space-joined words exactly when it holds on one of the words |
| MockRecommendations.KeywordsAreWords | lib/mock-recommendations.ts:109-168 | in every category's list, every keyword except "tiempo real" is a single non-empty word, and "tiempo real" occurs only in the collaborative list |
| MockRecommendations.Classify | lib/mock-recommendations.ts:104-173 | the keyword lists tried in order against the lower-cased text; characterised by ClassifyPriority, ClassifyDefaultsToBlog and ClassifyCaseInsensitive |
| MockRecommendations.GetMockNaturalLanguageRecommendation | lib/mock-recommendations.ts:104-174 | `getMockNaturalLanguageRecommendation`: the structured fallback asked for the classified category; NaturalIsEntryOfClass states that this is that category's entry |
| MockRecommendations.NaturalIsEntryOfClass | lib/mock-recommendations.ts:117-173 | the free-text fallback always returns the table entry of the category the classifier picked |
| MockRecommendations.ClassifyPriority | lib/mock-recommendations.ts:104-173 | a category is picked exactly when the lower-cased text mentions one of its keywords (or it is the blog default) and no category tried before it is mentioned |
| MockRecommendations.ClassifyDefaultsToBlog | lib/mock-recommendations.ts:170-173 | text is classified as blog exactly when it mentions no keyword of any category |
| MockRecommendations.ClassifyCaseInsensitive | lib/mock-recommendations.ts:106 | a description and its lower-cased form are classified alike |
| MockRecommendations.TiendaBeatsChat | lib/mock-recommendations.ts:109-156 | text holding both "tienda" and "chat" mentions a social keyword yet is classified as e-commerce |
| MockRecommendations.ColaborativaMatchesColabor | lib/mock-recommendations.ts:159-168 | "colaborativa" selects the collaborative stack through the substring "colabor" once earlier categories are ruled out |
| MockRecommendations.TiempoRealNeedsSpace | lib/mock-recommendations.ts:159-168 | a description without spaces that is classified as collaborative holds one of the other collaborative keywords, never "tiempo real" |
| Actions.GetAIModel | lib/actions.ts:10-37 | no provider exactly when no credential is a non-empty string; otherwise the chosen provider has a non-empty credential, carries that key and its model id, and every provider tried before it has none |
| Actions.ProviderIsFirstUsable | lib/actions.ts:10-37 | any provider with a non-empty credential guarantees a choice no later in the order Anthropic, Google, OpenAI |
| Actions.BuildOptions | lib/actions.ts:71-89 | the options carry the chosen model and the prompt, and `providerOptions` maps the chosen provider's name to its key |
| Actions.RequestKeyedByProvider | lib/actions.ts:77-89 | the key is sent under exactly one name, the chosen provider's, and no other provider's name appears |
| Actions.Shown | lib/actions.ts:52-56 | a form field interpolated in the template: its value, or "undefined" when absent; StructuredPrompt and FeaturesText use it |
| Actions.FeaturesText | lib/actions.ts:54 | the features joined by ", " in order, or "No especificadas" when they are absent or join to the empty string |
| Actions.StructuredPrompt | lib/actions.ts:48-69 | the structured prompt, with the five answers interpolated; StructuredPromptListsFeatures states its features line |
| Actions.StructuredPromptListsFeatures | lib/actions.ts:48-69 | the structured prompt contains the features line |
| Actions.NaturalPromptQuotesDescription | lib/actions.ts:125-147 | the free-text prompt contains the whole description, unmodified, between double quotes |
| Actions.NaturalPrompt | lib/actions.ts:125-147 | the free-text prompt, with the description interpolated between quotes; NaturalPromptQuotesDescription and NaturalPromptInjective state what it keeps of the description |
| Actions.NaturalPromptInjective | lib/actions.ts:125-147 | different descriptions give different free-text prompts |
| Actions.SentFromTextDeterminesDescription | lib/actions.ts:116-147 | with a provider configured, the request the free-text path sends determines the description it was sent for |
| Actions.ExtractJson | lib/actions.ts:94-97 | a match exists exactly when some `{` comes before some `}`; the match runs from the first `{` to the last `}` inclusive |
| Actions.ExtractJsonNone | lib/actions.ts:94-97 | when the last `}` is not after the first `{`, no `{` precedes a `}` |
| Actions.ExtractJsonCovers | lib/actions.ts:94 | every `{`...`}` span of the reply lies inside the extracted text, so the match is not balanced-brace matching |
| Actions.TryReply | lib/actions.ts:91-113 | the `try` block returns the parsed span of a reply that has one that parses, and the fallback on a failed call, a missing span or a parse error |
| Actions.FromReply | lib/actions.ts:91-113 | the reply's parsed span, or the fallback on a failed call, a missing span or a parse error; TryReply and RouteAnswer state it |
| Actions.Route | lib/actions.ts:42-113 | the fallback without a provider, otherwise the reply's outcome; RouteAnswer states both directions |
| Actions.RecommendStructured | lib/actions.ts:39-114 | what `getRecommendation` returns: the routed answer around the form's table entry; pinned down by NoProviderUsesMock, FailureFallsBack and UsableReplyWins |
| Actions.RecommendFromText | lib/actions.ts:116-192 | what `getNaturalLanguageRecommendation` returns: the routed answer around the classifier's entry; pinned down by the same three lemmas |
| Actions.Serve | lib/actions.ts:40-113 | no request without a provider; otherwise exactly one request for the chosen provider with the prompt; the result is the routed answer |
| Actions.GetRecommendation | lib/actions.ts:39-114 | returns the routed answer around the form's table entry and sends the structured prompt to the chosen provider, or nothing without one |
| Actions.GetNaturalLanguageRecommendation | lib/actions.ts:116-192 | returns the routed answer around the classifier's entry and sends the free-text prompt to the chosen provider, or nothing without one |
| Actions.RouteAnswer | lib/actions.ts:42-113 | the fallback is returned exactly when there is no provider or the reply is unusable; otherwise the parsed span is returned; the error message never matters |
| Actions.NoProviderUsesMock | lib/actions.ts:42-45 | without any credential the structured path returns `getMockRecommendation(formData)` and the free-text path returns `getMockNaturalLanguageRecommendation(description)`, whatever the model would answer |
| Actions.FailureFallsBack | lib/actions.ts:100-113 | a failed call, a reply with no span or a span that does not parse gives exactly the fallback for the same input, on both paths |
| Actions.UsableReplyWins | lib/actions.ts:94-99 | with a provider and a reply whose span parses, the parsed value is the answer on both paths |
| Actions.ToolLine | lib/actions.ts:221 | one tool's line "- **name**: description"; ToolsSectionLines states that each line of the section is this line of its tool |
| Actions.ToolsSection | lib/actions.ts:221 | the tools section of the generated README; ToolsSectionLines states its lines |
| Actions.ToolsSectionLines | lib/actions.ts:221 | read back line by line, the tools section has one line per tool, in order |
| SimpleForm.ToFormData | components/simple-form.tsx:97 | the form hands all five answers to the action, each present and holding the form's value: project type, experience level, features, backend preference, technology preference |
| SimpleForm.Without | components/simple-form.tsx:63 | `filter((f) => f !== x)`; WithoutCounts, WithoutAbsent and WithoutAppend state its properties |
| SimpleForm.WithoutCounts | components/simple-form.tsx:63 | the filter drops every copy of the toggled feature and keeps every copy of the others |
| SimpleForm.WithoutAbsent | components/simple-form.tsx:63 | filtering out an absent feature changes nothing |
| SimpleForm.WithoutAppend | components/simple-form.tsx:63 | the filter distributes over concatenation |
| SimpleForm.ToggleFeature | components/simple-form.tsx:59-66 | the feature toggle: a listed feature is filtered out, an unlisted one appended; stated by ToggleFlips, ToggleKeepsDistinct and ToggleTwiceRestores |
| SimpleForm.ToggleFlips | components/simple-form.tsx:59-66 | toggling flips whether the feature is listed and keeps every other feature's count |
| SimpleForm.ToggleKeepsDistinct | components/simple-form.tsx:62-64 | toggling keeps a duplicate-free list duplicate-free |
| SimpleForm.ToggleTwiceRestores | components/simple-form.tsx:62-64 | toggling an unlisted feature twice gives back the original list |
| SimpleForm.ToggledListsAreDistinct | components/simple-form.tsx:41-66 | from a duplicate-free list, such as the initial empty one, no sequence of clicks lists a feature twice |
| SimpleForm.MissingErrors | components/simple-form.tsx:78-88 | the error map validation produces: one message per empty required field; MissingErrorsStepwise and ValidIffAnswered state it |
| SimpleForm.MissingErrorsStepwise | components/simple-form.tsx:79-84 | the four conditional assignments, in order, build exactly the map with one message per empty required field |
| SimpleForm.ValidIffAnswered | components/simple-form.tsx:81-87 | validation passes exactly when the four required answers are non-empty; features never produce an error |
| SimpleForm.InitialFormIsInvalid | components/simple-form.tsx:38-44 | validating the initial answers reports errors on exactly the four required fields |
| SimpleForm.SimpleForm.constructor | components/simple-form.tsx:38-47 | four empty answers, no features, not loading, no recommendation, no errors |
| SimpleForm.SimpleForm.HandleProjectTypeChange | components/simple-form.tsx:49-52 | only the project type changes, and only its error becomes "" |
| SimpleForm.SimpleForm.HandleExperienceChange | components/simple-form.tsx:54-57 | only the experience level changes, and only its error becomes "" |
| SimpleForm.SimpleForm.HandleBackendChange | components/simple-form.tsx:68-71 | only the backend preference changes, and only its error becomes "" |
| SimpleForm.SimpleForm.HandleTechnologyChange | components/simple-form.tsx:73-76 | only the technology preference changes, and only its error becomes "" |
| SimpleForm.SimpleForm.HandleFeatureToggle | components/simple-form.tsx:59-66 | only the features change, to the toggled list; errors are untouched |
| SimpleForm.SimpleForm.ValidateForm | components/simple-form.tsx:78-88 | the errors are replaced by the missing-field map, and the result is true exactly when that map is empty |
| SimpleForm.SimpleForm.HandleSubmit | components/simple-form.tsx:90-104 | the errors become the missing-field map and the answers are kept; an invalid form sends no request and leaves loading and the recommendation alone; a valid one has the action send the structured prompt of all five answers to the chosen provider, ends not loading, and shows the action's result on those answers when it arrives |
| SimpleForm.SimpleForm.RequestRecommendation | components/simple-form.tsx:95-103 | answers and errors are kept and loading ends false; the request is the structured prompt of the current answers for the chosen provider, or none without one; a delivered result of `getRecommendation` on those answers is shown, an undelivered one is only logged |
| SimpleForm.AwaitRecommendation | components/simple-form.tsx:96-98 | the awaited call on the given answers: the request `getRecommendation` sends for them, and the recommendation shown afterwards, its result when delivered and the previous one otherwise |
| SimpleForm.SimpleForm.ResetRecommendation | components/simple-form.tsx:106-107 | the recommendation goes back to none; answers and errors are kept |
| SimpleNaturalInput.Blank | components/simple-natural-input.tsx:41 | `!description.trim()`; BlankIffWhiteSpace states which descriptions it rejects |
| SimpleNaturalInput.BlankIffWhiteSpace | components/simple-natural-input.tsx:41-44 | the blank test rejects exactly the descriptions made only of white space, the empty one included |
| SimpleNaturalInput.SimpleNaturalInput.constructor | components/simple-natural-input.tsx:33-36 | empty description, not loading, no recommendation, no error |
| SimpleNaturalInput.SimpleNaturalInput.HandleDescriptionChange | components/simple-natural-input.tsx:124 | the description becomes the typed text; nothing else changes |
| SimpleNaturalInput.SimpleNaturalInput.HandleSubmit | components/simple-natural-input.tsx:38-58 | a blank description sets "Por favor, describe tu proyecto", sends no request and leaves loading and the recommendation alone; otherwise the action sends the free-text prompt of the description as typed to the chosen provider and loading ends false; a delivered result is shown with no error, an undelivered one sets "Error al procesar la solicitud" and keeps the old recommendation |
| SimpleNaturalInput.SimpleNaturalInput.RequestRecommendation | components/simple-natural-input.tsx:46-57 | the description is kept and loading ends false; the request is the free-text prompt of the description for the chosen provider, or none without one; a delivered result is shown with the error cleared, an undelivered one sets "Error al procesar la solicitud" and keeps the old recommendation |
| SimpleNaturalInput.AwaitTextRecommendation | components/simple-natural-input.tsx:49-54 | the awaited call on the given text: the request `getNaturalLanguageRecommendation` sends for it, and the recommendation shown afterwards, its result when delivered and the previous one otherwise |
| SimpleNaturalInput.SimpleNaturalInput.HandleExampleClick | components/simple-natural-input.tsx:60-63 | the description becomes exactly the example's text and the error is cleared |
| SimpleNaturalInput.SimpleNaturalInput.ResetRecommendation | components/simple-natural-input.tsx:66 | the recommendation goes back to none; the description is kept |
| ExamplePrompts.JoinedWordsNotBlank | components/simple-natural-input.tsx:14-30 | words joined by spaces whose first word starts with a visible character are not blank |
| ExamplePrompts.SocialExampleNotBlank | components/simple-natural-input.tsx:16 | the "Red Social" example passes the blank check |
| ExamplePrompts.StoreExampleNotBlank | components/simple-natural-input.tsx:21 | the "E-commerce" example passes the blank check |
| ExamplePrompts.FolioExampleNotBlank | components/simple-natural-input.tsx:26 | the "Portafolio" example passes the blank check |
| ExamplePrompts.ClassifyJoinedWords | lib/mock-recommendations.ts:104-168 | space-joined words, one of which holds a keyword of some category other than the blog default and none of which holds a keyword of a category tried before it, are classified under that category |
| ExampleWords.SocialWordsMissEarlierCategories | lib/mock-recommendations.ts:109-142 | no word of the "Red Social" example holds an e-commerce, portfolio or dashboard keyword |
| ExampleWords.FolioWordsMissEarlierCategories | lib/mock-recommendations.ts:109-118 | no word of the "Portafolio" example holds an e-commerce keyword |
| ExamplePrompts.SocialExampleIsSocial | components/simple-natural-input.tsx:15-19 | the "Red Social" example is classified as social |
| ExamplePrompts.StoreExampleIsEcommerce | components/simple-natural-input.tsx:20-24 | the "E-commerce" example is classified as e-commerce |
| ExamplePrompts.FolioExampleIsPortfolio | components/simple-natural-input.tsx:25-29 | the "Portafolio" example is classified as portfolio |

## Left out

- The remote model call (`generateText` and the provider constructors) is foreign code. It is the `reply` parameter: the text the model would answer, or a failure.
- `JSON.parse` is the `parse` parameter, a partial function from text to a recommendation. JSON grammar is not modelled, and neither is a parse that succeeds with a value of another shape.
- The model object `getAIModel` builds is represented by its model id string.
- Logging, including the quota and API-key message checks in the `catch` blocks, is left out because it does not affect any result.
- Async/await and the React state updates are not modelled as concurrency. Each handler runs to completion in sequence.
- `delivered` stands for whether the server action's response reached the component. The model assumes that the provider SDK rejects with an `Error` object, so that the action's `catch` block, which reads `error.message`, always returns the fallback; the failure branch of each handler is then reached only through `delivered`. A rejection with `null` or `undefined` would make that `catch` block itself throw at lib/actions.ts:104 or :182, which the model does not capture.
- The disabled state of the submit buttons while loading is not modelled. It is markup.
- `generateReadme` is modelled only in its tools section. The rest is fixed prose with interpolated fields, and its date stamp comes from the locale-dependent clock.
- `toLowerCase` follows full Unicode case mapping. The model lower-cases only the ASCII and Latin-1 capitals, which covers every keyword and example here. `trim` uses the full ECMAScript white-space and line-terminator set.
- On the JavaScript object, property lookup at lib/mock-recommendations.ts:101 also finds inherited keys such as "constructor". The model does not. It treats every key outside the six as unknown, so those keys give the blog entry.
- The prompts interpolate absent form fields as "undefined". A `null` field, which would print "null", is not distinguished from an absent one.
- The three example prompts are written as their words joined by single spaces, which is exactly what the source's literals are.
- Entry completeness is stated as one lemma per entry rather than one lemma over all six.
- The remaining files are not part of this model:
  - app/page.tsx is layout and tabs;
  - components/recommendation-result.tsx is clipboard, download and timer plumbing, and its README template duplicates the one in lib/actions.ts;
  - components/recommender-form.tsx and components/natural-language-input.tsx are not mounted, and their own logic duplicates the toggle and the blank check modelled here.
