# MyFridgeAI in Dafny

MyFridgeAI is a React Native app. It keeps a list of what is in the user's
fridge, asks an OpenAI chat-completion endpoint for a recipe that uses those
items and respects the user's allergies and diet, and saves the recipes it
gets back. This project models the logic of that app and proves properties
of the model:

- **The recipe request** (`services/openai.js`, modules `RecipeService` and
  `RecipeParser`). The prompt is built by successive appends. The endpoint's
  answer is turned into a recipe or an error. The reply is parsed into a
  title, an ingredient list and instructions.
  - The four regular expressions of the parser (title, ingredients,
    instructions and the header the fallback removes) are stated as predicates:
    where each pattern can match, and which match a backtracking engine
    reports (leftmost, then greedy or lazy).
- **The request inputs** (`screens/RecipesScreen.js`, module
  `RecipesScreen`). The fridge items become the ingredient string. Stored
  and free-text allergies are merged. The generated recipe is saved. The
  screen's flags and form are updated around the request.
- **The profile** (`screens/ProfileScreen.js`, module `Profile`). The diet
  and allergy toggles, and the normalisation of a loaded profile.
- **The sign-up and sign-in forms** (`screens/SignupScreen.js`,
  `screens/LoginScreen.js`). Their validation chains and their mappings
  from Firebase error codes to messages.
- **The alert dialog state** (`hooks/useModal.js`, class `UseModal.Modal`).
- **The fridge item form** (`screens/FridgeScreen.js`) and **renaming a
  recipe** (`screens/RecipeDetailScreen.js`).
- **The tab icons** (`navigation/AppNavigator.js`).

Pure code is modelled with functions and lemmas. Code that updates
component state is modelled with classes whose methods update fields:
- the dialog;
- the four forms;
- the recipe object that the detail screen renames in place.

Each screen class holds the dialog it shows (`modal`) and a log of the
requests it sends to Firebase or to the completion endpoint. The answers to
those requests are method parameters:
- success or failure of a write;
- an `AuthOutcome` for authentication;
- the user document or a failed read;
- a function from the prompt to the endpoint's `Response`.

`Text` holds the string operations the JavaScript code relies on:
- `trim` with ECMAScript's white-space and line-terminator set;
- `join`;
- `split` on one character;
- substring search;
- UTF-16 `length`;
- decimal rendering of numbers.

The prompt asks for replies in the form `Başlık: [Tarif Adı], Malzemeler: [malzeme listesi], Tarif: [tarif adımları]`
(services/openai.js:29). The parser's code reads such a reply differently from
what that form suggests, and the model follows the code:

- **The title runs to the end of its line.** The title capture
  `(.+)(?=,|$|\n)` is greedy, so a comma on the line does not end it. For
  the reply `Başlık: Tavuklu Pilav, Malzemeler: tavuk, pirinç, soğan\nTarif: …`
  the title is `Tavuklu Pilav, Malzemeler: tavuk, pirinç, soğan`, not
  `Tavuklu Pilav` (`ParserExamples.ExampleParse`).
- **The title can be empty.** The capture is tested before it is trimmed,
  so a title line of spaces gives `""` (`RecipeParser.BlankTitleLine`).

## Model

| member | source | states |
|---|---|---|
| RecipeService.PromptText | services/openai.js:15-29 | the prompt: the ingredients, the clauses present for non-empty inputs, the fixed request; characterised by `PromptFrame`, `PromptLength` and the three clause lemmas |
| RecipeService.BuildPrompt | services/openai.js:15-29 | the prompt assembled by successive appends is exactly `PromptText`: the ingredients, the optional clauses in their fixed order, then the fixed text |
| RecipeService.PromptFrame | services/openai.js:15-29 | every prompt starts with `Buzdolabımda şu malzemeler var: ` + ingredients + `. ` and ends with the same input-independent suffix |
| RecipeService.PromptLength | services/openai.js:15-29 | the prompt's length is the sum of the lengths of the head, the three clauses and the suffix |
| RecipeService.QueryClauseIff | services/openai.js:17-19 | the prompt differs from the one without a query iff the query is non-empty, and then `<query>. ` follows the head directly |
| RecipeService.AllergiesClauseIff | services/openai.js:21-23 | the prompt differs from the one without allergies iff the list is non-empty, and then `Alerjilerim: ` + the list joined by ", " + `. ` follows the query clause |
| RecipeService.DietClauseIff | services/openai.js:25-27 | the prompt differs from the one without diet preferences iff the list is non-empty, and then `Diyet tercihlerim: ` + the joined list + `. ` comes right before the suffix |
| RecipeService.FormatMarkers | services/openai.js:29 | the requested reply format names `Başlık: `, `Malzemeler: ` and `Tarif: ` at increasing offsets |
| RecipeService.PromptRequestsFormat | services/openai.js:15-29 | for every input, the prompt contains the three parser markers in the order the parser reads them |
| RecipeService.HandleResponse | services/openai.js:50-65 | the result is a recipe iff the response is ok and carries content (`ContentParsed` says which recipe); every failure message starts with `Tarif oluşturulurken hata: ` |
| RecipeService.StatusInError | services/openai.js:50-65 | for a non-ok status the error ends in digits that read back as the status |
| RecipeService.ContentParsed | services/openai.js:56-60 | for every content string, the success value is `Parse` of the trimmed content (`ParseContent`) |
| RecipeService.ContentIsTrimmed | services/openai.js:57-60 | white space around the content does not change the parsed recipe, because the parser gets the trimmed content |
| ParserExamples.ExampleAnswer | services/openai.js:56-60 | the example reply, padded with white space, comes back as the recipe with the greedy title, the three ingredients and the steps |
| RecipeService.GenerateRecipe | services/openai.js:12-66 | the prompt sent is `PromptText` of the inputs, and the result is what `HandleResponse` makes of the endpoint's answer to that prompt: for an ok answer with content, `Parse` of the trimmed content |
| RecipeParser.LineEnd | services/openai.js:79 | the first line terminator at or after a position, or the end of the text; nothing before it ends a line |
| RecipeParser.TitleEndAt | services/openai.js:79 | at one marker occurrence: the longest capture the title pattern allows, or none when it cannot match there |
| RecipeParser.FindTitle | services/openai.js:79 | the leftmost position where the title pattern matches, with its longest capture; none when it matches nowhere |
| RecipeParser.ExtractTitle | services/openai.js:79-82 | the default `Önerilen Tarif` when the title pattern matches nowhere |
| RecipeParser.TitleCaptureExists | services/openai.js:79 | when the title pattern matches anywhere, there is a leftmost, greedy match for the engine to report |
| RecipeParser.TitleOfCapture | services/openai.js:79-82 | the title is the trimmed capture of the leftmost, greedy match |
| RecipeParser.TitleIsRestOfLine | services/openai.js:79-82 | when the first `Başlık: ` is followed by a non-empty line ending in `\n` or the end of text, the title is that whole line trimmed, commas included |
| RecipeParser.BlankTitleLine | services/openai.js:79-82 | a line of spaces after the first marker yields the empty title, not the default |
| RecipeParser.FindIngredients | services/openai.js:84 | the leftmost `Malzemeler: ` match with the shortest capture that ends at a `Tarif:` or at the end of text |
| RecipeParser.NextSeparator | services/openai.js:88 | the first `\n` or `,` at or after a position |
| RecipeParser.RunEnd | services/openai.js:88 | the end of the maximal run of separators starting at a position |
| RecipeParser.SplitRuns | services/openai.js:88 | `split(/[\n,]+/)`: no piece holds a separator, only the first and last can be empty, and the pieces concatenated are the input without separators |
| RecipeParser.SplitRunsStep | services/openai.js:88 | one cut at the first separator run keeps every property `SplitRuns` promises |
| RecipeParser.StripAppend | services/openai.js:88 | removing separators distributes over concatenation |
| RecipeParser.StripKeeps | services/openai.js:88 | a text without separators loses nothing |
| RecipeParser.StripDrops | services/openai.js:88 | a run of separators disappears entirely |
| RecipeParser.SplitRunsOfPlain | services/openai.js:88 | a text without separators is a single piece |
| RecipeParser.SplitRunsOfCons | services/openai.js:88 | one separator between two texts cuts exactly there |
| RecipeParser.SplitRunsOfRun | services/openai.js:88 | a run of one or more separators between a separator-free text and the rest is a single cut |
| RecipeParser.SplitRunsCollapses | services/openai.js:88 | the pieces joined with `,` are the input with each maximal run of `,`/`\n` written as one `,` (`CollapseRuns`, defined character by character) |
| RecipeParser.SplitRunsIsSplitOfCollapsed | services/openai.js:88 | `split(/[\n,]+/)` equals `split(',')` of the collapsed input, so the cut points are fixed |
| ParserExamples.RunOfSeparators | services/openai.js:88 | `tuz,\n\nbiber` splits into `tuz` and `biber`: the run of three separators is one cut |
| RecipeParser.ExtractIngredients | services/openai.js:84-91 | `[]` when the pattern matches nowhere; no item is empty, untrimmed, or holds `,` or `\n` |
| RecipeParser.IngredientsCaptureExists | services/openai.js:84 | when the ingredients pattern matches anywhere, there is a leftmost, lazy match for the engine to report |
| RecipeParser.IngredientsOfCapture | services/openai.js:84-91 | the list is the trimmed, non-empty pieces of the trimmed leftmost, lazy capture split at separator runs, in order |
| RecipeParser.FindSteps | services/openai.js:93 | the leftmost `Tarif: ` followed by at least one character |
| RecipeParser.FindHeader | services/openai.js:97 | the leftmost header match, with both `.+` as long as possible |
| RecipeParser.RemoveHeader | services/openai.js:97 | the text without its header match, or unchanged when there is none |
| RecipeParser.FallbackRemovesThroughLastNewline | services/openai.js:97 | when the header pattern matches, the removal runs from the first `Başlık: ` through the last line break of the text |
| RecipeParser.ExtractInstructions | services/openai.js:93-99 | trimmed; when `Tarif: ` is followed by nothing anywhere, the trimmed text with the header removed |
| RecipeParser.StepsCaptureExists | services/openai.js:93 | when the instructions pattern matches anywhere, there is a leftmost match for the engine to report |
| RecipeParser.StepsOfCapture | services/openai.js:93-95 | the instructions are the trimmed text after the leftmost `Tarif: ` that has text after it |
| RecipeParser.LineEndIs | services/openai.js:79 | `LineEnd` is exactly the first line terminator |
| RecipeParser.Parse | services/openai.js:73-110 | every ingredient is non-empty, trimmed and free of `,` and `\n`, and the instructions are trimmed; the title is `ExtractTitle`'s |
| RecipeParser.ParseWithoutMarkers | services/openai.js:73-110 | a reply with none of the three markers parses to the default title, no ingredients and the trimmed reply |
| ParserExamples.ReplyWithoutMarkers | services/openai.js:73-110 | `bir tarif yok` parses to `{Önerilen Tarif, [], "bir tarif yok"}` |
| ParserExamples.BlankTitle | services/openai.js:79-82 | `Başlık: ` followed by two spaces gives the title `""` |
| ParserExamples.ExampleTitleIsWholeLine | services/openai.js:79-82 | the title of the example reply is the whole first line after the marker |
| ParserExamples.ExampleIngredients | services/openai.js:84-91 | the ingredients of the example reply are `["tavuk","pirinç","soğan"]` |
| ParserExamples.ExampleInstructions | services/openai.js:93-95 | the instructions of the example reply are the text after `Tarif: ` |
| ParserExamples.ExampleParse | services/openai.js:73-110 | the example reply parses to the greedy title, the three ingredients and the steps |
| Text.TrimSplit | services/openai.js:57 | the trim is a contiguous slice of the input with only white space before and after it |
| Text.Trim | services/openai.js:57 | `trim`: the input with leading and trailing white space removed, trimmed, empty iff the input is all white space |
| Text.TrimIdempotent | services/openai.js:81 | trimming twice is trimming once |
| Text.SplitOn | screens/RecipesScreen.js:153 | `split(',')`: at least one piece, no piece holds the separator, and joining them back gives the input |
| Text.TrimmedNonEmpty | screens/RecipesScreen.js:153 | `map(trim).filter(non-empty)`: every item is non-empty and trimmed, and there are no more items than pieces |
| Text.TrimmedNonEmptySingle | screens/RecipesScreen.js:153 | one piece gives its trim when that is not empty, and nothing otherwise |
| Text.TrimmedNonEmptyAppend | screens/RecipesScreen.js:153 | trimming and filtering goes piece by piece: the result for two lists of pieces is the two results in order |
| Text.TrimmedNonEmptyMembers | screens/RecipesScreen.js:153 | the items are exactly the non-empty trims of the pieces: each non-empty trim is kept, and each item is the trim of some piece |
| Text.SplitOfJoin | screens/RecipesScreen.js:153 | pieces without the separator, joined with it, split back into the same pieces |
| Text.Join | services/openai.js:22 | `join(sep)`; a join starts with its first item (`JoinStartsWith`), and `SplitOfJoin` and `JoinThenSplitRoundTrip` read joined lists back |
| Text.JoinStartsWith | services/openai.js:22 | a join of a non-empty list starts with its first item |
| Text.JoinThenSplitRoundTrip | screens/RecipesScreen.js:150-155 | trimmed comma-free items joined with ", " split back, trimmed and filtered, into the same items |
| Text.Utf16Length | screens/SignupScreen.js:48 | `length` counts UTF-16 code units: at least one and at most two per character, exactly one each inside the Basic Multilingual Plane |
| Text.DecimalRoundTrip | services/openai.js:53 | the decimal rendering of a number reads back as that number |
| RecipesScreen.ItemLabel | screens/RecipesScreen.js:159 | an item is named `name (quantity)`: the name, then ` (`, the quantity and `)` |
| RecipesScreen.Labels | screens/RecipesScreen.js:159 | one label per fridge item, position by position |
| RecipesScreen.IngredientList | screens/RecipesScreen.js:159 | empty iff the fridge is empty, and it starts with the first item's label |
| RecipesScreen.PromptFor | screens/RecipesScreen.js:139-167 | the request built from the fridge and the user document; with no free-text allergies it is the prompt for the stored allergies alone |
| RecipesScreen.IngredientListOrder | screens/RecipesScreen.js:159 | a single item is just its label; each further item follows after ", ", in list order |
| RecipesScreen.MergeAllergies | screens/RecipesScreen.js:150-155 | the stored allergies come first and unchanged; every added entry is non-empty, trimmed and comma-free; an empty free-text field adds nothing |
| RecipesScreen.MergeGuardRedundant | screens/RecipesScreen.js:150-155 | the merge is the stored list plus the trimmed non-empty comma pieces whether or not the field is empty |
| RecipesScreen.MergeWrittenList | screens/RecipesScreen.js:150-155 | a free-text field written as a ", "-separated list adds exactly those allergies, in order |
| RecipesScreen.SaveCalls | screens/RecipesScreen.js:170-180 | the saved record carries the user id and exactly the generated title, ingredients and instructions; nothing is saved on failure |
| RecipesScreen.RecipesForm.constructor | screens/RecipesScreen.js:29-33 | empty query, not generating, no fridge items, no requests |
| RecipesScreen.RecipesForm.OpenRecipeRequestSheet | screens/RecipesScreen.js:122-126 | the fridge is listed only for a signed-in user and replaced only when the read succeeds; the query is cleared and the sheet opened |
| RecipesScreen.RecipesForm.HandleGenerateRecipe | screens/RecipesScreen.js:129-193 | an empty fridge is refused with its message and nothing is requested; otherwise the user is read, the prompt built from fridge, query and merged preferences is sent, and a generated recipe is saved; the flag ends false; the query is reset and the sheet closed only on full success |
| RecipesScreen.SendRequest | screens/RecipesScreen.js:144-167 | the prompt sent is `PromptFor` of the fridge, the query and the user document, and the result is what the service makes of the answer |
| RecipesScreen.RecipesForm.RequestRecipe | screens/RecipesScreen.js:144-192 | the request built from the read document is `PromptFor` of the fridge and query, followed by the save of what comes back |
| RecipesScreen.RecipesForm.SaveResult | screens/RecipesScreen.js:169-192 | success only when generation and the save both succeed; then the query is `""` and the sheet closed; otherwise the generic error, the form kept |
| Profile.Remove | screens/ProfileScreen.js:169-197 | the filtered list no longer contains the id |
| Profile.RemoveCounts | screens/ProfileScreen.js:169-197 | the filtered list holds every other id as often as before and the removed id not at all |
| Profile.RemoveLength | screens/ProfileScreen.js:169-197 | exactly the occurrences of the removed id are lost |
| Profile.RemoveKeeps | screens/ProfileScreen.js:169-197 | every other id is in the list afterwards iff it was before |
| Profile.RemoveAppend | screens/ProfileScreen.js:169-197 | filtering works piece by piece, so the remaining ids keep their order |
| Profile.RemoveAbsent | screens/ProfileScreen.js:169-197 | filtering out an absent id leaves the list as it is |
| Profile.Toggle | screens/ProfileScreen.js:169-183 | after a toggle the id is in the list iff it was not before; every other id's membership is unchanged |
| Profile.ToggleAbsentAppends | screens/ProfileScreen.js:177-182 | an absent id is appended at the end, the earlier entries untouched |
| Profile.TogglePresentRemoves | screens/ProfileScreen.js:171-176 | a present id loses all its occurrences and nothing else is lost |
| Profile.ToggleCutsOut | screens/ProfileScreen.js:171-176 | a single occurrence is cut out and the ids on both sides close up in order |
| Profile.ToggleTwiceRestores | screens/ProfileScreen.js:167-185 | toggling an absent id twice restores the list |
| Profile.ToggleTwiceMovesToEnd | screens/ProfileScreen.js:167-185 | toggling a present id twice moves it to the end rather than restoring the list |
| Profile.ToggleDietPreference | screens/ProfileScreen.js:167-185 | only the diet list changes, by `Toggle` |
| Profile.ToggleAllergy | screens/ProfileScreen.js:188-206 | only the allergy list changes, by `Toggle` |
| Records.StringOr | screens/ProfileScreen.js:84-87 | JavaScript's `v || fallback` on a string: the value unless it is absent or empty |
| Records.ListOrEmpty | screens/ProfileScreen.js:84-87 | JavaScript's `v || []` on a list: the list unless it is absent, an empty list being kept |
| Profile.LoadedProfile | screens/ProfileScreen.js:70-110 | no user id: nothing changes; a failed read: the all-empty profile; otherwise the name falls back from document to account to `""`, missing lists become `[]`, a missing free-text allergy field `""` |
| Profile.EmptyDocIsMissing | screens/ProfileScreen.js:80-97 | a document without data loads like a missing document |
| SignupScreen.SignupCheck | screens/SignupScreen.js:33-51 | the first failing check wins: any empty field, then a mismatch, then a password shorter than 6 UTF-16 units; each message exactly when its check is the first to fail |
| SignupScreen.SpacesAreNotEmpty | screens/SignupScreen.js:33-38 | fields of spaces pass the emptiness check |
| SignupScreen.LengthBoundary | screens/SignupScreen.js:48-51 | a 6-character password passes and a 5-character one is refused |
| SignupScreen.SignupErrorMessage | screens/SignupScreen.js:73-85 | the three known codes get their fixed messages; any other code shows the error's own message |
| SignupScreen.SignupForm.constructor | screens/SignupScreen.js:21-25 | empty fields, not loading, no requests |
| SignupScreen.SignupForm.HandleSignup | screens/SignupScreen.js:31-92 | a refused form sends nothing and leaves loading alone; otherwise the account is created and then named, the matching error or the success dialog leading to Login is shown, and loading ends false |
| LoginScreen.LoginErrorMessage | screens/LoginScreen.js:42-51 | invalid-email gets its message, user-not-found and wrong-password the same message, any other code the error's own message |
| LoginScreen.CredentialErrorsAlike | screens/LoginScreen.js:45-48 | an unknown account and a wrong password give the same message |
| LoginScreen.LoginForm.constructor | screens/LoginScreen.js:18-20 | empty fields, not loading, no requests |
| LoginScreen.LoginForm.HandleLogin | screens/LoginScreen.js:25-58 | an empty field shows its error and sends nothing; otherwise one sign-in is sent, an error is shown mapped, a success shows nothing, and loading ends false |
| UseModal.AlertConfig | hooks/useModal.js:21-35 | the given title and message with one `Tamam` button of style default carrying the given handler |
| UseModal.ConfirmConfig | hooks/useModal.js:37-46 | exactly two buttons: `İptal`/cancel bound to the cancel handler, then `Evet`/destructive bound to the confirm handler |
| UseModal.Modal.constructor | hooks/useModal.js:4-9 | hidden, empty title and message, one `Tamam` default button |
| UseModal.Modal.ShowModal | hooks/useModal.js:11-14 | the configuration becomes exactly the given one and the dialog is visible |
| UseModal.Modal.HideModal | hooks/useModal.js:16-18 | hidden, configuration unchanged (so hiding twice is hiding once) |
| UseModal.Modal.ShowSuccess | hooks/useModal.js:21-27 | visible with `AlertConfig` of the arguments |
| UseModal.Modal.ShowError | hooks/useModal.js:29-35 | visible with `AlertConfig` of the arguments |
| UseModal.Modal.ShowConfirm | hooks/useModal.js:37-46 | visible with `ConfirmConfig` of the arguments |
| FridgeScreen.SavedMessage | screens/FridgeScreen.js:132 | `Ürün güncellendi.` iff the form was editing, `Ürün eklendi.` iff it was adding |
| FridgeScreen.ItemForm.constructor | screens/FridgeScreen.js:29-31 | an empty form in add mode, closed, no writes |
| FridgeScreen.ItemForm.OpenAddItemSheet | screens/FridgeScreen.js:90-95 | add mode with empty name and quantity, sheet open, no write |
| FridgeScreen.ItemForm.OpenEditItemSheet | screens/FridgeScreen.js:97-102 | edit mode on the item, name and quantity copied from it, sheet open, no write |
| FridgeScreen.ItemForm.HandleSaveItem | screens/FridgeScreen.js:104-137 | a name blank after trimming is refused and nothing is written; otherwise one write of the untrimmed name, an update of the edited id or an add under the user id; on success the form is reset and the message reflects the mode before the reset; on failure the form is kept |
| RecipeDetailScreen.RecipeRef.constructor | screens/RecipeDetailScreen.js:23 | the recipe object with its id and title |
| RecipeDetailScreen.DetailScreen.constructor | screens/RecipeDetailScreen.js:23-26 | both the edited and the shown title start as the recipe's title |
| RecipeDetailScreen.DetailScreen.OpenEditTitleSheet | screens/RecipeDetailScreen.js:50-53 | the edited title is reset to the recipe's current title |
| RecipeDetailScreen.DetailScreen.UpdateRecipeTitle | screens/RecipeDetailScreen.js:61-87 | a blank title is refused with nothing sent; otherwise the trimmed title is sent; on success the recipe object and the shown title both become it; on failure both are unchanged; the shown title always equals the recipe's |
| AppNavigator.TabBarIcon | navigation/AppNavigator.js:28-51 | `kitchen` iff `Fridge`; `restaurant` iff `Recipes`, `RecipeDetail` or `RecipesList`; `person` iff `Profile`; `circle` for every other name |
| AppNavigator.IconRouteName | navigation/AppNavigator.js:60 | the focused nested route's name when there is one (even empty), else the tab's name |
| AppNavigator.RecipesTabIcon | navigation/AppNavigator.js:59-61 | the recipes tab shows `restaurant` whichever screen of its stack is focused |

## Left out

- Regular-expression flags: the `/i` flag of the four parser patterns is not modelled. The markers are matched as exact literals, so markers in another case are not covered. Without the `u` flag, `/i` folds ASCII letters and pairs such as `ş`/`Ş`, but `ı` folds with nothing: `BAŞLIK: ` would not match the title pattern, while `BAŞLıK: ` would.
- The HTTP exchange: the `fetch` call, its headers, its JSON body, the model name, `temperature`, `max_tokens` and the API key and URL configuration. The endpoint is the function parameter `complete`. A JSON body that cannot be parsed, or content that cannot be reached, appears as the error message it raises.
- Firebase: Firestore reads, writes and snapshot listeners, the authentication calls and `firebase/config.js`. Each is a success or failure parameter. Writes are recorded in a request log rather than applied to a store.
- Asynchrony: `async`/`await`, taps repeated while a request is in flight, and listener callbacks. A method runs a handler to its end in one step. The transient `loading`, `saving` and `generatingRecipe` true states are set and cleared inside that step.
- The unreachable `catch` at services/openai.js:100-103: the parser cannot throw on a string.
- The `.catch` at screens/ProfileScreen.js:114-117 cannot fire, because `fetchUserProfile` catches its own errors.
- Logging (`console.log`, `console.error`), rendering, styles, bottom-sheet animation, `components/CustomModal.js` and the sign-in gate of `App.tsx`.
- Profile operations outside the toggles and the load: `handleSaveProfile`, `handleSignOut`, and the recipe and item deletions.
- The recipe and fridge lists' snapshot listeners (`fetchRecipes`, FridgeScreen's `fetchFridgeItems`).
- Values of the wrong type in stored documents, such as a number where a string is expected. Every field is either absent or of its expected type.
- RecipesScreen.RecipesForm.HandleGenerateRecipe: the user id is a string. A signed-out user (an undefined id) is not modelled; the document read then fails like any other read.
- FridgeScreen.ItemForm.HandleSaveItem: the user id is a string. A signed-out user is not modelled.
