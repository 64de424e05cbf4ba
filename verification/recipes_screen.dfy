/** screens/RecipesScreen.js: turning the fridge contents and the user's
    preferences into a recipe request, and saving what comes back. */
module RecipesScreen {
  import opened Text
  import opened Records
  import opened UseModal
  import RecipeParser
  import RecipeService

  const ErrorTitle := "Hata"
  const EmptyFridgeMessage := "Buzdolabınızda ürün bulunmuyor. Önce ürün ekleyin."
  const GenerateFailedMessage := "Tarif oluşturulurken bir sorun oluştu."
  const SuccessTitle := "Başarılı"
  const GeneratedMessage := "Yeni tarif oluşturuldu!"

  /** How one fridge item is named in the request: `name (quantity)`. */
  function ItemLabel(item: FridgeItem): (shown: string)
    ensures |shown| == |item.name| + |item.quantity| + 3
    ensures shown[..|item.name|] == item.name
    ensures shown[|item.name|..] == " (" + item.quantity + ")"
  {
    item.name + " (" + item.quantity + ")"
  }

  function Labels(items: seq<FridgeItem>): (labels: seq<string>)
    ensures |labels| == |items|
    ensures forall k :: 0 <= k < |items| ==> labels[k] == ItemLabel(items[k])
  {
    if items == [] then [] else [ItemLabel(items[0])] + Labels(items[1..])
  }

  /** Line 159: the item labels in list order, separated by ", ". */
  function IngredientList(items: seq<FridgeItem>): (list: string)
    ensures list == "" <==> items == []
    ensures items != [] ==> |ItemLabel(items[0])| <= |list| && list[..|ItemLabel(items[0])|] == ItemLabel(items[0])
  {
    JoinStartsWith(Labels(items), ", ");
    Join(Labels(items), ", ")
  }

  /** One item is named on its own; each further item is added after ", ",
      so the list keeps the fridge's order. */
  lemma {:induction false} IngredientListOrder(item: FridgeItem, items: seq<FridgeItem>)
    ensures IngredientList([item]) == ItemLabel(item)
    ensures items != [] ==> IngredientList([item] + items) == ItemLabel(item) + ", " + IngredientList(items)
  {
    assert Labels([item]) == [ItemLabel(item)];
    if items != [] {
      var all := [item] + items;
      assert all[1..] == items;
      assert Labels(all) == [ItemLabel(item)] + Labels(items);
    }
  }

  /** Lines 150-155: the stored allergies, then the comma-separated pieces
      of the free-text field, trimmed, without the empty ones. */
  function MergeAllergies(stored: seq<string>, other: string): (all: seq<string>)
    ensures |stored| <= |all| && all[..|stored|] == stored
    ensures forall k :: |stored| <= k < |all| ==> all[k] != "" && IsTrimmed(all[k]) && ',' !in all[k]
    ensures other == "" ==> all == stored
  {
    if other != "" then
      var extra := TrimmedNonEmpty(SplitOn(other, ','));
      TrimmedNonEmptyAvoids(SplitOn(other, ','), ',');
      assert forall k :: |stored| <= k < |stored + extra| ==> (stored + extra)[k] in extra;
      stored + extra
    else stored
  }

  /** The `if (otherAllergies)` guard changes nothing: an empty field splits
      into a single empty piece, which the filter drops. */
  lemma {:induction false} MergeGuardRedundant(stored: seq<string>, other: string)
    ensures MergeAllergies(stored, other) == stored + TrimmedNonEmpty(SplitOn(other, ','))
  {
    if other == "" {
      SplitEmptyDropped(other, ',');
      AppendEmpty(stored);
    }
  }

  /** Allergies written into the free-text field as a ", "-separated list
      arrive one by one, after the stored ones. */
  lemma {:induction false} MergeWrittenList(stored: seq<string>, written: seq<string>)
    requires forall p :: p in written ==> p != "" && IsTrimmed(p) && ',' !in p
    ensures MergeAllergies(stored, Join(written, ", ")) == stored + written
  {
    MergeGuardRedundant(stored, Join(written, ", "));
    JoinThenSplitRoundTrip(written);
  }

  /** The user document as the screen reads it; a missing document reads
      as `NoFields`. */
  datatype UserLookup = ReadFailed | ReadOk(doc: UserDoc)

  /** A request the screen makes of Firebase or of the completion service. */
  datatype Call =
    | ReadUser(uid: string)
    | ListFridge(uid: string)
    | Complete(prompt: string)
    | SaveRecipe(record: RecipeRecord)

  /** The request for a recipe, built from the fridge and the user document. */
  function PromptFor(items: seq<FridgeItem>, query: string, doc: UserDoc): (prompt: string)
    ensures StringOr(doc.otherAllergies, "") == "" ==>
      prompt == RecipeService.PromptText(IngredientList(items), query, ListOrEmpty(doc.allergies),
                                         ListOrEmpty(doc.dietPreferences))
  {
    RecipeService.PromptText(IngredientList(items), query,
      MergeAllergies(ListOrEmpty(doc.allergies), StringOr(doc.otherAllergies, "")),
      ListOrEmpty(doc.dietPreferences))
  }

  lemma {:induction false} PromptForIs(items: seq<FridgeItem>, query: string, doc: UserDoc, prompt: string)
    requires prompt == RecipeService.PromptText(IngredientList(items), query,
      MergeAllergies(ListOrEmpty(doc.allergies), StringOr(doc.otherAllergies, "")),
      ListOrEmpty(doc.dietPreferences))
    ensures prompt == PromptFor(items, query, doc)
  {
  }

  /** The store write for a generated recipe: the user's id and exactly the
      recipe's three parts; nothing is written when generation failed. */
  function SaveCalls(userId: string, result: Result<RecipeParser.Recipe>): (writes: seq<Call>)
    ensures result.Failure? ==> writes == []
    ensures result.Success? ==>
      && |writes| == 1 && writes[0].SaveRecipe? && writes[0].record.userId == userId
      && writes[0].record.title == result.value.title
      && writes[0].record.ingredients == result.value.ingredients
      && writes[0].record.instructions == result.value.instructions
  {
    match result
    case Failure(_) => []
    case Success(r) => [SaveRecipe(RecipeRecord(userId, r.title, r.ingredients, r.instructions))]
  }

  /** Lines 144-167: the user's preferences with their defaults, the
      merged allergies and the ingredient string, handed to `generateRecipe`. */
  method SendRequest(items: seq<FridgeItem>, query: string, doc: UserDoc,
                     complete: string -> RecipeService.Response)
    returns (prompt: string, result: Result<RecipeParser.Recipe>)
    ensures prompt == PromptFor(items, query, doc)
    ensures result == RecipeService.HandleResponse(complete(prompt))
  {
    var allergies := ListOrEmpty(doc.allergies);
    var otherAllergies := StringOr(doc.otherAllergies, "");
    var dietPreferences := ListOrEmpty(doc.dietPreferences);
    var allAllergies := MergeAllergies(allergies, otherAllergies);
    var ingredients := IngredientList(items);
    prompt, result := RecipeService.GenerateRecipe(ingredients, query, allAllergies,
                                                   dietPreferences, complete);
    PromptForIs(items, query, doc, prompt);
  }

  class RecipesForm {
    const modal: Modal
    const userId: string
    var recipeQuery: string
    var generatingRecipe: bool
    var fridgeItems: seq<FridgeItem>
    var sheetOpen: bool
    /** Every request made, oldest first. */
    var calls: seq<Call>

    constructor(m: Modal, uid: string)
      ensures modal == m && userId == uid && recipeQuery == "" && !generatingRecipe
      ensures fridgeItems == [] && !sheetOpen && calls == []
    {
      modal := m;
      userId := uid;
      recipeQuery := "";
      generatingRecipe := false;
      fridgeItems := [];
      sheetOpen := false;
      calls := [];
    }

    /** Lines 63-84 and 122-126: reload the fridge (`None` when the read
        fails, which is only logged), clear the query and open the sheet. */
    method OpenRecipeRequestSheet(fetched: Option<seq<FridgeItem>>)
      modifies this
      ensures userId != "" ==> calls == old(calls) + [ListFridge(userId)]
      ensures userId == "" ==> calls == old(calls)
      ensures fridgeItems == (if userId != "" && fetched.Some? then fetched.value else old(fridgeItems))
      ensures recipeQuery == "" && sheetOpen && generatingRecipe == old(generatingRecipe)
    {
      if userId != "" {
        calls := calls + [ListFridge(userId)];
        if fetched.Some? {
          fridgeItems := fetched.value;
        }
      }
      recipeQuery := "";
      sheetOpen := true;
    }

    /** Lines 129-193, given what the user read gives, how the completion
        service answers a prompt, and whether the store takes the recipe. */
    method HandleGenerateRecipe(lookup: UserLookup, complete: string -> RecipeService.Response, saveSucceeds: bool)
      modifies this, modal
      ensures fridgeItems == old(fridgeItems) && modal.visible
      ensures old(fridgeItems) != [] ==> !generatingRecipe
      // an empty fridge: refused before anything is asked for
      ensures old(fridgeItems) == [] ==>
        && calls == old(calls) && recipeQuery == old(recipeQuery) && sheetOpen == old(sheetOpen)
        && generatingRecipe == old(generatingRecipe)
        && modal.config == AlertConfig(ErrorTitle, EmptyFridgeMessage, Noop)
      // the user's document cannot be read
      ensures old(fridgeItems) != [] && lookup.ReadFailed? ==>
        && calls == old(calls) + [ReadUser(userId)]
        && recipeQuery == old(recipeQuery) && sheetOpen == old(sheetOpen)
        && modal.config == AlertConfig(ErrorTitle, GenerateFailedMessage, Noop)
      // otherwise the prompt is sent, and a recipe that comes back is saved
      ensures old(fridgeItems) != [] && lookup.ReadOk? ==>
        var prompt := PromptFor(old(fridgeItems), old(recipeQuery), lookup.doc);
        var result := RecipeService.HandleResponse(complete(prompt));
        && calls == old(calls) + [ReadUser(userId)] + [Complete(prompt)] + SaveCalls(userId, result)
        && (result.Success? && saveSucceeds ==>
              && recipeQuery == "" && !sheetOpen
              && modal.config == AlertConfig(SuccessTitle, GeneratedMessage, Noop))
        && (result.Failure? || !saveSucceeds ==>
              && recipeQuery == old(recipeQuery) && sheetOpen == old(sheetOpen)
              && modal.config == AlertConfig(ErrorTitle, GenerateFailedMessage, Noop))
    {
      if fridgeItems == [] {
        modal.ShowError(ErrorTitle, EmptyFridgeMessage, Noop);
        return;
      }
      generatingRecipe := true;
      calls := calls + [ReadUser(userId)];
      if lookup.ReadFailed? {
        generatingRecipe := false;
        modal.ShowError(ErrorTitle, GenerateFailedMessage, Noop);
        return;
      }
      RequestRecipe(lookup.doc, complete, saveSucceeds);
    }

    /** Lines 139-192 once the user's document has been read: build the
        request, send it, and save the recipe that comes back. */
    method RequestRecipe(doc: UserDoc, complete: string -> RecipeService.Response, saveSucceeds: bool)
      modifies this, modal
      ensures fridgeItems == old(fridgeItems) && modal.visible && !generatingRecipe
      ensures
        var prompt := PromptFor(old(fridgeItems), old(recipeQuery), doc);
        var result := RecipeService.HandleResponse(complete(prompt));
        && calls == old(calls) + [Complete(prompt)] + SaveCalls(userId, result)
        && (result.Success? && saveSucceeds ==>
              && recipeQuery == "" && !sheetOpen
              && modal.config == AlertConfig(SuccessTitle, GeneratedMessage, Noop))
        && (result.Failure? || !saveSucceeds ==>
              && recipeQuery == old(recipeQuery) && sheetOpen == old(sheetOpen)
              && modal.config == AlertConfig(ErrorTitle, GenerateFailedMessage, Noop))
    {
      var prompt, result := SendRequest(fridgeItems, recipeQuery, doc, complete);
      calls := calls + [Complete(prompt)];
      SaveResult(result, saveSucceeds);
    }

    /** Lines 169-192: a generated recipe is stored under the user's id;
        only when that works is the form reset and the sheet closed. */
    method SaveResult(result: Result<RecipeParser.Recipe>, saveSucceeds: bool)
      modifies this, modal
      ensures fridgeItems == old(fridgeItems) && modal.visible && !generatingRecipe
      ensures calls == old(calls) + SaveCalls(userId, result)
      ensures result.Success? && saveSucceeds ==>
        && recipeQuery == "" && !sheetOpen
        && modal.config == AlertConfig(SuccessTitle, GeneratedMessage, Noop)
      ensures result.Failure? || !saveSucceeds ==>
        && recipeQuery == old(recipeQuery) && sheetOpen == old(sheetOpen)
        && modal.config == AlertConfig(ErrorTitle, GenerateFailedMessage, Noop)
    {
      generatingRecipe := false;
      if result.Failure? {
        modal.ShowError(ErrorTitle, GenerateFailedMessage, Noop);
        return;
      }
      calls := calls + SaveCalls(userId, result);
      if !saveSucceeds {
        modal.ShowError(ErrorTitle, GenerateFailedMessage, Noop);
        return;
      }
      modal.ShowSuccess(SuccessTitle, GeneratedMessage, Noop);
      sheetOpen := false;
      recipeQuery := "";
    }
  }
}
