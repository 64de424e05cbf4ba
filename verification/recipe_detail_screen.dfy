/** screens/RecipeDetailScreen.js: renaming a saved recipe. */
module RecipeDetailScreen {
  import opened Text
  import opened UseModal

  const ErrorTitle := "Hata"
  const EmptyTitleMessage := "Tarif başlığı boş olamaz"
  const UpdateFailedMessage := "Tarif güncellenirken bir sorun oluştu"
  const SuccessTitle := "Başarılı"
  const UpdatedMessage := "Tarif başlığı güncellendi"

  /** The recipe object handed over in the navigation parameters; the
      screen overwrites its title in place. */
  class RecipeRef {
    const id: string
    var title: string

    constructor(i: string, t: string)
      ensures id == i && title == t
    {
      id := i;
      title := t;
    }
  }

  /** A title update sent to the `recipes` collection. */
  datatype TitleUpdate = TitleUpdate(id: string, title: string)

  class DetailScreen {
    const recipe: RecipeRef
    const modal: Modal
    var editedTitle: string
    var recipeTitle: string
    var sheetOpen: bool
    /** Every update sent to the store, oldest first. */
    var updates: seq<TitleUpdate>

    /** The shown title is the recipe object's title, and every title sent
        to the store is a trimmed, non-empty title of this recipe. */
    predicate Valid()
      reads this, recipe
    {
      && recipeTitle == recipe.title
      && forall u :: u in updates ==> u.id == recipe.id && u.title != "" && IsTrimmed(u.title)
    }

    /** Lines 25-26: both titles start as the recipe's. */
    constructor(r: RecipeRef, m: Modal)
      ensures recipe == r && modal == m && Valid()
      ensures editedTitle == r.title && recipeTitle == r.title && !sheetOpen && updates == []
    {
      recipe := r;
      modal := m;
      editedTitle := r.title;
      recipeTitle := r.title;
      sheetOpen := false;
      updates := [];
    }

    /** Lines 50-53: the edit box starts from the recipe's current title. */
    method OpenEditTitleSheet()
      requires Valid()
      modifies this
      ensures Valid() && editedTitle == recipe.title && sheetOpen
      ensures recipeTitle == old(recipeTitle) && updates == old(updates)
    {
      editedTitle := recipe.title;
      sheetOpen := true;
    }

    /** Lines 61-87, given whether the store accepts the update. */
    method UpdateRecipeTitle(updateSucceeds: bool)
      requires Valid()
      modifies this, recipe, modal
      ensures Valid() && modal.visible && editedTitle == old(editedTitle)
      // a blank title is refused before anything is sent
      ensures Trim(editedTitle) == "" ==>
        && updates == old(updates) && recipe.title == old(recipe.title)
        && sheetOpen == old(sheetOpen)
        && modal.config == AlertConfig(ErrorTitle, EmptyTitleMessage, Noop)
      // otherwise the trimmed title is sent
      ensures Trim(editedTitle) != "" ==> updates == old(updates) + [TitleUpdate(recipe.id, Trim(editedTitle))]
      // and on success both the recipe object and the shown title take it
      ensures Trim(editedTitle) != "" && updateSucceeds ==>
        && recipe.title == Trim(editedTitle) && !sheetOpen
        && modal.config == AlertConfig(SuccessTitle, UpdatedMessage, Noop)
      // while a refused update leaves them as they were
      ensures Trim(editedTitle) != "" && !updateSucceeds ==>
        && recipe.title == old(recipe.title) && sheetOpen == old(sheetOpen)
        && modal.config == AlertConfig(ErrorTitle, UpdateFailedMessage, Noop)
    {
      var t := Trim(editedTitle);
      if t == "" {
        modal.ShowError(ErrorTitle, EmptyTitleMessage, Noop);
        return;
      }
      updates := updates + [TitleUpdate(recipe.id, t)];
      if !updateSucceeds {
        modal.ShowError(ErrorTitle, UpdateFailedMessage, Noop);
        return;
      }
      recipe.title := t;
      recipeTitle := t;
      modal.ShowSuccess(SuccessTitle, UpdatedMessage, Noop);
      sheetOpen := false;
    }
  }
}
