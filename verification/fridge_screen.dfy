/** screens/FridgeScreen.js: the add/edit form for fridge items. */
module FridgeScreen {
  import opened Text
  import opened Records
  import opened UseModal

  const ErrorTitle := "Hata"
  const EmptyNameMessage := "Ürün adı boş olamaz"
  const SaveFailedMessage := "Ürün kaydedilirken bir sorun oluştu."
  const SuccessTitle := "Başarılı"
  const UpdatedMessage := "Ürün güncellendi."
  const AddedMessage := "Ürün eklendi."

  /** A write sent to the `fridgeItems` collection (timestamps left out). */
  datatype ItemWrite =
    | UpdateItem(id: string, name: string, quantity: string)
    | AddItem(userId: string, name: string, quantity: string)

  /** The message after a successful save, chosen by the mode the form was in. */
  function SavedMessage(editing: Option<FridgeItem>): (m: string)
    ensures m == UpdatedMessage <==> editing.Some?
    ensures m == AddedMessage <==> editing.None?
  {
    if editing.Some? then UpdatedMessage else AddedMessage
  }

  class ItemForm {
    const modal: Modal
    const userId: string
    var newItemName: string
    var newItemQuantity: string
    /** The item being edited; `None` in add mode. */
    var editingItem: Option<FridgeItem>
    var sheetOpen: bool
    /** Every write sent to the store, oldest first. */
    var writes: seq<ItemWrite>

    constructor(m: Modal, uid: string)
      ensures modal == m && userId == uid
      ensures newItemName == "" && newItemQuantity == "" && editingItem.None?
      ensures !sheetOpen && writes == []
    {
      modal := m;
      userId := uid;
      newItemName := "";
      newItemQuantity := "";
      editingItem := None;
      sheetOpen := false;
      writes := [];
    }

    /** Lines 90-95: an empty form in add mode. */
    method OpenAddItemSheet()
      modifies this
      ensures editingItem.None? && newItemName == "" && newItemQuantity == ""
      ensures sheetOpen && writes == old(writes)
    {
      editingItem := None;
      newItemName := "";
      newItemQuantity := "";
      sheetOpen := true;
    }

    /** Lines 97-102: the form filled from `item`, in edit mode. */
    method OpenEditItemSheet(item: FridgeItem)
      modifies this
      ensures editingItem == Some(item)
      ensures newItemName == item.name && newItemQuantity == item.quantity
      ensures sheetOpen && writes == old(writes)
    {
      editingItem := Some(item);
      newItemName := item.name;
      newItemQuantity := item.quantity;
      sheetOpen := true;
    }

    /** Lines 104-137, given whether the store accepts the write. The name is
        trimmed only to test it; the store gets it as typed. */
    method HandleSaveItem(writeSucceeds: bool)
      modifies this, modal
      ensures modal.visible
      // a blank name: nothing is written and the form stays as it was
      ensures Trim(old(newItemName)) == "" ==>
        && writes == old(writes) && newItemName == old(newItemName)
        && newItemQuantity == old(newItemQuantity) && editingItem == old(editingItem)
        && sheetOpen == old(sheetOpen)
        && modal.config == AlertConfig(ErrorTitle, EmptyNameMessage, Noop)
      // otherwise exactly one write, of the record the mode calls for
      ensures Trim(old(newItemName)) != "" ==>
        writes == old(writes) + [
          if old(editingItem).Some?
          then UpdateItem(old(editingItem).value.id, old(newItemName), old(newItemQuantity))
          else AddItem(userId, old(newItemName), old(newItemQuantity))]
      // a stored item: the form is reset, an edit also closes the sheet
      ensures Trim(old(newItemName)) != "" && writeSucceeds ==>
        && newItemName == "" && newItemQuantity == "" && editingItem.None?
        && sheetOpen == (old(sheetOpen) && old(editingItem).None?)
        && modal.config == AlertConfig(SuccessTitle, SavedMessage(old(editingItem)), Noop)
      // a refused write: the form is kept for another try
      ensures Trim(old(newItemName)) != "" && !writeSucceeds ==>
        && newItemName == old(newItemName) && newItemQuantity == old(newItemQuantity)
        && editingItem == old(editingItem) && sheetOpen == old(sheetOpen)
        && modal.config == AlertConfig(ErrorTitle, SaveFailedMessage, Noop)
    {
      if Trim(newItemName) == "" {
        modal.ShowError(ErrorTitle, EmptyNameMessage, Noop);
        return;
      }
      var editing := editingItem;
      if editing.Some? {
        writes := writes + [UpdateItem(editing.value.id, newItemName, newItemQuantity)];
      } else {
        writes := writes + [AddItem(userId, newItemName, newItemQuantity)];
      }
      if !writeSucceeds {
        modal.ShowError(ErrorTitle, SaveFailedMessage, Noop);
        return;
      }
      if editing.Some? {
        sheetOpen := false;
      }
      newItemName := "";
      newItemQuantity := "";
      editingItem := None;
      modal.ShowSuccess(SuccessTitle, SavedMessage(editing), Noop);
    }
  }
}
