/** The Firestore documents the screens read and write, as values. */
module Records {
  import opened Text

  /** A document of the `fridgeItems` collection, with its id. */
  datatype FridgeItem = FridgeItem(id: string, name: string, quantity: string)

  /** A document of the `users` collection. Every field may be absent; a
      user with no document reads as the document with no fields. */
  datatype UserDoc = UserDoc(
    displayName: Option<string>,
    dietPreferences: Option<seq<string>>,
    allergies: Option<seq<string>>,
    otherAllergies: Option<string>)

  const NoFields := UserDoc(None, None, None, None)

  /** A document of the `recipes` collection (the server timestamp is left out). */
  datatype RecipeRecord = RecipeRecord(userId: string, title: string, ingredients: seq<string>, instructions: string)

  /** What a Firebase authentication call gave: success, or an error with
      its code (such as `auth/invalid-email`) and its message. */
  datatype AuthOutcome = AuthOk | AuthError(code: string, message: string)

  /** JavaScript's `v || fallback` on a string that may be absent: the empty
      string is falsy, so it falls back too. */
  function StringOr(v: Option<string>, fallback: string): string {
    if v.Some? && v.value != "" then v.value else fallback
  }

  /** JavaScript's `v || []` on a list that may be absent: an empty array is
      truthy, so only absence falls back (to the same empty list). */
  function ListOrEmpty(v: Option<seq<string>>): seq<string> {
    if v.Some? then v.value else []
  }
}
