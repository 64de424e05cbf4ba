/** screens/ProfileScreen.js: the profile being edited, the two list
    toggles and the normalisation of a loaded profile. */
module Profile {
  import opened Text
  import opened Records

  datatype UserProfile = UserProfile(
    displayName: string,
    dietPreferences: seq<string>,
    allergies: seq<string>,
    otherAllergies: string)

  /** The profile before loading, and after a failed load. */
  const EmptyProfile := UserProfile("", [], [], "")

  /** `xs.filter(y => y !== x)`: every occurrence of `x` goes, the rest
      keep their order (see `RemoveAppend`). */
  function Remove(xs: seq<string>, x: string): (r: seq<string>)
    ensures x !in r
  {
    if xs == [] then []
    else (if xs[0] == x then [] else [xs[0]]) + Remove(xs[1..], x)
  }

  /** What stays after a removal: every other id, as often as before. */
  lemma {:induction false} RemoveCounts(xs: seq<string>, x: string)
    ensures multiset(Remove(xs, x)) == multiset(xs)[x := 0]
  {
    if xs != [] {
      var head := if xs[0] == x then [] else [xs[0]];
      RemoveCounts(xs[1..], x);
      assert xs == [xs[0]] + xs[1..];
      assert multiset(xs) == multiset([xs[0]]) + multiset(xs[1..]);
      assert multiset(Remove(xs, x)) == multiset(head) + multiset(Remove(xs[1..], x));
      assert multiset(head) == multiset([xs[0]])[x := 0];
    }
  }

  /** Exactly the occurrences of the removed id are lost. */
  lemma {:induction false} RemoveLength(xs: seq<string>, x: string)
    ensures |Remove(xs, x)| == |xs| - multiset(xs)[x]
  {
    if xs != [] {
      RemoveLength(xs[1..], x);
      assert xs == [xs[0]] + xs[1..];
      assert multiset(xs)[x] == multiset([xs[0]])[x] + multiset(xs[1..])[x];
    }
  }

  /** Every other id is in the list after the removal iff it was before. */
  lemma {:induction false} RemoveKeeps(xs: seq<string>, x: string)
    ensures forall y :: y != x ==> (y in Remove(xs, x) <==> y in xs)
  {
    RemoveCounts(xs, x);
    forall y | y != x
      ensures y in Remove(xs, x) <==> y in xs
    {
      assert y in Remove(xs, x) <==> multiset(Remove(xs, x))[y] > 0;
      assert y in xs <==> multiset(xs)[y] > 0;
    }
  }

  /** Removal works piece by piece, so it keeps the order of what stays. */
  lemma {:induction false} RemoveAppend(a: seq<string>, b: seq<string>, x: string)
    ensures Remove(a + b, x) == Remove(a, x) + Remove(b, x)
  {
    if a == [] {
      assert a + b == b;
    } else {
      var head := if a[0] == x then [] else [a[0]];
      assert (a + b)[0] == a[0];
      assert (a + b)[1..] == a[1..] + b;
      assert Remove(a + b, x) == head + Remove(a[1..] + b, x);
      RemoveAppend(a[1..], b, x);
      assert Remove(a, x) == head + Remove(a[1..], x);
      assert head + (Remove(a[1..], x) + Remove(b, x)) == (head + Remove(a[1..], x)) + Remove(b, x);
    }
  }

  /** Removing an id that is not there changes nothing. */
  lemma {:induction false} RemoveAbsent(xs: seq<string>, x: string)
    requires x !in xs
    ensures Remove(xs, x) == xs
  {
    if xs != [] {
      assert xs[0] != x;
      assert forall y :: y in xs[1..] ==> y in xs;
      RemoveAbsent(xs[1..], x);
      assert xs == [xs[0]] + xs[1..];
    }
  }

  /** The updater shared by `toggleDietPreference` and `toggleAllergy`. */
  function Toggle(xs: seq<string>, id: string): (r: seq<string>)
    ensures id in r <==> id !in xs
    ensures forall y :: y != id ==> (y in r <==> y in xs)
  {
    RemoveKeeps(xs, id);
    if id in xs then Remove(xs, id) else xs + [id]
  }

  /** An absent id is appended at the end; the list before it is untouched. */
  lemma {:induction false} ToggleAbsentAppends(xs: seq<string>, id: string)
    requires id !in xs
    ensures Toggle(xs, id) == xs + [id]
    ensures Toggle(xs, id)[..|xs|] == xs
  {
  }

  /** A present id loses every occurrence; nothing else is lost. */
  lemma {:induction false} TogglePresentRemoves(xs: seq<string>, id: string)
    requires id in xs
    ensures multiset(Toggle(xs, id)) == multiset(xs)[id := 0]
    ensures |Toggle(xs, id)| == |xs| - multiset(xs)[id]
  {
    RemoveCounts(xs, id);
    RemoveLength(xs, id);
  }

  /** A single occurrence is cut out, the ids around it close up in order. */
  lemma {:induction false} ToggleCutsOut(a: seq<string>, id: string, b: seq<string>)
    requires id !in a && id !in b
    ensures Toggle(a + [id] + b, id) == a + b
  {
    var xs := a + [id] + b;
    assert xs[|a|] == id;
    RemoveAppend(a + [id], b, id);
    RemoveAppend(a, [id], id);
    RemoveAbsent(a, id);
    RemoveAbsent(b, id);
    assert Remove([id], id) == [] + Remove([], id);
    assert Remove(a + [id], id) == a;
    assert Remove(xs, id) == a + b;
  }

  /** Selecting and then deselecting an id restores the list. */
  lemma {:induction false} ToggleTwiceRestores(xs: seq<string>, id: string)
    requires id !in xs
    ensures Toggle(Toggle(xs, id), id) == xs
  {
    RemoveAppend(xs, [id], id);
    RemoveAbsent(xs, id);
  }

  /** Deselecting and then selecting an id that appears once moves it to the
      end of the list rather than back to its place. */
  lemma {:induction false} ToggleTwiceMovesToEnd(a: seq<string>, id: string, b: seq<string>)
    requires id !in a && id !in b
    ensures Toggle(Toggle(a + [id] + b, id), id) == a + b + [id]
  {
    ToggleCutsOut(a, id, b);
    assert id !in a + b;
  }

  /** Lines 167-185: only the diet list changes. */
  function ToggleDietPreference(p: UserProfile, id: string): (r: UserProfile)
    ensures r.dietPreferences == Toggle(p.dietPreferences, id)
    ensures r.displayName == p.displayName && r.allergies == p.allergies
    ensures r.otherAllergies == p.otherAllergies
  {
    p.(dietPreferences := Toggle(p.dietPreferences, id))
  }

  /** Lines 188-206: only the allergy list changes. */
  function ToggleAllergy(p: UserProfile, id: string): (r: UserProfile)
    ensures r.allergies == Toggle(p.allergies, id)
    ensures r.displayName == p.displayName && r.dietPreferences == p.dietPreferences
    ensures r.otherAllergies == p.otherAllergies
  {
    p.(allergies := Toggle(p.allergies, id))
  }

  /** What reading the user's document gave. */
  datatype FetchOutcome = FetchFailed | DocMissing | DocFound(doc: UserDoc)

  /** A name that JavaScript's `||` keeps. */
  predicate Named(v: Option<string>) {
    v.Some? && v.value != ""
  }

  /** The profile `fetchUserProfile` leaves behind, given the signed-in
      user's id and display name and what the read gave. */
  function LoadedProfile(userId: Option<string>, current: UserProfile, outcome: FetchOutcome,
                         authName: Option<string>): (r: UserProfile)
    // no user: nothing is loaded
    ensures !Named(userId) ==> r == current
    // a failed read resets every field
    ensures Named(userId) && outcome.FetchFailed? ==> r == EmptyProfile
    // the name comes from the document, else from the account, else is empty
    ensures Named(userId) && outcome.DocFound? && Named(outcome.doc.displayName) ==>
      r.displayName == outcome.doc.displayName.value
    ensures (Named(userId) && !outcome.FetchFailed? &&
             !(outcome.DocFound? && Named(outcome.doc.displayName))) ==>
      r.displayName == (if Named(authName) then authName.value else "")
    // absent fields become empty
    ensures Named(userId) && outcome.DocMissing? ==> r == UserProfile(r.displayName, [], [], "")
    ensures Named(userId) && outcome.DocFound? ==>
      && (outcome.doc.dietPreferences.None? ==> r.dietPreferences == [])
      && (outcome.doc.dietPreferences.Some? ==> r.dietPreferences == outcome.doc.dietPreferences.value)
      && (outcome.doc.allergies.None? ==> r.allergies == [])
      && (outcome.doc.allergies.Some? ==> r.allergies == outcome.doc.allergies.value)
      && (r.otherAllergies == "" <==> !Named(outcome.doc.otherAllergies))
      && (Named(outcome.doc.otherAllergies) ==> r.otherAllergies == outcome.doc.otherAllergies.value)
  {
    if !Named(userId) then current
    else match outcome
      case FetchFailed => EmptyProfile
      case DocMissing => UserProfile(StringOr(authName, ""), [], [], "")
      case DocFound(d) =>
        UserProfile(StringOr(d.displayName, StringOr(authName, "")),
                    ListOrEmpty(d.dietPreferences), ListOrEmpty(d.allergies),
                    StringOr(d.otherAllergies, ""))
  }

  /** A document without data loads exactly like no document. */
  lemma {:induction false} EmptyDocIsMissing(userId: Option<string>, current: UserProfile, authName: Option<string>)
    ensures LoadedProfile(userId, current, DocFound(NoFields), authName) ==
            LoadedProfile(userId, current, DocMissing, authName)
  {
  }
}
