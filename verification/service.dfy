/** The completion request of services/openai.js (`generateRecipe`): the
    prompt built from the fridge contents and the user's preferences, and
    what becomes of the endpoint's answer. The HTTP exchange itself is a
    function from the prompt to an abstract response. */
module RecipeService {
  import opened Text
  import opened RecipeParser

  const Opening := "Buzdolabımda şu malzemeler var: "
  const ClauseEnd := ". "
  const ListSeparator := ", "
  const AllergiesLabel := "Alerjilerim: "
  const DietLabel := "Diyet tercihlerim: "
  /** The fixed instructions to the model, sentence by sentence. */
  const Guidance :=
    "Elimdeki malzemeleri, alerjilerimi ve diyet tercihlerimi veriyorum. "
    + "Bu bilgilere göre bana uygun, lezzetli ve pratik bir yemek tarifi öner. "
    + "Tüm malzemeleri kullanmak zorunda değilsin, ama elimdeki malzemelerden olabildiğince faydalanmaya çalış. "
    + "Diyet tercihlerime ve alerjilerime kesinlikle uymalısın. "
    + "Tarif başlığı kısa ve öz olmalı, maksimum 20 karakter uzunluğunda olsun. "
    + "Tarifin adım adım yapılışını ve varsa ekstra ipuçlarını da yaz. "
  const FormatIntro := "Yanıtı şu formatta ver: \""
  const FormatTitle := TitleMarker + "[Tarif Adı], "
  const FormatList := IngredientsMarker + "[malzeme listesi], "
  const FormatSteps := StepsMarker + "[tarif adımları]\""
  /** The reply format the parser expects, as the prompt requests it. */
  const FormatRequest := FormatIntro + FormatTitle + FormatList + FormatSteps
  /** Everything after the optional clauses; it does not depend on the
      inputs. */
  const PromptSuffix := Guidance + FormatRequest

  // ---------------------------------------------------------------------
  // The prompt (lines 15-29)
  // ---------------------------------------------------------------------

  function Head(ingredients: string): string {
    Opening + ingredients + ClauseEnd
  }

  function QueryClause(query: string): string {
    if query != "" then query + ClauseEnd else ""
  }

  function AllergiesClause(allergies: seq<string>): string {
    if |allergies| > 0 then AllergiesLabel + Join(allergies, ListSeparator) + ClauseEnd else ""
  }

  function DietClause(diet: seq<string>): string {
    if |diet| > 0 then DietLabel + Join(diet, ListSeparator) + ClauseEnd else ""
  }

  /** The optional clauses, in their fixed order. */
  function Clauses(query: string, allergies: seq<string>, diet: seq<string>): string {
    QueryClause(query) + AllergiesClause(allergies) + DietClause(diet)
  }

  /** The ingredients and the optional clauses, followed by `suffix`. */
  function PromptWith(ingredients: string, query: string, allergies: seq<string>, diet: seq<string>,
                      suffix: string): string {
    Head(ingredients) + Clauses(query, allergies, diet) + suffix
  }

  /** The prompt: the ingredients, the optional clauses, the fixed
      suffix. */
  function PromptText(ingredients: string, query: string, allergies: seq<string>, diet: seq<string>): string {
    PromptWith(ingredients, query, allergies, diet, PromptSuffix)
  }

  /** Lines 15-29: the prompt built by successive appends. */
  method BuildPrompt(ingredients: string, query: string, allergies: seq<string>, diet: seq<string>)
    returns (prompt: string)
    ensures prompt == PromptText(ingredients, query, allergies, diet)
  {
    prompt := Opening + ingredients + ClauseEnd;
    if query != "" {
      prompt := prompt + (query + ClauseEnd);
    }
    assert prompt == Head(ingredients) + QueryClause(query);
    if |allergies| > 0 {
      prompt := prompt + (AllergiesLabel + Join(allergies, ListSeparator) + ClauseEnd);
    }
    assert prompt == Head(ingredients) + QueryClause(query) + AllergiesClause(allergies);
    if |diet| > 0 {
      prompt := prompt + (DietLabel + Join(diet, ListSeparator) + ClauseEnd);
    }
    assert prompt == Head(ingredients) + QueryClause(query) + AllergiesClause(allergies)
                     + DietClause(diet);
    Associative(Head(ingredients), QueryClause(query) + AllergiesClause(allergies), DietClause(diet));
    Associative(Head(ingredients), QueryClause(query), AllergiesClause(allergies));
    prompt := prompt + PromptSuffix;
  }

  /** The length of the prompt is the sum of its parts. */
  lemma {:induction false} PromptLength(ingredients: string, query: string, allergies: seq<string>, diet: seq<string>)
    ensures |PromptText(ingredients, query, allergies, diet)|
            == |Opening| + |ingredients| + |ClauseEnd| + |QueryClause(query)|
               + |AllergiesClause(allergies)| + |DietClause(diet)| + |PromptSuffix|
  {
    LengthWith(ingredients, query, allergies, diet, PromptSuffix);
  }

  lemma {:induction false} LengthWith(ingredients: string, query: string, allergies: seq<string>, diet: seq<string>,
                                      t: string)
    ensures |PromptWith(ingredients, query, allergies, diet, t)|
            == |Opening| + |ingredients| + |ClauseEnd| + |QueryClause(query)|
               + |AllergiesClause(allergies)| + |DietClause(diet)| + |t|
  {
  }

  /** The prompt opens with the ingredients and closes with the fixed
      suffix. */
  lemma {:induction false} PromptFrame(ingredients: string, query: string, allergies: seq<string>, diet: seq<string>)
    ensures var p := PromptText(ingredients, query, allergies, diet);
            var head := Opening + ingredients + ClauseEnd;
            && |head| + |PromptSuffix| <= |p|
            && p[..|head|] == head
            && p[|p| - |PromptSuffix|..] == PromptSuffix
  {
    FrameWith(ingredients, query, allergies, diet, PromptSuffix);
  }

  lemma {:induction false} FrameWith(ingredients: string, query: string, allergies: seq<string>, diet: seq<string>,
                                     t: string)
    ensures var p := PromptWith(ingredients, query, allergies, diet, t);
            var head := Opening + ingredients + ClauseEnd;
            && |head| + |t| <= |p|
            && p[..|head|] == head
            && p[|p| - |t|..] == t
  {
    ConcatSlices(Head(ingredients), Clauses(query, allergies, diet), t);
  }

  /** The query clause is there exactly when the query is non-empty, and
      then it comes right after the ingredients. */
  lemma {:induction false} QueryClauseIff(ingredients: string, query: string, allergies: seq<string>, diet: seq<string>)
    ensures PromptText(ingredients, query, allergies, diet) == PromptText(ingredients, "", allergies, diet)
            <==> query == ""
    ensures query != "" ==>
              var p := PromptText(ingredients, query, allergies, diet);
              var k := |Opening| + |ingredients| + |ClauseEnd|;
              k + |query| + |ClauseEnd| <= |p| && p[k..k + |query| + |ClauseEnd|] == query + ClauseEnd
  {
    QueryClauseWith(ingredients, query, allergies, diet, PromptSuffix);
  }

  lemma {:induction false} QueryClauseWith(ingredients: string, query: string, allergies: seq<string>, diet: seq<string>,
                                           t: string)
    ensures PromptWith(ingredients, query, allergies, diet, t) == PromptWith(ingredients, "", allergies, diet, t)
            <==> query == ""
    ensures query != "" ==>
              var p := PromptWith(ingredients, query, allergies, diet, t);
              var k := |Opening| + |ingredients| + |ClauseEnd|;
              k + |query| + |ClauseEnd| <= |p| && p[k..k + |query| + |ClauseEnd|] == query + ClauseEnd
  {
    LengthWith(ingredients, query, allergies, diet, t);
    LengthWith(ingredients, "", allergies, diet, t);
    FirstOfThree(Head(ingredients), QueryClause(query), AllergiesClause(allergies), DietClause(diet), t);
  }

  /** The allergy clause is there exactly when the list is non-empty, and
      then it comes right after the query clause. */
  lemma {:induction false} AllergiesClauseIff(ingredients: string, query: string, allergies: seq<string>, diet: seq<string>)
    ensures PromptText(ingredients, query, allergies, diet) == PromptText(ingredients, query, [], diet)
            <==> allergies == []
    ensures allergies != [] ==>
              var p := PromptText(ingredients, query, allergies, diet);
              var k := |Opening| + |ingredients| + |ClauseEnd| + |QueryClause(query)|;
              var clause := AllergiesLabel + Join(allergies, ListSeparator) + ClauseEnd;
              k + |clause| <= |p| && p[k..k + |clause|] == clause
  {
    AllergiesClauseWith(ingredients, query, allergies, diet, PromptSuffix);
  }

  lemma {:induction false} AllergiesClauseWith(ingredients: string, query: string, allergies: seq<string>,
                                               diet: seq<string>, t: string)
    ensures PromptWith(ingredients, query, allergies, diet, t) == PromptWith(ingredients, query, [], diet, t)
            <==> allergies == []
    ensures allergies != [] ==>
              var p := PromptWith(ingredients, query, allergies, diet, t);
              var k := |Opening| + |ingredients| + |ClauseEnd| + |QueryClause(query)|;
              var clause := AllergiesLabel + Join(allergies, ListSeparator) + ClauseEnd;
              k + |clause| <= |p| && p[k..k + |clause|] == clause
  {
    LengthWith(ingredients, query, allergies, diet, t);
    LengthWith(ingredients, query, [], diet, t);
    SecondOfThree(Head(ingredients), QueryClause(query), AllergiesClause(allergies), DietClause(diet), t);
  }

  /** The diet clause is there exactly when the list is non-empty, and then
      it comes right before the fixed suffix. */
  lemma {:induction false} DietClauseIff(ingredients: string, query: string, allergies: seq<string>, diet: seq<string>)
    ensures PromptText(ingredients, query, allergies, diet) == PromptText(ingredients, query, allergies, [])
            <==> diet == []
    ensures diet != [] ==>
              var p := PromptText(ingredients, query, allergies, diet);
              var clause := DietLabel + Join(diet, ListSeparator) + ClauseEnd;
              |clause| + |PromptSuffix| <= |p|
              && p[|p| - |PromptSuffix| - |clause|..|p| - |PromptSuffix|] == clause
  {
    var t := PromptSuffix;
    assert PromptText(ingredients, query, allergies, diet) == PromptWith(ingredients, query, allergies, diet, t);
    assert PromptText(ingredients, query, allergies, []) == PromptWith(ingredients, query, allergies, [], t);
    DietClauseWith(ingredients, query, allergies, diet, t);
  }

  lemma {:induction false} DietClauseWith(ingredients: string, query: string, allergies: seq<string>, diet: seq<string>,
                                          t: string)
    ensures PromptWith(ingredients, query, allergies, diet, t) == PromptWith(ingredients, query, allergies, [], t)
            <==> diet == []
    ensures diet != [] ==>
              var p := PromptWith(ingredients, query, allergies, diet, t);
              var clause := DietLabel + Join(diet, ListSeparator) + ClauseEnd;
              |clause| + |t| <= |p|
              && p[|p| - |t| - |clause|..|p| - |t|] == clause
  {
    LengthWith(ingredients, query, allergies, diet, t);
    LengthWith(ingredients, query, allergies, [], t);
    if diet != [] {
      DietSliceWith(ingredients, query, allergies, diet, t);
    }
  }

  lemma {:induction false} DietSliceWith(ingredients: string, query: string, allergies: seq<string>, diet: seq<string>,
                                         t: string)
    requires diet != []
    ensures var p := PromptWith(ingredients, query, allergies, diet, t);
            var clause := DietLabel + Join(diet, ListSeparator) + ClauseEnd;
            |clause| + |t| <= |p|
            && p[|p| - |t| - |clause|..|p| - |t|] == clause
  {
    var h, q, a, d := Head(ingredients), QueryClause(query), AllergiesClause(allergies), DietClause(diet);
    assert d == DietLabel + Join(diet, ListSeparator) + ClauseEnd;
    assert PromptWith(ingredients, query, allergies, diet, t) == h + (q + a + d) + t;
    ThirdOfThree(h, q, a, d, t);
  }

  /** Slicing the first of three middle parts back out. */
  lemma {:induction false} FirstOfThree(h: string, q: string, a: string, d: string, t: string)
    ensures (h + (q + a + d) + t)[|h|..|h| + |q|] == q
  {
    var p := h + (q + a + d) + t;
    forall j | 0 <= j < |q|
      ensures p[|h| + j] == q[j]
    {
      assert p[|h| + j] == (q + a + d)[j];
    }
  }

  /** Slicing the second of three middle parts back out. */
  lemma {:induction false} SecondOfThree(h: string, q: string, a: string, d: string, t: string)
    ensures (h + (q + a + d) + t)[|h| + |q|..|h| + |q| + |a|] == a
  {
    var p := h + (q + a + d) + t;
    forall j | 0 <= j < |a|
      ensures p[|h| + |q| + j] == a[j]
    {
      assert p[|h| + |q| + j] == (q + a + d)[|q| + j];
    }
  }

  /** Slicing the last of three middle parts back out, counting from the
      end. */
  lemma {:induction false} ThirdOfThree(h: string, q: string, a: string, d: string, t: string)
    ensures var p := h + (q + a + d) + t;
            p[|p| - |t| - |d|..|p| - |t|] == d
  {
    var p := h + (q + a + d) + t;
    forall j | 0 <= j < |d|
      ensures p[|h| + |q| + |a| + j] == d[j]
    {
      assert p[|h| + |q| + |a| + j] == (q + a + d)[|q| + |a| + j];
    }
  }

  lemma {:induction false} OccursShift(u: string, t: string, pat: string, k: nat)
    requires Occurs(t, pat, k)
    ensures Occurs(u + t, pat, |u| + k)
  {
    assert (u + t)[|u| + k..|u| + k + |pat|] == t[k..k + |pat|];
  }

  lemma {:induction false} OccursExtend(t: string, v: string, pat: string, k: nat)
    requires Occurs(t, pat, k)
    ensures Occurs(t + v, pat, k)
  {
    assert (t + v)[k..k + |pat|] == t[k..k + |pat|];
  }

  lemma {:induction false} OccursAtStart(pat: string, v: string)
    ensures Occurs(pat + v, pat, 0)
  {
    assert (pat + v)[..|pat|] == pat;
  }

  /** The format request names the parser's three markers, in order. */
  lemma {:induction false} FormatMarkers()
    ensures Occurs(FormatRequest, TitleMarker, |FormatIntro|)
    ensures Occurs(FormatRequest, IngredientsMarker, |FormatIntro| + |FormatTitle|)
    ensures Occurs(FormatRequest, StepsMarker, |FormatIntro| + |FormatTitle| + |FormatList|)
  {
    var i, t, l, st := FormatIntro, FormatTitle, FormatList, FormatSteps;
    OccursAtStart(TitleMarker, "[Tarif Adı], ");
    OccursShift(i, t, TitleMarker, 0);
    OccursExtend(i + t, l, TitleMarker, |i|);
    OccursExtend(i + t + l, st, TitleMarker, |i|);
    OccursAtStart(IngredientsMarker, "[malzeme listesi], ");
    OccursShift(i + t, l, IngredientsMarker, 0);
    OccursExtend(i + t + l, st, IngredientsMarker, |i + t|);
    OccursAtStart(StepsMarker, "[tarif adımları]\"");
    OccursShift(i + t + l, st, StepsMarker, 0);
  }

  /** Whatever the inputs, the prompt ends by naming the parser's three
      markers in the order the reply should carry them. */
  lemma {:induction false} PromptRequestsFormat(ingredients: string, query: string, allergies: seq<string>, diet: seq<string>)
    ensures var p := PromptText(ingredients, query, allergies, diet);
            exists a: nat, b: nat, c: nat :: a < b < c
              && Occurs(p, TitleMarker, a) && Occurs(p, IngredientsMarker, b) && Occurs(p, StepsMarker, c)
  {
    var p := PromptText(ingredients, query, allergies, diet);
    var u := Head(ingredients) + Clauses(query, allergies, diet) + Guidance;
    Associative(Head(ingredients) + Clauses(query, allergies, diet), Guidance, FormatRequest);
    assert p == u + FormatRequest;
    FormatMarkers();
    MarkersShift(u, FormatRequest, |FormatIntro|, |FormatIntro| + |FormatTitle|,
                 |FormatIntro| + |FormatTitle| + |FormatList|);
  }

  /** Three marker occurrences keep their order behind any prefix. */
  lemma {:induction false} MarkersShift(u: string, t: string, a: nat, b: nat, c: nat)
    requires a < b < c
    requires Occurs(t, TitleMarker, a) && Occurs(t, IngredientsMarker, b) && Occurs(t, StepsMarker, c)
    ensures exists a': nat, b': nat, c': nat :: a' < b' < c'
              && Occurs(u + t, TitleMarker, a') && Occurs(u + t, IngredientsMarker, b')
              && Occurs(u + t, StepsMarker, c')
  {
    OccursShift(u, t, TitleMarker, a);
    OccursShift(u, t, IngredientsMarker, b);
    OccursShift(u, t, StepsMarker, c);
    assert |u| + a < |u| + b < |u| + c;
  }

  // ---------------------------------------------------------------------
  // The answer (lines 32-65)
  // ---------------------------------------------------------------------

  /** What `response.json()` makes of a body. */
  datatype Body = JsonBody | NotJson(error: string)

  /** What the ok branch finds in the parsed body: the first choice's
      content, or the error thrown while reaching for it. */
  datatype Payload = Content(text: string) | Malformed(error: string)

  /** The endpoint's answer to a prompt, as `generateRecipe` sees it. */
  datatype Response =
    | Rejected(error: string)
    | NotOk(status: nat, body: Body)
    | Ok(payload: Payload)

  const ErrorPrefix := "Tarif oluşturulurken hata: "
  const StatusError := "OpenAI yanıtı başarısız: "

  /** Lines 57-60: the content is trimmed and handed to the parser. */
  function ParseContent(text: string): Recipe {
    Parse(Trim(text))
  }

  /** Every failure is rethrown with the prefix; a non-ok status is
      reported with its number; otherwise the trimmed content is parsed. */
  function HandleResponse(r: Response): (result: Result<Recipe>)
    ensures result.Success? <==> r.Ok? && r.payload.Content?
    ensures result.Failure? ==> |ErrorPrefix| <= |result.error|
                                && result.error[..|ErrorPrefix|] == ErrorPrefix
  {
    match r
    case Rejected(e) => Failure(ErrorPrefix + e)
    case NotOk(status, JsonBody) => Failure(ErrorPrefix + StatusError + DecimalString(status))
    case NotOk(_, NotJson(e)) => Failure(ErrorPrefix + e)
    case Ok(Content(text)) => Success(ParseContent(text))
    case Ok(Malformed(e)) => Failure(ErrorPrefix + e)
  }

  /** On success the recipe is what the parser makes of the trimmed
      content of the first choice. */
  lemma {:induction false} ContentParsed(text: string)
    ensures HandleResponse(Ok(Content(text))) == Success(ParseContent(text))
  {
  }

  /** A non-ok status with a readable body gives an error from which the
      status can be read back. */
  lemma {:induction false} StatusInError(status: nat)
    ensures var result := HandleResponse(NotOk(status, JsonBody));
            var k := |ErrorPrefix| + |StatusError|;
            && result.Failure? && k <= |result.error|
            && (forall i :: k <= i < |result.error| ==> '0' <= result.error[i] <= '9')
            && DecimalValue(result.error[k..]) == status
  {
    var result := HandleResponse(NotOk(status, JsonBody));
    var digits := DecimalString(status);
    assert result.error == ErrorPrefix + StatusError + digits;
    assert result.error[|ErrorPrefix| + |StatusError|..] == digits;
    DecimalRoundTrip(status);
  }

  /** On success the parser receives the trimmed content: surrounding
      white space in the reply makes no difference. */
  lemma {:induction false} ContentIsTrimmed(text: string, x: string, y: string)
    requires AllSpace(x) && AllSpace(y)
    ensures HandleResponse(Ok(Content(x + text + y))) == HandleResponse(Ok(Content(text)))
  {
    TrimPadded(x, text, y);
  }

  /** Lines 12-66: build the prompt, send it, and turn the answer into a
      recipe or an error. `complete` is the endpoint. */
  method GenerateRecipe(ingredients: string, query: string, allergies: seq<string>, diet: seq<string>,
                        complete: string -> Response)
    returns (prompt: string, result: Result<Recipe>)
    ensures prompt == PromptText(ingredients, query, allergies, diet)
    ensures result == HandleResponse(complete(prompt))
    ensures complete(prompt).Ok? && complete(prompt).payload.Content? ==>
              result == Success(ParseContent(complete(prompt).payload.text))
  {
    prompt := BuildPrompt(ingredients, query, allergies, diet);
    var response := complete(prompt);
    result := HandleResponse(response);
  }
}
