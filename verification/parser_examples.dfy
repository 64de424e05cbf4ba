/** Replies of the completion service worked through the parser of
    services/openai.js. Long literals are assembled from short pieces. */
module ParserExamples {
  import opened Text
  import opened RecipeParser
  import RecipeService

  lemma {:induction false} NoMarkerOccurrences(s: string)
    requires s == "bir tarif yok"
    ensures forall k: nat :: !Occurs(s, TitleMarker, k)
    ensures forall k: nat :: !Occurs(s, IngredientsMarker, k)
    ensures forall k: nat :: !Occurs(s, StepsMarker, k)
  {
    assert s[0..|s|] == s;
    NoOccurrenceIn(s, TitleMarker, 0, |s|);
    NoOccurrenceIn(s, IngredientsMarker, 0, |s|);
    NoOccurrenceIn(s, StepsMarker, 0, |s|);
  }

  /** A reply that carries none of the markers. */
  lemma {:induction false} ReplyWithoutMarkers()
    ensures Parse("bir tarif yok") == Recipe(DefaultTitle, [], "bir tarif yok")
  {
    NoMarkerOccurrences("bir tarif yok");
    ParseWithoutMarkers("bir tarif yok");
    NoMarkerTrim("bir tarif yok");
  }

  lemma {:induction false} NoMarkerTrim(s: string)
    requires s == "bir tarif yok"
    ensures Trim(s) == s
  {
    TrimOfTrimmed(s);
  }

  /** Only spaces after the title marker: the title is empty. */
  lemma {:induction false} BlankTitle()
    ensures ExtractTitle(TitleMarker + "  ") == ""
  {
    var s := TitleMarker + "  ";
    assert s[..|TitleMarker|] == TitleMarker;
    LineEndIs(s, 8, 10);
    assert s[8..10] == "  ";
    BlankTitleLine(s, 0);
  }

  /** Lines broken after a comma, with a blank line between: the run
      `,\n\n` is a single cut. */
  lemma {:induction false} RunOfSeparators(a: string, run: string, b: string)
    requires a == "tuz" && run == ",\n\n" && b == "biber"
    ensures SplitRuns(a + run + b) == ["tuz", "biber"]
  {
    assert NoSeparator(b);
    SplitRunsOfRun(a, run, b);
    SplitRunsOfPlain(b);
  }

  const ExampleHead := "Tavuklu Pilav, "
  const ExampleList := "tavuk, pirinç, soğan"
  /** Everything between the title marker and the line break. */
  const ExampleTitle := ExampleHead + IngredientsMarker + ExampleList
  const ExampleSteps := "Soğanı kavur, " + "tavuğu ekle, " + "pirinci ekle ve pişir."
  /** `Başlık: Tavuklu Pilav, Malzemeler: tavuk, pirinç, soğan` on the first
      line and `Tarif: Soğanı kavur, tavuğu ekle, pirinci ekle ve pişir.` on
      the second. */
  const ExampleReply := TitleMarker + ExampleTitle + "\n" + StepsMarker + ExampleSteps

  predicate NoLineBreak(t: string) {
    forall k :: 0 <= k < |t| ==> !IsLineTerminator(t[k])
  }

  /** Where each part of the example reply sits. */
  lemma {:induction false} ExampleLayout()
    ensures |ExampleReply| == 112
    ensures ExampleReply[..8] == TitleMarker
    ensures ExampleReply[8..55] == ExampleTitle
    ensures ExampleReply[8..23] == ExampleHead
    ensures ExampleReply[23..35] == IngredientsMarker
    ensures ExampleReply[35..55] == ExampleList
    ensures ExampleReply[55] == '\n'
    ensures ExampleReply[56..63] == StepsMarker
    ensures ExampleReply[56..62] == StepsLookahead
    ensures ExampleReply[63..] == ExampleSteps
  {
    LayoutLength();
    LayoutMarker();
    LayoutTitle();
    LayoutHead();
    LayoutIngredientsMarker();
    LayoutList();
    LayoutBreak();
    LayoutStepsMarker();
    LayoutLookahead();
    LayoutSteps();
  }

  lemma {:induction false} LayoutLength()
    ensures |ExampleReply| == 112
  {
  }

  lemma {:induction false} LayoutMarker()
    ensures ExampleReply[..8] == TitleMarker
  {
  }

  lemma {:induction false} LayoutTitle()
    ensures ExampleReply[8..55] == ExampleTitle
  {
  }

  lemma {:induction false} LayoutHead()
    ensures ExampleReply[8..23] == ExampleHead
  {
  }

  lemma {:induction false} LayoutIngredientsMarker()
    ensures ExampleReply[23..35] == IngredientsMarker
  {
  }

  lemma {:induction false} LayoutList()
    ensures ExampleReply[35..55] == ExampleList
  {
  }

  lemma {:induction false} LayoutBreak()
    ensures ExampleReply[55] == '\n'
  {
  }

  lemma {:induction false} LayoutStepsMarker()
    ensures ExampleReply[56..63] == StepsMarker
  {
  }

  lemma {:induction false} LayoutLookahead()
    ensures ExampleReply[56..62] == StepsLookahead
  {
  }

  lemma {:induction false} LayoutSteps()
    ensures ExampleReply[63..] == ExampleSteps
  {
  }

  lemma {:induction false} ExampleTitleLine(s: string)
    requires s == ExampleReply
    ensures IsFirstOccurrence(s, TitleMarker, 0)
    ensures LineEnd(s, 8) == 55 && s[8..55] == ExampleTitle
  {
    LayoutLength();
    LayoutMarker();
    LayoutTitle();
    LayoutBreak();
    assert s[0..8] == s[..8];
    TitleHasNoLineBreak(ExampleTitle);
    NoLineBreakIn(s, 8, 55);
    LineEndIs(s, 8, 55);
  }

  lemma {:induction false} TitleHasNoLineBreak(t: string)
    requires t == ExampleTitle
    ensures NoLineBreak(t)
  {
    assert NoLineBreak(ExampleHead);
    assert NoLineBreak(IngredientsMarker);
    assert NoLineBreak(ExampleList);
    NoLineBreakConcat(ExampleHead, IngredientsMarker, ExampleList);
  }

  lemma {:induction false} NoLineBreakConcat(a: string, b: string, c: string)
    requires NoLineBreak(a) && NoLineBreak(b) && NoLineBreak(c)
    ensures NoLineBreak(a + b + c)
  {
    var t := a + b + c;
    forall k | 0 <= k < |t|
      ensures !IsLineTerminator(t[k])
    {
      if k < |a| {
        assert t[k] == a[k];
      } else if k < |a| + |b| {
        assert t[k] == b[k - |a|];
      } else {
        assert t[k] == c[k - |a| - |b|];
      }
    }
  }

  lemma {:induction false} NoLineBreakIn(s: string, lo: nat, hi: nat)
    requires lo <= hi <= |s| && NoLineBreak(s[lo..hi])
    ensures forall k :: lo <= k < hi ==> !IsLineTerminator(s[k])
  {
    forall k | lo <= k < hi
      ensures !IsLineTerminator(s[k])
    {
      assert s[k] == s[lo..hi][k - lo];
    }
  }

  /** The title keeps the comma and runs on to the end of the line. */
  lemma {:induction false} ExampleTitleIsWholeLine(s: string)
    requires s == ExampleReply
    ensures ExtractTitle(s) == ExampleTitle
  {
    ExampleTitleLine(s);
    TitleIsRestOfLine(s, 0);
    ExampleTitleTrimmed(ExampleTitle);
  }

  lemma {:induction false} ExampleTitleTrimmed(t: string)
    requires t == ExampleTitle
    ensures Trim(t) == t
  {
    assert |t| == 47;
    assert t[0] == ExampleHead[0];
    assert t[46] == ExampleList[19];
    TrimOfTrimmed(t);
  }

  lemma {:induction false} ExampleIngredientsSpan(s: string)
    requires s == ExampleReply
    ensures FindIngredients(s, 0) == Some((23, 56))
    ensures s[35..56] == ExampleList + "\n"
  {
    LayoutLength();
    LayoutMarker();
    LayoutHead();
    LayoutIngredientsMarker();
    LayoutList();
    LayoutBreak();
    LayoutLookahead();
    LayoutListBreak();
    assert s[0..8] == s[..8];
    StartAbsent(s, 0, 8, TitleMarker, IngredientsMarker);
    StartAbsent(s, 8, 23, ExampleHead, IngredientsMarker);
    IndexOfFromIs(s, IngredientsMarker, 0, 23);
    SliceOfSlice(s, 35, 55, 1, 20);
    StartAbsent(s, 36, 55, ExampleList[1..], StepsLookahead);
    StartAbsent(s, 55, 56, "\n", StepsLookahead);
    IndexOfFromIs(s, StepsLookahead, 36, 56);
  }

  lemma {:induction false} LayoutListBreak()
    ensures ExampleReply[35..56] == ExampleList + "\n"
  {
  }

  /** A pattern cannot start inside a stretch of `s` that does not hold its
      first character. */
  lemma {:induction false} StartAbsent(s: string, lo: nat, hi: nat, t: string, pat: string)
    requires lo <= hi <= |s| && s[lo..hi] == t && pat != [] && pat[0] !in t
    ensures forall k: nat :: lo <= k < hi ==> !Occurs(s, pat, k)
  {
    NoOccurrenceIn(s, pat, lo, hi);
  }

  predicate NoSeparator(a: string) {
    forall k :: 0 <= k < |a| ==> !IsListSeparator(a[k])
  }

  lemma {:induction false} SplitRunsOfThree(t: string, a: string, b: string, c: string)
    requires NoSeparator(a) && NoSeparator(b) && NoSeparator(c)
    requires b != [] && c != []
    requires t == a + [','] + (b + [','] + c)
    ensures SplitRuns(t) == [a, b, c]
  {
    assert (b + [','] + c)[0] == b[0];
    SplitRunsOfCons(a, ',', b + [','] + c);
    SplitRunsOfCons(b, ',', c);
    SplitRunsOfPlain(c);
  }

  lemma {:induction false} ExampleListPieces(t: string)
    requires t == ExampleList
    ensures SplitRuns(t) == ["tavuk", " pirinç", " soğan"]
  {
    SplitRunsOfThree(t, "tavuk", " pirinç", " soğan");
  }

  lemma {:induction false} TrimPiece(p: string, q: string)
    requires |p| >= 1 && p[0] == ' ' && q == p[1..]
    requires q != [] && IsTrimmed(q)
    ensures Trim(p) == q
  {
    assert p == " " + q + "";
    TrimIs(" ", q, "");
  }

  lemma {:induction false} TrimmedNonEmptyOfThree(a: string, b: string, c: string, x: string, y: string, z: string)
    requires Trim(a) == x && Trim(b) == y && Trim(c) == z
    requires x != [] && y != [] && z != []
    ensures TrimmedNonEmpty([a, b, c]) == [x, y, z]
  {
    TrimmedNonEmptyCons(c, []);
    TrimmedNonEmptyCons(b, [c]);
    assert [a, b, c][1..] == [b, c] && [b, c][1..] == [c];
    TrimmedNonEmptyCons(a, [b, c]);
  }

  lemma {:induction false} ExamplePiecesTrimmed(a: string, b: string, c: string)
    requires a == "tavuk" && b == " pirinç" && c == " soğan"
    ensures Trim(a) == a && Trim(b) == b[1..] && Trim(c) == c[1..]
  {
    TrimOfTrimmed(a);
    TrimPiece(b, b[1..]);
    TrimPiece(c, c[1..]);
  }

  lemma {:induction false} ExampleListSplit(t: string)
    requires t == ExampleList
    ensures TrimmedNonEmpty(SplitRuns(t)) == ["tavuk", "pirinç", "soğan"]
  {
    ExampleListPieces(t);
    ExamplePiecesTrimmed("tavuk", " pirinç", " soğan");
    TrimmedNonEmptyOfThree("tavuk", " pirinç", " soğan", "tavuk", "pirinç", "soğan");
  }

  /** The ingredient list stops at `Tarif:` and drops the line break. */
  lemma {:induction false} ExampleIngredients(s: string)
    requires s == ExampleReply
    ensures ExtractIngredients(s) == ["tavuk", "pirinç", "soğan"]
  {
    ExampleIngredientsSpan(s);
    assert ExampleList + "\n" == "" + ExampleList + "\n";
    TrimIs("", ExampleList, "\n");
    ExampleListSplit(ExampleList);
  }

  lemma {:induction false} ExampleStepsSpan(s: string)
    requires s == ExampleReply
    ensures FindSteps(s, 0) == Some(56)
  {
    LayoutLength();
    LayoutStepsMarker();
    NoStepsMarkerBefore(s);
    IndexOfFromIs(s, StepsMarker, 0, 56);
  }

  lemma {:induction false} NoStepsMarkerBefore(s: string)
    requires s == ExampleReply
    ensures forall k: nat :: k < 56 ==> !Occurs(s, StepsMarker, k)
  {
    LayoutLength();
    LayoutMarker();
    LayoutHead();
    LayoutIngredientsMarker();
    LayoutList();
    LayoutBreak();
    assert s[0..8] == s[..8];
    StartAbsent(s, 0, 8, TitleMarker, StepsMarker);
    assert s[8..15] != StepsMarker by {
      assert s[10] == ExampleHead[2] == 'v';
    }
    SliceOfSlice(s, 8, 23, 1, 15);
    StartAbsent(s, 9, 23, ExampleHead[1..], StepsMarker);
    StartAbsent(s, 23, 35, IngredientsMarker, StepsMarker);
    StartAbsent(s, 35, 55, ExampleList, StepsMarker);
    StartAbsent(s, 55, 56, "\n", StepsMarker);
  }

  lemma {:induction false} ExampleStepsTrimmed(t: string)
    requires t == ExampleSteps
    ensures Trim(t) == t
  {
    assert |t| == 49;
    assert t[0] == 'S';
    assert t[48] == '.';
    TrimOfTrimmed(t);
  }

  /** The instructions are everything after `Tarif: `, commas included. */
  lemma {:induction false} ExampleInstructions(s: string)
    requires s == ExampleReply
    ensures ExtractInstructions(s) == ExampleSteps
  {
    ExampleLayout();
    ExampleStepsSpan(s);
    ExampleStepsTrimmed(ExampleSteps);
  }

  /** The reply the prompt asks for, on two lines: the title swallows the
      rest of the first line, the ingredients stop at `Tarif:`, and the
      instructions are the rest of the text. */
  lemma {:induction false} ExampleParse()
    ensures Parse(ExampleReply)
            == Recipe(ExampleTitle, ["tavuk", "pirinç", "soğan"], ExampleSteps)
  {
    ExampleTitleIsWholeLine(ExampleReply);
    ExampleIngredients(ExampleReply);
    ExampleInstructions(ExampleReply);
  }

  lemma {:induction false} ExampleReplyTrimmed(t: string)
    requires t == ExampleReply
    ensures Trim(t) == t
  {
    LayoutLength();
    LayoutMarker();
    LayoutSteps();
    assert t[0] == 'B';
    assert t[|t| - 1] == '.';
    TrimOfTrimmed(t);
  }

  /** The example reply, padded as a completion service sends it, comes
      out of `generateRecipe` as the recipe `ExampleParse` describes. */
  lemma {:induction false} ExampleAnswer()
    ensures RecipeService.HandleResponse(RecipeService.Ok(RecipeService.Content(" " + ExampleReply + "\n")))
            == Success(Recipe(ExampleTitle, ["tavuk", "pirinç", "soğan"], ExampleSteps))
  {
    assert AllSpace(" ") && AllSpace("\n");
    TrimPadded(" ", ExampleReply, "\n");
    RecipeService.ContentParsed(" " + ExampleReply + "\n");
    ExampleReplyTrimmed(ExampleReply);
    ExampleParse();
  }
}
