/** The reply parser of services/openai.js (`parseRecipeFromResponse`): three
    independent regular-expression extractions over the completion text, with
    a default title, an empty ingredient list and a header-stripping fallback
    for the instructions.

    Each regular expression is stated as a predicate saying where it CAN
    match (start index and end of the capture group); the extraction then
    takes the match a backtracking engine reports: the leftmost start, and at
    that start the longest capture for a greedy `(.+)` and the shortest for a
    lazy `(.+?)`. The markers are compared as exact literals. */
module RecipeParser {
  import opened Text

  datatype Recipe = Recipe(title: string, ingredients: seq<string>, instructions: string)

  const TitleMarker := "Başlık: "
  const IngredientsMarker := "Malzemeler: "
  const StepsMarker := "Tarif: "
  /** The lookahead of the ingredients pattern: no space after the colon. */
  const StepsLookahead := "Tarif:"
  /** The middle of the header pattern the fallback removes. */
  const HeaderBreak := "\nMalzemeler: "
  const DefaultTitle := "Önerilen Tarif"

  // ---------------------------------------------------------------------
  // Title: /Başlık: (.+)(?=,|$|\n)/i  (no `s` flag: `.` stops at line ends)
  // ---------------------------------------------------------------------

  /** The title pattern can match at `i` with group 1 = `s[i + 8..j]`. */
  predicate TitleMatch(s: string, i: nat, j: nat) {
    && Occurs(s, TitleMarker, i)
    && i + |TitleMarker| < j <= |s|
    && (forall k :: i + |TitleMarker| <= k < j ==> !IsLineTerminator(s[k]))
    && (j == |s| || s[j] == ',' || s[j] == '\n')
  }

  /** The match a backtracking engine reports: leftmost, then greedy. */
  ghost predicate IsTitleCapture(s: string, i: nat, j: nat) {
    && TitleMatch(s, i, j)
    && (forall i': nat, j': nat :: i' < i ==> !TitleMatch(s, i', j'))
    && (forall j': nat :: TitleMatch(s, i, j') ==> j' <= j)
  }

  /** The end of the line that starts at `from`. */
  function LineEnd(s: string, from: nat): (e: nat)
    requires from <= |s|
    ensures from <= e <= |s|
    ensures forall k :: from <= k < e ==> !IsLineTerminator(s[k])
    ensures e < |s| ==> IsLineTerminator(s[e])
    decreases |s| - from
  {
    if from == |s| || IsLineTerminator(s[from]) then from else LineEnd(s, from + 1)
  }

  /** The longest capture of the title pattern at a marker occurrence `i`.
      The capture first runs to the end of the line; if that end is neither
      `\n` nor the end of the text (a `\r`, U+2028 or U+2029), the engine
      backs off to the last comma of the line. */
  function TitleEndAt(s: string, i: nat): (r: Option<nat>)
    requires Occurs(s, TitleMarker, i)
    ensures r.Some? ==> TitleMatch(s, i, r.value)
    ensures r.Some? ==> forall j: nat :: TitleMatch(s, i, j) ==> j <= r.value
    ensures r.None? ==> forall j: nat :: !TitleMatch(s, i, j)
  {
    var start := i + |TitleMarker|;
    var e := LineEnd(s, start);
    if e == start then None
    else if e == |s| || s[e] == '\n' then Some(e)
    else LastIndexOfChar(s, ',', start + 1, e)
  }

  /** Scans for the leftmost marker occurrence at or after `from` where the
      title pattern matches. */
  function FindTitle(s: string, from: nat): (r: Option<(nat, nat)>)
    ensures r.Some? ==> from <= r.value.0 && TitleMatch(s, r.value.0, r.value.1)
    ensures r.Some? ==> forall i: nat, j: nat :: from <= i < r.value.0 ==> !TitleMatch(s, i, j)
    ensures r.Some? ==> forall j: nat :: TitleMatch(s, r.value.0, j) ==> j <= r.value.1
    ensures r.None? ==> forall i: nat, j: nat :: from <= i ==> !TitleMatch(s, i, j)
    decreases |s| - from
  {
    match IndexOfFrom(s, TitleMarker, from)
    case None => None
    case Some(i) =>
      match TitleEndAt(s, i)
      case Some(j) => Some((i, j))
      case None =>
        var r := FindTitle(s, i + 1);
        NoTitleMatchUpTo(s, from, i, if r.Some? then r.value.0 else |s| + 1);
        r
  }

  /** No match starts in `[from, stop)` when no marker occurs before `i`,
      the pattern fails at `i` and no match starts in `(i, stop)`. */
  lemma {:induction false} NoTitleMatchUpTo(s: string, from: nat, i: nat, stop: nat)
    requires forall k :: from <= k < i ==> !Occurs(s, TitleMarker, k)
    requires forall j: nat :: !TitleMatch(s, i, j)
    requires forall i': nat, j: nat :: i + 1 <= i' < stop ==> !TitleMatch(s, i', j)
    ensures forall i': nat, j: nat :: from <= i' < stop ==> !TitleMatch(s, i', j)
  {
  }

  /** Lines 74 and 79-82: the trimmed capture when the pattern matches
      anywhere, the default title otherwise (`TitleOfCapture` says which
      capture). */
  function ExtractTitle(s: string): (title: string)
    ensures (forall i: nat, j: nat :: !TitleMatch(s, i, j)) ==> title == DefaultTitle
  {
    match FindTitle(s, 0)
    case Some((i, j)) => Trim(s[i + |TitleMarker|..j])
    case None => DefaultTitle
  }

  /** What `FindTitle` reports from the start is the engine's match. */
  lemma {:induction false} TitleCaptureFound(s: string, i: nat, j: nat)
    requires FindTitle(s, 0) == Some((i, j))
    ensures IsTitleCapture(s, i, j)
  {
  }

  /** Whenever the title pattern matches somewhere, the engine reports a
      match. */
  lemma {:induction false} TitleCaptureExists(s: string, i0: nat, j0: nat)
    requires TitleMatch(s, i0, j0)
    ensures exists i: nat, j: nat :: IsTitleCapture(s, i, j)
  {
    var r := FindTitle(s, 0);
    assert r.Some?;
    TitleCaptureFound(s, r.value.0, r.value.1);
  }

  /** The title is the trimmed capture of the engine's match: the leftmost
      marker where the pattern matches, with the longest capture there. */
  lemma {:induction false} TitleOfCapture(s: string, i: nat, j: nat)
    requires IsTitleCapture(s, i, j)
    ensures ExtractTitle(s) == Trim(s[i + |TitleMarker|..j])
  {
    var r := FindTitle(s, 0);
    assert r.Some?;
    var i': nat, j': nat := r.value.0, r.value.1;
    assert i' < i ==> !TitleMatch(s, i', j');
    assert i < i' ==> !TitleMatch(s, i, j);
    assert i == i';
    assert j' <= j && j <= j';
    assert r == Some((i, j));
  }

  // ---------------------------------------------------------------------
  // Ingredients: /Malzemeler: (.+?)(?=Tarif:|$)/is
  // ---------------------------------------------------------------------

  /** The ingredients pattern can match at `i` with group 1 = `s[i + 12..j]`
      (with the `s` flag `.` matches every character). */
  predicate IngredientsMatch(s: string, i: nat, j: nat) {
    && Occurs(s, IngredientsMarker, i)
    && i + |IngredientsMarker| < j <= |s|
    && (j == |s| || Occurs(s, StepsLookahead, j))
  }

  /** Leftmost, then lazy: the shortest capture. */
  ghost predicate IsIngredientsCapture(s: string, i: nat, j: nat) {
    && IngredientsMatch(s, i, j)
    && (forall i': nat, j': nat :: i' < i ==> !IngredientsMatch(s, i', j'))
    && (forall j': nat :: IngredientsMatch(s, i, j') ==> j <= j')
  }

  function FindIngredients(s: string, from: nat): (r: Option<(nat, nat)>)
    ensures r.Some? ==> from <= r.value.0 && IngredientsMatch(s, r.value.0, r.value.1)
    ensures r.Some? ==> forall i: nat, j: nat :: from <= i < r.value.0 ==> !IngredientsMatch(s, i, j)
    ensures r.Some? ==> forall j: nat :: IngredientsMatch(s, r.value.0, j) ==> r.value.1 <= j
    ensures r.None? ==> forall i: nat, j: nat :: from <= i ==> !IngredientsMatch(s, i, j)
    decreases |s| - from
  {
    match IndexOfFrom(s, IngredientsMarker, from)
    case None => None
    case Some(i) =>
      if i + |IngredientsMarker| < |s| then
        match IndexOfFrom(s, StepsLookahead, i + |IngredientsMarker| + 1)
        case Some(j) => Some((i, j))
        case None => Some((i, |s|))
      else FindIngredients(s, i + 1)
  }

  /** A list item separator of `split(/[\n,]+/)`. */
  predicate IsListSeparator(c: char) {
    c == '\n' || c == ','
  }

  /** `s` with every list separator removed. */
  function StripSeparators(s: string): string {
    if s == [] then ""
    else (if IsListSeparator(s[0]) then "" else [s[0]]) + StripSeparators(s[1..])
  }

  function Concat(pieces: seq<string>): string {
    if pieces == [] then "" else pieces[0] + Concat(pieces[1..])
  }

  /** The first list separator at or after `from`. */
  function NextSeparator(s: string, from: nat): (r: Option<nat>)
    requires from <= |s|
    ensures r.Some? ==> from <= r.value < |s| && IsListSeparator(s[r.value])
    ensures r.Some? ==> forall k :: from <= k < r.value ==> !IsListSeparator(s[k])
    ensures r.None? ==> forall k :: from <= k < |s| ==> !IsListSeparator(s[k])
    decreases |s| - from
  {
    if from == |s| then None
    else if IsListSeparator(s[from]) then Some(from)
    else NextSeparator(s, from + 1)
  }

  /** The end of the run of separators that starts at `from`. */
  function RunEnd(s: string, from: nat): (e: nat)
    requires from <= |s|
    ensures from <= e <= |s|
    ensures forall k :: from <= k < e ==> IsListSeparator(s[k])
    ensures e < |s| ==> !IsListSeparator(s[e])
    decreases |s| - from
  {
    if from == |s| || !IsListSeparator(s[from]) then from else RunEnd(s, from + 1)
  }

  /** `s.split(/[\n,]+/)`: the pieces between maximal runs of separators.
      No piece holds a separator, only the first and the last piece can be
      empty (when `s` starts or ends with a separator), and the pieces put
      back together are `s` without its separators, in order. */
  function SplitRuns(s: string): (pieces: seq<string>)
    ensures |pieces| >= 1
    ensures forall p :: p in pieces ==> ',' !in p && '\n' !in p
    ensures forall i :: 0 < i < |pieces| - 1 ==> pieces[i] != ""
    ensures pieces[0] == "" <==> (s == "" || IsListSeparator(s[0]))
    ensures s == "" ==> pieces == [""]
    ensures Concat(pieces) == StripSeparators(s)
    decreases |s|
  {
    match NextSeparator(s, 0)
    case None =>
      StripKeeps(s);
      assert ',' !in s && '\n' !in s by {
        forall k | 0 <= k < |s| ensures s[k] != ',' && s[k] != '\n' {
          assert !IsListSeparator(s[k]);
        }
      }
      [s]
    case Some(k) =>
      var e := RunEnd(s, k);
      var rest := SplitRuns(s[e..]);
      SplitRunsStep(s, k, e, rest);
      [s[..k]] + rest
  }

  /** An independent reading of what the split cuts at: `s` with each
      maximal run of separators written as one `,`. `afterRun` says that
      the character before `s` was a separator. */
  function CollapseRunsFrom(s: string, afterRun: bool): string {
    if s == [] then ""
    else if IsListSeparator(s[0]) then (if afterRun then "" else ",") + CollapseRunsFrom(s[1..], true)
    else [s[0]] + CollapseRunsFrom(s[1..], false)
  }

  function CollapseRuns(s: string): string {
    CollapseRunsFrom(s, false)
  }

  /** The split cuts exactly at the runs of separators: putting its pieces
      back together with `,` gives `s` with every run written as one `,`. */
  lemma {:induction false} SplitRunsCollapses(s: string)
    ensures Join(SplitRuns(s), ",") == CollapseRuns(s)
    decreases |s|
  {
    assert s[0..] == s;
    match NextSeparator(s, 0)
    case None =>
      CollapsePlain(s, 0, |s|);
      assert s[|s|..] == [];
      AppendEmpty(s);
    case Some(k) =>
      var e := RunEnd(s, k);
      var rest := SplitRuns(s[e..]);
      SplitRunsCollapses(s[e..]);
      CollapsePlain(s, 0, k);
      CollapseRunAt(s, k, e);
      assert SplitRuns(s) == [s[..k]] + rest;
      ConsPieces(s[..k], rest);
      JoinCons([s[..k]] + rest, ",");
  }

  /** Plain text is copied as it is. */
  lemma {:induction false} CollapsePlain(s: string, i: nat, k: nat)
    requires i <= k <= |s|
    requires forall q :: i <= q < k ==> !IsListSeparator(s[q])
    ensures CollapseRunsFrom(s[i..], false) == s[i..k] + CollapseRunsFrom(s[k..], false)
    decreases k - i
  {
    if i == k {
      EmptyAppend(CollapseRunsFrom(s[k..], false));
    } else {
      assert s[i..][0] == s[i] && s[i..][1..] == s[i + 1..];
      CollapsePlain(s, i + 1, k);
      assert s[i..k] == [s[i]] + s[i + 1..k];
      SeqAssoc([s[i]], s[i + 1..k], CollapseRunsFrom(s[k..], false));
    }
  }

  /** A run of separators from `k` to `e` is written as one `,`. */
  lemma {:induction false} CollapseRunAt(s: string, k: nat, e: nat)
    requires k < e <= |s|
    requires forall q :: k <= q < e ==> IsListSeparator(s[q])
    requires e < |s| ==> !IsListSeparator(s[e])
    ensures CollapseRunsFrom(s[k..], false) == "," + CollapseRunsFrom(s[e..], false)
  {
    assert s[k..][0] == s[k] && s[k..][1..] == s[k + 1..];
    CollapseInsideRun(s, k + 1, e);
    if e < |s| {
      assert s[e..][0] == s[e] && s[e..][1..] == s[e + 1..];
    }
  }

  /** Further separators of a run add nothing. */
  lemma {:induction false} CollapseInsideRun(s: string, i: nat, e: nat)
    requires i <= e <= |s|
    requires forall q :: i <= q < e ==> IsListSeparator(s[q])
    ensures CollapseRunsFrom(s[i..], true) == CollapseRunsFrom(s[e..], true)
    decreases e - i
  {
    if i < e {
      assert s[i..][0] == s[i] && s[i..][1..] == s[i + 1..];
      CollapseInsideRun(s, i + 1, e);
    }
  }

  /** `split(/[\n,]+/)` is `split(",")` of the text with its runs of
      separators collapsed to one `,`: a run of any length is one cut. */
  lemma {:induction false} SplitRunsIsSplitOfCollapsed(s: string)
    ensures SplitRuns(s) == SplitOn(CollapseRuns(s), ',')
  {
    SplitRunsCollapses(s);
    SplitOfJoin(SplitRuns(s), ',');
  }

  /** One step of `SplitRuns`: the piece before the first run of separators,
      followed by the split of what comes after the run. */
  lemma {:induction false} SplitRunsStep(s: string, k: nat, e: nat, rest: seq<string>)
    requires k <= e <= |s| && k < |s| && IsListSeparator(s[k])
    requires forall q :: 0 <= q < k ==> !IsListSeparator(s[q])
    requires forall q :: k <= q < e ==> IsListSeparator(s[q])
    requires e < |s| ==> !IsListSeparator(s[e])
    requires |rest| >= 1
    requires forall p :: p in rest ==> ',' !in p && '\n' !in p
    requires forall i :: 0 < i < |rest| - 1 ==> rest[i] != ""
    requires rest[0] == "" <==> (s[e..] == "" || IsListSeparator(s[e..][0]))
    requires s[e..] == "" ==> rest == [""]
    requires Concat(rest) == StripSeparators(s[e..])
    ensures var pieces := [s[..k]] + rest;
      && (forall p :: p in pieces ==> ',' !in p && '\n' !in p)
      && (forall i :: 0 < i < |pieces| - 1 ==> pieces[i] != "")
      && (pieces[0] == "" <==> (s == "" || IsListSeparator(s[0])))
      && Concat(pieces) == StripSeparators(s)
  {
    PlainPrefix(s, k);
    StripAroundRun(s, k, e);
    var pieces := [s[..k]] + rest;
    ConsPieces(s[..k], rest);
    assert e < |s| ==> rest[0] != "" by {
      if e < |s| { assert s[e..][0] == s[e]; }
    }
  }

  /** The text before the first separator holds none and is kept whole. */
  lemma {:induction false} PlainPrefix(s: string, k: nat)
    requires k <= |s|
    requires forall q :: 0 <= q < k ==> !IsListSeparator(s[q])
    ensures ',' !in s[..k] && '\n' !in s[..k]
    ensures StripSeparators(s[..k]) == s[..k]
  {
    var head := s[..k];
    forall q | 0 <= q < |head| ensures !IsListSeparator(head[q]) {
      assert head[q] == s[q];
    }
    StripKeeps(head);
  }

  /** Removing the separators of `s` drops the run at `k..e` and keeps the
      plain text before it. */
  lemma {:induction false} StripAroundRun(s: string, k: nat, e: nat)
    requires k <= e <= |s|
    requires forall q :: 0 <= q < k ==> !IsListSeparator(s[q])
    requires forall q :: k <= q < e ==> IsListSeparator(s[q])
    ensures StripSeparators(s) == s[..k] + StripSeparators(s[e..])
  {
    var head, run, tail := s[..k], s[k..e], s[e..];
    SliceThree(s, k, e);
    PlainPrefix(s, k);
    RunDrops(s, k, e);
    StripAppend(head + run, tail);
    StripAppend(head, run);
    AppendEmpty(head);
  }

  lemma {:induction false} RunDrops(s: string, k: nat, e: nat)
    requires k <= e <= |s|
    requires forall q :: k <= q < e ==> IsListSeparator(s[q])
    ensures StripSeparators(s[k..e]) == ""
  {
    var run := s[k..e];
    assert forall q :: 0 <= q < e - k ==> run[q] == s[k + q];
    StripDrops(run);
  }

  /** A piece put in front of a list of pieces. */
  lemma {:induction false} ConsPieces(head: string, rest: seq<string>)
    ensures ([head] + rest)[0] == head && ([head] + rest)[1..] == rest
    ensures forall i :: 0 < i <= |rest| ==> ([head] + rest)[i] == rest[i - 1]
    ensures Concat([head] + rest) == head + Concat(rest)
  {
    assert ([head] + rest)[1..] == rest;
  }

  lemma {:induction false} StripAppend(a: string, b: string)
    ensures StripSeparators(a + b) == StripSeparators(a) + StripSeparators(b)
  {
    if a == [] {
      assert a + b == b;
    } else {
      assert (a + b)[0] == a[0];
      assert (a + b)[1..] == a[1..] + b;
      StripAppend(a[1..], b);
    }
  }

  lemma {:induction false} StripKeeps(a: string)
    requires forall k :: 0 <= k < |a| ==> !IsListSeparator(a[k])
    ensures StripSeparators(a) == a
  {
    if a != [] { StripKeeps(a[1..]); }
  }

  lemma {:induction false} StripDrops(a: string)
    requires forall k :: 0 <= k < |a| ==> IsListSeparator(a[k])
    ensures StripSeparators(a) == ""
  {
    if a != [] { StripDrops(a[1..]); }
  }

  /** Lines 75 and 84-91: the ingredient list (`IngredientsOfCapture`
      says which capture it comes from). */
  function ExtractIngredients(s: string): (items: seq<string>)
    ensures forall p :: p in items ==> p != "" && IsTrimmed(p) && ',' !in p && '\n' !in p
    ensures (forall i: nat, j: nat :: !IngredientsMatch(s, i, j)) ==> items == []
  {
    match FindIngredients(s, 0)
    case Some((i, j)) =>
      var pieces := SplitRuns(Trim(s[i + |IngredientsMarker|..j]));
      TrimmedNonEmptyAvoids(pieces, ',');
      TrimmedNonEmptyAvoids(pieces, '\n');
      TrimmedNonEmpty(pieces)
    case None => []
  }

  /** Whenever the ingredients pattern matches somewhere, the engine
      reports a match. */
  lemma {:induction false} IngredientsCaptureExists(s: string, i0: nat, j0: nat)
    requires IngredientsMatch(s, i0, j0)
    ensures exists i: nat, j: nat :: IsIngredientsCapture(s, i, j)
  {
    var r := FindIngredients(s, 0);
    assert r.Some?;
    assert IsIngredientsCapture(s, r.value.0, r.value.1);
  }

  /** The list comes from the engine's match: the leftmost marker, with the
      shortest capture there; the capture is trimmed, split at runs of
      separators, and its pieces trimmed with the empty ones dropped. */
  lemma {:induction false} IngredientsOfCapture(s: string, i: nat, j: nat)
    requires IsIngredientsCapture(s, i, j)
    ensures ExtractIngredients(s) == TrimmedNonEmpty(SplitRuns(Trim(s[i + |IngredientsMarker|..j])))
  {
    var r := FindIngredients(s, 0);
    assert r.Some?;
    var i': nat, j': nat := r.value.0, r.value.1;
    assert i' < i ==> !IngredientsMatch(s, i', j');
    assert i < i' ==> !IngredientsMatch(s, i, j);
    assert i == i';
    assert j' <= j && j <= j';
    assert r == Some((i, j));
  }

  // ---------------------------------------------------------------------
  // Instructions: /Tarif: (.+)$/is, else the header removal
  // /Başlık: .+\nMalzemeler: .+\n/is
  // ---------------------------------------------------------------------

  /** The instructions pattern can match at `i`; group 1 is `s[i + 7..]`. */
  predicate StepsMatch(s: string, i: nat) {
    Occurs(s, StepsMarker, i) && i + |StepsMarker| < |s|
  }

  function FindSteps(s: string, from: nat): (r: Option<nat>)
    ensures r.Some? ==> from <= r.value && StepsMatch(s, r.value)
    ensures r.Some? ==> forall i: nat :: from <= i < r.value ==> !StepsMatch(s, i)
    ensures r.None? ==> forall i: nat :: from <= i ==> !StepsMatch(s, i)
    decreases |s| - from
  {
    match IndexOfFrom(s, StepsMarker, from)
    case None => None
    case Some(i) => if i + |StepsMarker| < |s| then Some(i) else FindSteps(s, i + 1)
  }

  /** The header pattern can match `s[i..n + 1]`, with its first `.+`
      ending at `m` (where `\nMalzemeler: ` starts) and the second at `n`
      (the closing newline). */
  predicate HeaderMatch(s: string, i: nat, m: nat, n: nat) {
    && Occurs(s, TitleMarker, i)
    && i + |TitleMarker| < m
    && Occurs(s, HeaderBreak, m)
    && m + |HeaderBreak| < n < |s|
    && s[n] == '\n'
  }

  /** Leftmost, then both `.+` greedy: the first one ends at the last
      possible `\nMalzemeler: `, the second at the last possible newline. */
  function FindHeader(s: string, from: nat): (r: Option<(nat, nat, nat)>)
    ensures r.Some? ==> from <= r.value.0 && HeaderMatch(s, r.value.0, r.value.1, r.value.2)
    ensures r.Some? ==> forall i: nat, m: nat, n: nat :: from <= i < r.value.0 ==> !HeaderMatch(s, i, m, n)
    ensures r.Some? ==> forall m: nat, n: nat :: HeaderMatch(s, r.value.0, m, n) ==> m <= r.value.1 && n <= r.value.2
    ensures r.None? ==> forall i: nat, m: nat, n: nat :: from <= i ==> !HeaderMatch(s, i, m, n)
    decreases |s| - from
  {
    match IndexOfFrom(s, TitleMarker, from)
    case None => None
    case Some(i) =>
      match LastIndexOfChar(s, '\n', 0, |s|)
      case None => None
      case Some(z) =>
        match LastOccurrenceIn(s, HeaderBreak, i + |TitleMarker| + 1, z - |HeaderBreak| - 1)
        case Some(m) => Some((i, m, z))
        case None => FindHeader(s, i + 1)
  }

  /** Line 97: `s` with the header match replaced by nothing. */
  function RemoveHeader(s: string): (r: string)
    ensures (forall i: nat, m: nat, n: nat :: !HeaderMatch(s, i, m, n)) ==> r == s
    ensures |r| <= |s|
  {
    match FindHeader(s, 0)
    case Some((i, m, n)) => s[..i] + s[n + 1..]
    case None => s
  }

  /** The match a backtracking engine reports: the leftmost start (the
      greedy capture then runs to the end of the text). */
  ghost predicate IsStepsCapture(s: string, i: nat) {
    StepsMatch(s, i) && forall i': nat :: i' < i ==> !StepsMatch(s, i')
  }

  /** Lines 93-99: the trimmed text after the first `Tarif: `
      (`StepsOfCapture`), or else the trimmed text left once the header is
      removed. */
  function ExtractInstructions(s: string): (steps: string)
    ensures IsTrimmed(steps)
    ensures (forall i: nat :: !StepsMatch(s, i)) ==> steps == Trim(RemoveHeader(s))
  {
    match FindSteps(s, 0)
    case Some(i) => Trim(s[i + |StepsMarker|..])
    case None => Trim(RemoveHeader(s))
  }

  /** Whenever the instructions pattern matches somewhere, the engine
      reports a match. */
  lemma {:induction false} StepsCaptureExists(s: string, i0: nat)
    requires StepsMatch(s, i0)
    ensures exists i: nat :: IsStepsCapture(s, i)
  {
    var r := FindSteps(s, 0);
    assert r.Some?;
    assert IsStepsCapture(s, r.value);
  }

  /** The instructions come from the engine's match: everything after the
      leftmost `Tarif: ` that has text after it, trimmed. */
  lemma {:induction false} StepsOfCapture(s: string, i: nat)
    requires IsStepsCapture(s, i)
    ensures ExtractInstructions(s) == Trim(s[i + |StepsMarker|..])
  {
    var r := FindSteps(s, 0);
    assert r.Some?;
    var i': nat := r.value;
    assert i' < i ==> !StepsMatch(s, i');
    assert i < i' ==> !StepsMatch(s, i);
    assert i == i';
    InstructionsFound(s, i);
  }

  lemma {:induction false} InstructionsFound(s: string, i: nat)
    requires FindSteps(s, 0) == Some(i)
    ensures ExtractInstructions(s) == Trim(s[i + |StepsMarker|..])
  {
  }

  /** `parseRecipeFromResponse`: total, every field extracted on its own. */
  /** Lines 73-110: the title, the ingredient list and the instructions of
      a reply. */
  function Parse(s: string): (r: Recipe)
    ensures forall p :: p in r.ingredients ==> p != "" && IsTrimmed(p) && ',' !in p && '\n' !in p
    ensures IsTrimmed(r.instructions)
  {
    Recipe(ExtractTitle(s), ExtractIngredients(s), ExtractInstructions(s))
  }

  // ---------------------------------------------------------------------
  // Properties of the parser
  // ---------------------------------------------------------------------

  /** `LineEnd` finds exactly the first line terminator at or after `from`. */
  lemma {:induction false} LineEndIs(s: string, from: nat, e: nat)
    requires from <= e <= |s|
    requires forall k :: from <= k < e ==> !IsLineTerminator(s[k])
    requires e < |s| ==> IsLineTerminator(s[e])
    ensures LineEnd(s, from) == e
    decreases e - from
  {
    if from < e {
      LineEndIs(s, from + 1, e);
    }
  }

  /** When the first `Başlık: ` is followed by a non-empty line ending with
      `\n` or with the end of the text, the title is the whole rest of that
      line, trimmed: a comma on the line does not end the title. */
  lemma {:induction false} TitleIsRestOfLine(s: string, i: nat)
    requires IsFirstOccurrence(s, TitleMarker, i)
    requires var e := LineEnd(s, i + |TitleMarker|);
             e > i + |TitleMarker| && (e == |s| || s[e] == '\n')
    ensures ExtractTitle(s) == Trim(s[i + |TitleMarker|..LineEnd(s, i + |TitleMarker|)])
  {
    IndexOfFromIs(s, TitleMarker, 0, i);
  }

  /** A line of spaces after the first marker gives the empty title, not
      the default one: the capture is tested before it is trimmed. */
  lemma {:induction false} BlankTitleLine(s: string, i: nat)
    requires IsFirstOccurrence(s, TitleMarker, i)
    requires var e := LineEnd(s, i + |TitleMarker|);
             e > i + |TitleMarker| && (e == |s| || s[e] == '\n')
             && AllSpace(s[i + |TitleMarker|..e])
    ensures ExtractTitle(s) == ""
  {
    TitleIsRestOfLine(s, i);
  }

  /** Without a match of the title pattern the title is the default one;
      without the ingredients marker the list is empty; and without
      `Tarif: ` or a `Başlık: ` header the instructions are the whole
      trimmed reply. */
  lemma {:induction false} ParseWithoutMarkers(s: string)
    requires forall k: nat :: !Occurs(s, TitleMarker, k)
    requires forall k: nat :: !Occurs(s, IngredientsMarker, k)
    requires forall k: nat :: !Occurs(s, StepsMarker, k)
    ensures Parse(s) == Recipe(DefaultTitle, [], Trim(s))
  {
    NoTitleMarker(s);
    NoIngredientsMarker(s);
    NoStepsMarker(s);
  }

  lemma {:induction false} NoTitleMarker(s: string)
    requires forall k: nat :: !Occurs(s, TitleMarker, k)
    ensures ExtractTitle(s) == DefaultTitle
  {
    assert forall i: nat, j: nat :: !TitleMatch(s, i, j);
  }

  lemma {:induction false} NoIngredientsMarker(s: string)
    requires forall k: nat :: !Occurs(s, IngredientsMarker, k)
    ensures ExtractIngredients(s) == []
  {
    assert forall i: nat, j: nat :: !IngredientsMatch(s, i, j);
  }

  lemma {:induction false} NoStepsMarker(s: string)
    requires forall k: nat :: !Occurs(s, TitleMarker, k)
    requires forall k: nat :: !Occurs(s, StepsMarker, k)
    ensures ExtractInstructions(s) == Trim(s)
  {
    assert forall i: nat :: !StepsMatch(s, i);
    assert forall i: nat, m: nat, n: nat :: !HeaderMatch(s, i, m, n);
  }

  /** `s[n]` is the last line break of `s`. */
  predicate IsLastNewline(s: string, n: nat) {
    n < |s| && s[n] == '\n' && forall k :: n < k < |s| ==> s[k] != '\n'
  }

  /** The header removal is greedy across lines: when the header pattern
      matches at all, it removes everything from the first `Başlık: `
      through the last line break of the text. */
  lemma {:induction false} FallbackRemovesThroughLastNewline(s: string, i0: nat, m0: nat, n0: nat)
    requires HeaderMatch(s, i0, m0, n0)
    ensures exists i: nat, n: nat :: && IsFirstOccurrence(s, TitleMarker, i)
                                     && IsLastNewline(s, n) && i < n
                                     && RemoveHeader(s) == s[..i] + s[n + 1..]
  {
    var r := FindHeader(s, 0);
    assert r.Some?;
    var i: nat, m: nat, n: nat := r.value.0, r.value.1, r.value.2;
    HeaderFound(s, i, m, n);
    forall k: nat | k < i
      ensures !Occurs(s, TitleMarker, k)
    {
      assert !HeaderMatch(s, k, m, n);
    }
    forall k | n < k < |s|
      ensures s[k] != '\n'
    {
      assert HeaderMatch(s, i, m, k) ==> k <= n;
    }
    assert IsFirstOccurrence(s, TitleMarker, i) && IsLastNewline(s, n) && i < n;
  }

  /** What the header removal cuts once `FindHeader` has found the match. */
  lemma {:induction false} HeaderFound(s: string, i: nat, m: nat, n: nat)
    requires FindHeader(s, 0) == Some((i, m, n))
    ensures RemoveHeader(s) == s[..i] + s[n + 1..]
  {
  }

  /** `SplitRuns` of a string without separators is that string alone. */
  lemma {:induction false} SplitRunsOfPlain(a: string)
    requires forall k :: 0 <= k < |a| ==> !IsListSeparator(a[k])
    ensures SplitRuns(a) == [a]
  {
    assert NextSeparator(a, 0).None?;
  }

  /** `SplitRuns` cuts at a single separator. */
  lemma {:induction false} SplitRunsOfCons(a: string, c: char, b: string)
    requires forall k :: 0 <= k < |a| ==> !IsListSeparator(a[k])
    requires IsListSeparator(c) && (b == [] || !IsListSeparator(b[0]))
    ensures SplitRuns(a + [c] + b) == [a] + SplitRuns(b)
  {
    var s := a + [c] + b;
    assert s[|a|] == c;
    assert forall k :: 0 <= k < |a| ==> s[k] == a[k];
    assert NextSeparator(s, 0) == Some(|a|);
    assert b != [] ==> s[|a| + 1] == b[0];
    assert RunEnd(s, |a| + 1) == |a| + 1;
    assert RunEnd(s, |a|) == |a| + 1;
    assert s[..|a|] == a && s[|a| + 1..] == b;
  }

  /** `SplitRuns` cuts once at a whole run of separators, however long. */
  lemma {:induction false} SplitRunsOfRun(a: string, run: string, b: string)
    requires forall k :: 0 <= k < |a| ==> !IsListSeparator(a[k])
    requires run != [] && forall k :: 0 <= k < |run| ==> IsListSeparator(run[k])
    requires b == [] || !IsListSeparator(b[0])
    ensures SplitRuns(a + run + b) == [a] + SplitRuns(b)
  {
    var s := a + run + b;
    var e := |a| + |run|;
    assert forall k :: 0 <= k < |a| ==> s[k] == a[k];
    assert forall k :: |a| <= k < e ==> s[k] == run[k - |a|];
    assert s[|a|] == run[0];
    assert NextSeparator(s, 0) == Some(|a|);
    assert b != [] ==> s[e] == b[0];
    assert RunEnd(s, |a|) == e;
    assert s[..|a|] == a && s[e..] == b;
  }
}
