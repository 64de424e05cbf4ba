/** String operations of JavaScript that the app relies on, stated over
    `seq<char>`: trim, substring search, split and join, and the decimal
    rendering of a number inside a template literal. */
module Text {

  datatype Option<+T> = None | Some(value: T)

  /** The value of an operation that may throw: the thrown error's message. */
  datatype Result<+T> = Success(value: T) | Failure(error: string)

  /** The line terminators of ECMAScript: the characters `.` does not match
      unless a regular expression carries the `s` flag. */
  predicate IsLineTerminator(c: char) {
    c == '\n' || c == '\r' || c == '\U{2028}' || c == '\U{2029}'
  }

  /** The characters `String.prototype.trim` removes: ECMAScript WhiteSpace
      (tab, vertical tab, form feed, space, no-break space, byte order mark
      and the space separators of Unicode) and the line terminators. */
  predicate IsSpace(c: char) {
    || c == '\t' || c == '\U{000B}' || c == '\U{000C}' || c == ' '
    || c == '\U{00A0}' || c == '\U{FEFF}' || c == '\U{1680}'
    || ('\U{2000}' <= c <= '\U{200A}')
    || c == '\U{202F}' || c == '\U{205F}' || c == '\U{3000}'
    || IsLineTerminator(c)
  }

  predicate AllSpace(s: string) {
    forall k :: 0 <= k < |s| ==> IsSpace(s[k])
  }

  /** Neither end of `s` is a space character. */
  predicate IsTrimmed(s: string) {
    s == [] || (!IsSpace(s[0]) && !IsSpace(s[|s| - 1]))
  }

  /** Number of space characters at the start of `s`. */
  function LeadingSpace(s: string): (n: nat)
    ensures n <= |s| && AllSpace(s[..n])
    ensures n < |s| ==> !IsSpace(s[n])
    ensures n == |s| <==> AllSpace(s)
  {
    if s == [] || !IsSpace(s[0]) then 0
    else
      var n := 1 + LeadingSpace(s[1..]);
      assert forall k :: 1 <= k < n ==> s[k] == s[1..][k - 1];
      n
  }

  /** Number of space characters at the end of `s`. */
  function TrailingSpace(s: string): (n: nat)
    ensures n <= |s| && AllSpace(s[|s| - n..])
    ensures n < |s| ==> !IsSpace(s[|s| - 1 - n])
    ensures n == |s| <==> AllSpace(s)
  {
    if s == [] then 0
    else if !IsSpace(s[|s| - 1]) then
      assert !AllSpace(s) by { assert !IsSpace(s[|s| - 1]); }
      0
    else
      var t := s[..|s| - 1];
      var n := 1 + TrailingSpace(t);
      assert forall k :: 0 <= k < |t| ==> s[k] == t[k];
      assert AllSpace(s) <==> AllSpace(t);
      n
  }

  /** `String.prototype.trim`: the result is `s` with its leading and
      trailing space characters removed, and nothing else. */
  function Trim(s: string): (r: string)
    ensures |r| <= |s| && IsTrimmed(r)
    ensures r == [] <==> AllSpace(s)
  {
    var a := LeadingSpace(s);
    var t := s[a..];
    var b := TrailingSpace(t);
    assert a < |s| ==> !AllSpace(t) by {
      if a < |s| { assert t[0] == s[a]; }
    }
    t[..|t| - b]
  }

  /** Where the trim sits in `s`: it is `s` with leading and trailing white
      space removed, and nothing else. */
  lemma {:induction false} TrimSplit(s: string) returns (a: nat)
    ensures a + |Trim(s)| <= |s| && Trim(s) == s[a..a + |Trim(s)|]
    ensures AllSpace(s[..a]) && AllSpace(s[a + |Trim(s)|..])
  {
    a := LeadingSpace(s);
    var t := s[a..];
    var b := TrailingSpace(t);
    assert Trim(s) == t[..|t| - b];
    assert s[a + |Trim(s)|..] == t[|t| - b..];
  }

  /** A string that is already trimmed is its own trim. */
  lemma {:induction false} TrimOfTrimmed(s: string)
    requires IsTrimmed(s)
    ensures Trim(s) == s
  {
    if s != [] {
      assert LeadingSpace(s) == 0;
      assert s[0..] == s;
      assert TrailingSpace(s) == 0;
    }
  }

  /** `trim` is idempotent. */
  lemma {:induction false} TrimIdempotent(s: string)
    ensures Trim(Trim(s)) == Trim(s)
  {
    TrimOfTrimmed(Trim(s));
  }

  /** `pat` occurs in `s` starting at index `i`. */
  predicate Occurs(s: string, pat: string, i: nat) {
    i + |pat| <= |s| && s[i..i + |pat|] == pat
  }

  lemma {:induction false} Associative(a: string, b: string, c: string)
    ensures a + b + c == a + (b + c)
  {
  }

  /** The three parts of a concatenation can be sliced back out. */
  lemma {:induction false} ConcatSlices(x: string, y: string, z: string)
    ensures |x + y + z| == |x| + |y| + |z|
    ensures (x + y + z)[..|x|] == x
    ensures (x + y + z)[|x|..|x| + |y|] == y
    ensures (x + y + z)[|x| + |y|..] == z
  {
  }

  lemma {:induction false} SliceOfSlice(s: string, lo: nat, hi: nat, i: nat, j: nat)
    requires lo <= hi <= |s| && i <= j <= hi - lo
    ensures s[lo..hi][i..j] == s[lo + i..lo + j]
  {
    var u, v := s[lo..hi][i..j], s[lo + i..lo + j];
    assert |u| == |v|;
    forall k | 0 <= k < |u|
      ensures u[k] == v[k]
    {
      assert u[k] == s[lo..hi][i + k] == s[lo + i + k];
    }
  }

  /** `s.indexOf(pat, from)`: the first index at or after `from` where `pat`
      occurs, if any. */
  function IndexOfFrom(s: string, pat: string, from: nat): (r: Option<nat>)
    ensures r.Some? ==> from <= r.value && Occurs(s, pat, r.value)
    ensures r.Some? ==> forall k :: from <= k < r.value ==> !Occurs(s, pat, k)
    ensures r.None? ==> forall k :: from <= k ==> !Occurs(s, pat, k)
    decreases |s| - from
  {
    if from + |pat| > |s| then None
    else if s[from..from + |pat|] == pat then Some(from)
    else IndexOfFrom(s, pat, from + 1)
  }

  /** `i` is the first index where `pat` occurs. */
  predicate IsFirstOccurrence(s: string, pat: string, i: nat) {
    Occurs(s, pat, i) && forall k: nat :: k < i ==> !Occurs(s, pat, k)
  }

  /** `IndexOfFrom` finds exactly the first occurrence at or after `from`. */
  lemma {:induction false} IndexOfFromIs(s: string, pat: string, from: nat, i: nat)
    requires from <= i && Occurs(s, pat, i)
    requires forall k: nat :: from <= k < i ==> !Occurs(s, pat, k)
    ensures IndexOfFrom(s, pat, from) == Some(i)
    decreases i - from
  {
    if from < i {
      assert !Occurs(s, pat, from);
      IndexOfFromIs(s, pat, from + 1, i);
    }
  }

  /** A pattern cannot occur at a start index that does not hold its first
      character. */
  lemma {:induction false} NoOccurrenceIn(s: string, pat: string, lo: nat, hi: nat)
    requires pat != [] && lo <= hi <= |s|
    requires pat[0] !in s[lo..hi]
    ensures forall k: nat :: lo <= k < hi ==> !Occurs(s, pat, k)
  {
    forall k: nat | lo <= k < hi
      ensures !Occurs(s, pat, k)
    {
      assert s[lo..hi][k - lo] == s[k];
      if k + |pat| <= |s| {
        assert s[k..k + |pat|][0] == s[k];
      }
    }
  }

  /** The largest index `k` with `lo <= k <= hi` where `pat` occurs. */
  function LastOccurrenceIn(s: string, pat: string, lo: nat, hi: int): (r: Option<nat>)
    ensures r.Some? ==> lo <= r.value <= hi && Occurs(s, pat, r.value)
    ensures r.Some? ==> forall k :: r.value < k <= hi ==> !Occurs(s, pat, k)
    ensures r.None? ==> forall k :: lo <= k <= hi ==> !Occurs(s, pat, k)
    decreases hi - lo
  {
    if hi < lo then None
    else if Occurs(s, pat, hi) then Some(hi)
    else LastOccurrenceIn(s, pat, lo, hi - 1)
  }

  /** The largest index `k` with `lo <= k < hi` and `s[k] == c`. */
  function LastIndexOfChar(s: string, c: char, lo: nat, hi: nat): (r: Option<nat>)
    requires hi <= |s|
    ensures r.Some? ==> lo <= r.value < hi && s[r.value] == c
    ensures r.Some? ==> forall k :: r.value < k < hi ==> s[k] != c
    ensures r.None? ==> forall k :: lo <= k < hi ==> s[k] != c
    decreases hi
  {
    if hi <= lo then None
    else if s[hi - 1] == c then Some(hi - 1)
    else LastIndexOfChar(s, c, lo, hi - 1)
  }

  /** `items.join(sep)`. */
  function Join(items: seq<string>, sep: string): string {
    if items == [] then ""
    else if |items| == 1 then items[0]
    else items[0] + sep + Join(items[1..], sep)
  }

  /** `s.split(c)` for a one-character separator: the pieces between the
      occurrences of `c`, in order (two adjacent separators give an empty
      piece; the empty string gives one empty piece). */
  function SplitOn(s: string, c: char): (pieces: seq<string>)
    ensures |pieces| >= 1
    ensures forall p :: p in pieces ==> c !in p
    ensures Join(pieces, [c]) == s
    decreases |s|
  {
    if c !in s then [s]
    else
      var k := FirstIndexOf(s, c);
      var rest := SplitOn(s[k + 1..], c);
      assert s == s[..k] + [c] + s[k + 1..];
      [s[..k]] + rest
  }

  /** The first index of `c` in `s`. */
  function FirstIndexOf(s: string, c: char): (k: nat)
    requires c in s
    ensures k < |s| && s[k] == c
    ensures forall i :: 0 <= i < k ==> s[i] != c
  {
    if s[0] == c then 0
    else
      assert c in s[1..] by { var j :| 0 <= j < |s| && s[j] == c; assert s[1..][j - 1] == c; }
      var k := 1 + FirstIndexOf(s[1..], c);
      assert forall i :: 1 <= i < k ==> s[i] == s[1..][i - 1];
      k
  }

  /** The pieces of a split, each trimmed, with the empty ones dropped: the
      `.map(item => item.trim()).filter(...)` chain that follows every split
      in the app. */
  function TrimmedNonEmpty(pieces: seq<string>): (r: seq<string>)
    ensures forall p :: p in r ==> p != "" && IsTrimmed(p)
    ensures |r| <= |pieces|
  {
    if pieces == [] then []
    else
      var t := Trim(pieces[0]);
      (if t == "" then [] else [t]) + TrimmedNonEmpty(pieces[1..])
  }

  /** A single piece is kept, trimmed, exactly when it is not blank. */
  lemma {:induction false} TrimmedNonEmptySingle(p: string)
    ensures TrimmedNonEmpty([p]) == (if Trim(p) == "" then [] else [Trim(p)])
  {
    TrimmedNonEmptyCons(p, []);
    AppendEmpty(if Trim(p) == "" then [] else [Trim(p)]);
  }

  /** Trimming and filtering works piece by piece, so the kept pieces stay
      in the order of the split. */
  lemma {:induction false} TrimmedNonEmptyAppend(a: seq<string>, b: seq<string>)
    ensures TrimmedNonEmpty(a + b) == TrimmedNonEmpty(a) + TrimmedNonEmpty(b)
    decreases |a|
  {
    if a == [] {
      EmptyAppend(b);
    } else {
      var head := if Trim(a[0]) == "" then [] else [Trim(a[0])];
      ConsAppend(a, b);
      TrimmedNonEmptyCons(a[0], a[1..] + b);
      TrimmedNonEmptyAppend(a[1..], b);
      ConsSlice(a);
      TrimmedNonEmptyCons(a[0], a[1..]);
      SeqAssoc(head, TrimmedNonEmpty(a[1..]), TrimmedNonEmpty(b));
    }
  }

  /** The kept items are exactly the trimmed pieces that are not blank. */
  lemma {:induction false} TrimmedNonEmptyMembers(pieces: seq<string>)
    ensures forall k :: 0 <= k < |pieces| && Trim(pieces[k]) != "" ==> Trim(pieces[k]) in TrimmedNonEmpty(pieces)
    ensures forall p :: p in TrimmedNonEmpty(pieces) ==> exists k :: 0 <= k < |pieces| && p == Trim(pieces[k])
    decreases |pieces|
  {
    if pieces != [] {
      var rest := pieces[1..];
      TrimmedNonEmptyMembers(rest);
      assert forall k :: 1 <= k < |pieces| ==> pieces[k] == rest[k - 1];
      forall p | p in TrimmedNonEmpty(pieces)
        ensures exists k :: 0 <= k < |pieces| && p == Trim(pieces[k])
      {
        if p != Trim(pieces[0]) {
          assert p in TrimmedNonEmpty(rest);
          var k :| 0 <= k < |rest| && p == Trim(rest[k]);
          assert p == Trim(pieces[k + 1]);
        }
      }
    }
  }

  /** Splitting a join of pieces without the separator gives the pieces
      back: the pieces of a split are fixed by the text they join into. */
  lemma {:induction false} SplitOfJoin(pieces: seq<string>, c: char)
    requires |pieces| >= 1
    requires forall p :: p in pieces ==> c !in p
    ensures SplitOn(Join(pieces, [c]), c) == pieces
    decreases |pieces|
  {
    assert pieces[0] in pieces;
    if |pieces| > 1 {
      var rest := pieces[1..];
      assert forall p :: p in rest ==> p in pieces;
      SplitOfJoin(rest, c);
      JoinCons(pieces, [c]);
      SplitOnCons(pieces[0], Join(rest, [c]), c);
      ConsSlice(pieces);
    }
  }

  /** A single piece that trims to nothing is dropped. */
  lemma {:induction false} BlankPieceDropped(s: string)
    requires Trim(s) == ""
    ensures TrimmedNonEmpty([s]) == []
  {
    var ps := [s];
    assert ps[1..] == [];
  }

  lemma {:induction false} TrimEmpty(s: string)
    requires s == ""
    ensures Trim(s) == ""
  {
    assert AllSpace(s);
  }

  lemma {:induction false} SplitEmpty(s: string, c: char)
    requires s == ""
    ensures SplitOn(s, c) == [s]
  {
  }

  /** An empty text splits into one empty piece, which the filter drops. */
  lemma {:induction false} SplitEmptyDropped(s: string, c: char)
    requires s == ""
    ensures TrimmedNonEmpty(SplitOn(s, c)) == []
  {
    SplitEmpty(s, c);
    TrimEmpty(s);
    BlankPieceDropped(s);
  }

  /** Pieces without `c` keep that property through `TrimmedNonEmpty`. */
  lemma {:induction false} TrimmedNonEmptyAvoids(pieces: seq<string>, c: char)
    requires forall p :: p in pieces ==> c !in p
    ensures forall p :: p in TrimmedNonEmpty(pieces) ==> c !in p
  {
    if pieces != [] {
      var t := Trim(pieces[0]);
      var a := TrimSplit(pieces[0]);
      assert c !in pieces[0];
      forall j | 0 <= j < |t| ensures t[j] != c {
        assert t[j] == pieces[0][a + j];
      }
      TrimmedNonEmptyAvoids(pieces[1..], c);
    }
  }

  /** Splitting a join of trimmed, non-empty, comma-free items with ", " on
      ',' and trimming the pieces gives the items back: the allergy list the
      app sends in a prompt can be read back the way the app reads
      free-text allergies. */
  lemma {:induction false} JoinThenSplitRoundTrip(items: seq<string>)
    requires forall p :: p in items ==> p != "" && IsTrimmed(p) && ',' !in p
    ensures TrimmedNonEmpty(SplitOn(Join(items, ", "), ',')) == items
  {
    if items == [] {
      SplitEmptyDropped(Join(items, ", "), ',');
    } else if |items| == 1 {
      assert items[0] in items;
      RoundTripSingle(items);
    } else {
      assert items[0] in items;
      assert forall p :: p in items[1..] ==> p in items;
      JoinThenSplitRoundTrip(items[1..]);
      RoundTripStep(items);
    }
  }

  lemma {:induction false} RoundTripSingle(items: seq<string>)
    requires |items| == 1 && items[0] != "" && IsTrimmed(items[0]) && ',' !in items[0]
    ensures TrimmedNonEmpty(SplitOn(Join(items, ", "), ',')) == items
  {
    var x := items[0];
    assert Join(items, ", ") == x;
    TrimOfTrimmed(x);
    assert SplitOn(x, ',') == [x];
    TrimmedNonEmptyCons(x, []);
  }

  lemma {:induction false} RoundTripStep(items: seq<string>)
    requires |items| > 1 && items[0] != "" && IsTrimmed(items[0]) && ',' !in items[0]
    requires TrimmedNonEmpty(SplitOn(Join(items[1..], ", "), ',')) == items[1..]
    ensures TrimmedNonEmpty(SplitOn(Join(items, ", "), ',')) == items
  {
    JoinCons(items, ", ");
    RoundTripCons(items, Join(items[1..], ", "), Join(items, ", "));
  }

  /** A join starts with its first item. */
  lemma {:induction false} JoinStartsWith(items: seq<string>, sep: string)
    ensures items != [] ==> |items[0]| <= |Join(items, sep)| && Join(items, sep)[..|items[0]|] == items[0]
  {
    if |items| > 1 {
      JoinCons(items, sep);
    }
  }

  lemma {:induction false} JoinCons(items: seq<string>, sep: string)
    requires |items| > 1
    ensures Join(items, sep) == items[0] + sep + Join(items[1..], sep)
  {
  }

  /** Putting one trimmed, non-empty, comma-free item in front with ", "
      puts it in front of the pieces read back. */
  lemma {:induction false} RoundTripCons(items: seq<string>, rest: string, joined: string)
    requires items != [] && items[0] != "" && IsTrimmed(items[0]) && ',' !in items[0]
    requires TrimmedNonEmpty(SplitOn(rest, ',')) == items[1..]
    requires joined == items[0] + ", " + rest
    ensures TrimmedNonEmpty(SplitOn(joined, ',')) == items
  {
    var x := items[0];
    var tail := SplitOn(" " + rest, ',');
    JoinStep(x, rest);
    TrimOfTrimmed(x);
    TrimmedNonEmptyCons(x, tail);
    SplitLeadingSpace(rest);
    ConsSlice(items);
  }

  lemma {:induction false} ConsSlice<T>(items: seq<T>)
    requires items != []
    ensures [items[0]] + items[1..] == items
  {
  }

  lemma {:induction false} SliceThree<T>(s: seq<T>, k: nat, e: nat)
    requires k <= e <= |s|
    ensures s == s[..k] + s[k..e] + s[e..]
  {
  }

  lemma {:induction false} EmptyAppend<T>(a: seq<T>)
    ensures [] + a == a
  {
  }

  lemma {:induction false} ConsAppend<T>(a: seq<T>, b: seq<T>)
    requires a != []
    ensures a + b == [a[0]] + (a[1..] + b)
  {
  }

  lemma {:induction false} SeqAssoc<T>(x: seq<T>, y: seq<T>, z: seq<T>)
    ensures x + (y + z) == (x + y) + z
  {
  }

  lemma {:induction false} AppendEmpty<T>(a: seq<T>)
    ensures a + [] == a
  {
  }

  /** Cutting `s` around its element at `k`. */
  lemma {:induction false} CutAt<T>(s: seq<T>, k: nat)
    requires k < |s|
    ensures s == s[..k] + [s[k]] + s[k + 1..]
  {
  }

  lemma {:induction false} PrependRegroup<T>(a: seq<T>, h: seq<T>, m: seq<T>, t: seq<T>)
    ensures a + (h + m + t) == (a + h) + m + t
  {
  }

  /** Splitting `x, rest` on ',' cuts right after `x`. */
  lemma {:induction false} JoinStep(x: string, rest: string)
    requires ',' !in x
    ensures SplitOn(x + ", " + rest, ',') == [x] + SplitOn(" " + rest, ',')
  {
    assert x + ", " + rest == x + [','] + (" " + rest);
    SplitOnCons(x, " " + rest, ',');
  }

  lemma {:induction false} FirstIndexOfIs(s: string, c: char, k: nat)
    requires k < |s| && s[k] == c
    requires forall i :: 0 <= i < k ==> s[i] != c
    ensures c in s && FirstIndexOf(s, c) == k
  {
  }

  /** A leading space only moves into the first piece of a split, where
      trimming removes it. */
  lemma {:induction false} SplitLeadingSpace(rest: string)
    ensures TrimmedNonEmpty(SplitOn(" " + rest, ',')) == TrimmedNonEmpty(SplitOn(rest, ','))
  {
    var head: string, tail: seq<string>;
    if ',' in rest {
      var k := FirstIndexOf(rest, ',');
      head := rest[..k];
      tail := SplitOn(rest[k + 1..], ',');
      SplitAtFirst(rest, k);
    } else {
      head, tail := rest, [];
      assert ',' !in " " + rest;
    }
    assert SplitOn(rest, ',') == [head] + tail;
    assert SplitOn(" " + rest, ',') == [" " + head] + tail;
    TrimLeadingSpace(head);
    TrimmedNonEmptyCons(head, tail);
    TrimmedNonEmptyCons(" " + head, tail);
  }

  /** Both `rest` and `" " + rest` split first at the first comma of `rest`. */
  lemma {:induction false} SplitAtFirst(rest: string, k: nat)
    requires ',' in rest && k == FirstIndexOf(rest, ',')
    ensures SplitOn(rest, ',') == [rest[..k]] + SplitOn(rest[k + 1..], ',')
    ensures SplitOn(" " + rest, ',') == [" " + rest[..k]] + SplitOn(rest[k + 1..], ',')
  {
    var head, tail := rest[..k], rest[k + 1..];
    CutAt(rest, k);
    SplitOnCons(head, tail, ',');
    PrependRegroup(" ", head, [','], tail);
    assert ',' !in " " + head;
    SplitOnCons(" " + head, tail, ',');
  }

  /** Splitting at the first separator. */
  lemma {:induction false} SplitOnCons(head: string, tail: string, c: char)
    requires c !in head
    ensures SplitOn(head + [c] + tail, c) == [head] + SplitOn(tail, c)
  {
    var s := head + [c] + tail;
    assert forall i :: 0 <= i < |head| ==> s[i] == head[i];
    FirstIndexOfIs(s, c, |head|);
    assert s[..|head|] == head;
    assert s[|head| + 1..] == tail;
  }

  lemma {:induction false} TrimmedNonEmptyCons(p: string, ps: seq<string>)
    ensures TrimmedNonEmpty([p] + ps)
            == (if Trim(p) == "" then [] else [Trim(p)]) + TrimmedNonEmpty(ps)
  {
    assert ([p] + ps)[1..] == ps;
  }

  lemma {:induction false} LeadingSpaceIs(s: string, n: nat)
    requires n < |s| && AllSpace(s[..n]) && !IsSpace(s[n])
    ensures LeadingSpace(s) == n
  {
    if n > 0 {
      assert IsSpace(s[..n][0]);
      assert s[1..][..n - 1] == s[1..n];
      assert forall k :: 0 <= k < n - 1 ==> s[1..n][k] == s[..n][k + 1];
      LeadingSpaceIs(s[1..], n - 1);
    }
  }

  lemma {:induction false} TrailingSpaceIs(s: string, n: nat)
    requires n < |s| && AllSpace(s[|s| - n..]) && !IsSpace(s[|s| - 1 - n])
    ensures TrailingSpace(s) == n
  {
    if n > 0 {
      var t := s[..|s| - 1];
      var w := s[|s| - n..];
      var v := s[|s| - n..|s| - 1];
      assert IsSpace(w[n - 1]);
      assert t[|t| - (n - 1)..] == v;
      assert forall k :: 0 <= k < |v| ==> v[k] == w[k];
      TrailingSpaceIs(t, n - 1);
    }
  }

  /** The trim of a non-empty trimmed string between two runs of spaces is
      that string. */
  lemma {:induction false} TrimIs(x: string, t: string, y: string)
    requires AllSpace(x) && AllSpace(y) && t != [] && IsTrimmed(t)
    ensures Trim(x + t + y) == t
  {
    var s := x + t + y;
    assert s[..|x|] == x && s[|x|] == t[0];
    LeadingSpaceIs(s, |x|);
    var u := s[|x|..];
    assert u == t + y;
    assert u[|u| - |y|..] == y && u[|u| - 1 - |y|] == t[|t| - 1];
    TrailingSpaceIs(u, |y|);
    assert u[..|u| - |y|] == t;
  }

  lemma {:induction false} AllSpaceAppend(a: string, b: string)
    requires AllSpace(a) && AllSpace(b)
    ensures AllSpace(a + b)
  {
    forall k | 0 <= k < |a + b|
      ensures IsSpace((a + b)[k])
    {
      if k < |a| { assert (a + b)[k] == a[k]; } else { assert (a + b)[k] == b[k - |a|]; }
    }
  }

  lemma {:induction false} Regroup(x: string, p: string, t: string, q: string, y: string)
    ensures x + (p + t + q) + y == (x + p) + t + (q + y)
  {
  }

  /** Spaces around a string do not change its trim. */
  lemma {:induction false} TrimPadded(x: string, s: string, y: string)
    requires AllSpace(x) && AllSpace(y)
    ensures Trim(x + s + y) == Trim(s)
  {
    if Trim(s) == [] {
      AllSpaceAppend(x, s);
      AllSpaceAppend(x + s, y);
    } else {
      TrimPaddedNonEmpty(x, s, y);
    }
  }

  lemma {:induction false} TrimPaddedNonEmpty(x: string, s: string, y: string)
    requires AllSpace(x) && AllSpace(y) && Trim(s) != []
    ensures Trim(x + s + y) == Trim(s)
  {
    var t := Trim(s);
    var a := TrimSplit(s);
    var p, q := s[..a], s[a + |t|..];
    SliceThree(s, a, a + |t|);
    Regroup(x, p, t, q, y);
    AllSpaceAppend(x, p);
    AllSpaceAppend(q, y);
    TrimIs(x + p, t, q + y);
  }

  /** A leading space does not change the trim. */
  lemma {:induction false} TrimLeadingSpace(s: string)
    ensures Trim(" " + s) == Trim(s)
  {
    var t := " " + s;
    assert t[1..] == s;
    assert LeadingSpace(t) == 1 + LeadingSpace(s);
    assert t[LeadingSpace(t)..] == s[LeadingSpace(s)..];
  }

  /** JavaScript's `length` of a string: UTF-16 code units, so a character
      outside the Basic Multilingual Plane counts twice. */
  function Utf16Length(s: string): (n: nat)
    ensures |s| <= n <= 2 * |s|
    ensures (forall i :: 0 <= i < |s| ==> (s[i] as int) < 0x1_0000) ==> n == |s|
  {
    if s == [] then 0
    else (if (s[0] as int) < 0x1_0000 then 1 else 2) + Utf16Length(s[1..])
  }

  /** The decimal digits of `n`, as `${n}` renders a non-negative integer. */
  function DecimalString(n: nat): (r: string)
    ensures r != "" && forall k :: 0 <= k < |r| ==> '0' <= r[k] <= '9'
    ensures |r| > 1 ==> r[0] != '0'
  {
    if n < 10 then [DigitChar(n)]
    else
      var r := DecimalString(n / 10) + [DigitChar(n % 10)];
      assert r[0] == DecimalString(n / 10)[0];
      r
  }

  function DigitChar(d: nat): (c: char)
    requires d < 10
    ensures '0' <= c <= '9' && c as int - '0' as int == d
  {
    ('0' as int + d) as char
  }

  /** The value of a string of decimal digits. */
  function DecimalValue(s: string): nat
    requires forall k :: 0 <= k < |s| ==> '0' <= s[k] <= '9'
  {
    if s == [] then 0
    else DecimalValue(s[..|s| - 1]) * 10 + (s[|s| - 1] as int - '0' as int)
  }

  /** Reading the rendered digits back gives the number. */
  lemma {:induction false} DecimalRoundTrip(n: nat)
    ensures DecimalValue(DecimalString(n)) == n
  {
    if n >= 10 {
      var r := DecimalString(n);
      assert r[..|r| - 1] == DecimalString(n / 10);
      DecimalRoundTrip(n / 10);
    }
  }
}
