/**
  Applying grammar-checker matches to a text: ordered by position, the first
  replacement of each match that does not overlap an applied one is spliced in,
  and every match is reported as a change.
*/
module Splice {

  datatype Match = Match(offset: nat, length: nat, replacements: seq<string>, message: string)
  {
    function End(): nat { offset + length }
  }

  datatype Change = Change(original: string, correction: string, match_: Match)

  // ----- Ordering -----

  predicate Before(a: Match, b: Match) {
    a.offset < b.offset || (a.offset == b.offset && a.length <= b.length)
  }

  // `sorted(matches, key=...)`: a stable sort.
  function Insert(m: Match, ordered: seq<Match>): seq<Match> {
    if ordered == [] || !Before(ordered[0], m) then [m] + ordered
    else [ordered[0]] + Insert(m, ordered[1..])
  }

  function Ordered(matches: seq<Match>): seq<Match> {
    if matches == [] then []
    else Insert(matches[|matches| - 1], Ordered(matches[..|matches| - 1]))
  }

  ghost predicate InPositionOrder(s: seq<Match>) {
    forall i, j :: 0 <= i < j < |s| ==>
      s[i].offset < s[j].offset || (s[i].offset == s[j].offset && s[i].length <= s[j].length)
  }

  lemma {:induction false} InsertMembers(m: Match, ordered: seq<Match>)
    ensures forall x :: x in Insert(m, ordered) <==> x == m || x in ordered
  {
    if ordered != [] && Before(ordered[0], m) {
      InsertMembers(m, ordered[1..]);
      assert ordered == [ordered[0]] + ordered[1..];
    }
  }

  lemma {:induction false} InsertCounts(m: Match, ordered: seq<Match>)
    ensures multiset(Insert(m, ordered)) == multiset(ordered) + multiset{m}
  {
    if ordered != [] && Before(ordered[0], m) {
      InsertCounts(m, ordered[1..]);
      assert ordered == [ordered[0]] + ordered[1..];
    }
  }

  lemma {:induction false} InsertKeepsOrder(m: Match, ordered: seq<Match>)
    requires InPositionOrder(ordered)
    ensures InPositionOrder(Insert(m, ordered))
  {
    if ordered != [] {
      if Before(ordered[0], m) {
        InsertKeepsOrder(m, ordered[1..]);
        InsertMembers(m, ordered[1..]);
        FirstBefore(ordered[0], Insert(m, ordered[1..]), m, ordered[1..]);
      } else {
        assert forall j :: 0 <= j < |ordered| ==> Before(ordered[0], ordered[j]);
      }
    }
  }

  lemma FirstBefore(first: Match, s: seq<Match>, m: Match, rest: seq<Match>)
    requires InPositionOrder(s) && Before(first, m)
    requires forall x :: x in s ==> x == m || x in rest
    requires forall j :: 0 <= j < |rest| ==> Before(first, rest[j])
    ensures InPositionOrder([first] + s)
  {
    forall j | 0 <= j < |s| ensures Before(first, s[j]) {
      assert s[j] in s;
    }
  }

  lemma {:induction false} OrderedInOrder(matches: seq<Match>)
    ensures InPositionOrder(Ordered(matches))
  {
    if matches != [] {
      OrderedInOrder(matches[..|matches| - 1]);
      InsertKeepsOrder(matches[|matches| - 1], Ordered(matches[..|matches| - 1]));
    }
  }

  lemma {:induction false} OrderedCounts(matches: seq<Match>)
    ensures multiset(Ordered(matches)) == multiset(matches)
  {
    if matches != [] {
      var n := |matches| - 1;
      OrderedCounts(matches[..n]);
      InsertCounts(matches[n], Ordered(matches[..n]));
      assert matches == matches[..n] + [matches[n]];
    }
  }

  // The ordered matches are the given ones, each as often, in position order.
  lemma OrderedIsSorted(matches: seq<Match>)
    ensures InPositionOrder(Ordered(matches)) && multiset(Ordered(matches)) == multiset(matches)
    ensures |Ordered(matches)| == |matches|
  {
    OrderedInOrder(matches);
    OrderedCounts(matches);
    assert |multiset(Ordered(matches))| == |multiset(matches)|;
  }

  // The matches at one position, in the order they stand.
  function MatchesAt(s: seq<Match>, offset: nat, length: nat): seq<Match> {
    if s == [] then []
    else AtHead(s[0], offset, length) + MatchesAt(s[1..], offset, length)
  }

  lemma {:induction false} MatchesAtAppend(s: seq<Match>, m: Match, offset: nat, length: nat)
    ensures MatchesAt(s + [m], offset, length) == MatchesAt(s, offset, length) + AtHead(m, offset, length)
  {
    if s == [] {
      assert s + [m] == [m];
    } else {
      assert (s + [m])[1..] == s[1..] + [m];
      MatchesAtAppend(s[1..], m, offset, length);
    }
  }

  function AtHead(m: Match, offset: nat, length: nat): seq<Match> {
    if m.offset == offset && m.length == length then [m] else []
  }

  lemma MatchesAtCons(m: Match, s: seq<Match>, offset: nat, length: nat)
    ensures MatchesAt([m] + s, offset, length) == AtHead(m, offset, length) + MatchesAt(s, offset, length)
  {
    assert ([m] + s)[1..] == s;
  }

  lemma {:induction false} InsertStable(m: Match, ordered: seq<Match>, offset: nat, length: nat)
    requires InPositionOrder(ordered)
    ensures MatchesAt(Insert(m, ordered), offset, length) == MatchesAt(ordered, offset, length) + AtHead(m, offset, length)
  {
    if ordered != [] && Before(ordered[0], m) {
      InsertStable(m, ordered[1..], offset, length);
      MatchesAtCons(ordered[0], Insert(m, ordered[1..]), offset, length);
    } else {
      MatchesAtCons(m, ordered, offset, length);
      if AtHead(m, offset, length) != [] {
        assert forall i :: 0 <= i < |ordered| ==> Before(ordered[0], ordered[i]) || i == 0;
        NoneAt(ordered, offset, length);
      }
    }
  }

  lemma {:induction false} NoneAt(s: seq<Match>, offset: nat, length: nat)
    requires forall i :: 0 <= i < |s| ==> s[i].offset != offset || s[i].length != length
    ensures MatchesAt(s, offset, length) == []
  {
    if s != [] {
      NoneAt(s[1..], offset, length);
    }
  }

  // The sort is stable: matches at the same position keep their order.
  lemma {:induction false} OrderedStable(matches: seq<Match>, offset: nat, length: nat)
    ensures MatchesAt(Ordered(matches), offset, length) == MatchesAt(matches, offset, length)
  {
    if matches != [] {
      var m, earlier := matches[|matches| - 1], matches[..|matches| - 1];
      OrderedStable(earlier, offset, length);
      OrderedInOrder(earlier);
      InsertStable(m, Ordered(earlier), offset, length);
      MatchesAtAppend(earlier, m, offset, length);
      assert matches == earlier + [m];
    }
  }

  // ----- Which matches are applied -----

  predicate IsApplied(ordered: seq<Match>, i: nat)
    requires i < |ordered|
    decreases i, 1
  {
    ordered[i].replacements != [] && ordered[i].offset >= CursorBefore(ordered, i)
  }

  // The end of the last match applied before position i.
  function CursorBefore(ordered: seq<Match>, i: nat): nat
    requires i <= |ordered|
    decreases i, 0
  {
    if i == 0 then 0
    else if IsApplied(ordered, i - 1) then ordered[i - 1].End()
    else CursorBefore(ordered, i - 1)
  }

  // The cursor never moves back, and it is the furthest end applied so far.
  lemma {:induction false} CursorIsFurthest(ordered: seq<Match>, i: nat)
    requires i <= |ordered|
    ensures forall j :: 0 <= j < i && IsApplied(ordered, j) ==> ordered[j].End() <= CursorBefore(ordered, i)
    ensures CursorBefore(ordered, i) == 0 || exists j :: 0 <= j < i && IsApplied(ordered, j) && ordered[j].End() == CursorBefore(ordered, i)
  {
    if i > 0 {
      CursorIsFurthest(ordered, i - 1);
    }
  }

  // The applied matches are the greedy disjoint choice: a match is applied
  // exactly when it has a replacement and starts at or after the end of every
  // match applied before it.
  lemma GreedyExactly(ordered: seq<Match>, i: nat)
    requires i < |ordered|
    ensures IsApplied(ordered, i) <==>
      ordered[i].replacements != [] &&
      forall j :: 0 <= j < i && IsApplied(ordered, j) ==> ordered[j].End() <= ordered[i].offset
  {
    CursorIsFurthest(ordered, i);
  }

  // ----- Splicing -----

  datatype Edit = Edit(offset: nat, length: nat, with: string)
  {
    function End(): nat { offset + length }
  }

  // The end of the last of the first n edits.
  function EndOf(edits: seq<Edit>, n: nat): nat
    requires n <= |edits|
  {
    if n == 0 then 0 else edits[n - 1].End()
  }

  // The first n edits are in position order, disjoint and within the text.
  ghost predicate InOrder(edits: seq<Edit>, n: nat, size: nat)
    requires n <= |edits|
  {
    n == 0 || (InOrder(edits, n - 1, size) && EndOf(edits, n - 1) <= edits[n - 1].offset && edits[n - 1].End() <= size)
  }

  // The text up to the end of the n-th edit, with the first n edits made.
  ghost function SpliceUpTo(text: string, edits: seq<Edit>, n: nat): string
    requires n <= |edits| && InOrder(edits, n, |text|)
  {
    if n == 0 then ""
    else SpliceUpTo(text, edits, n - 1) + text[EndOf(edits, n - 1)..edits[n - 1].offset] + edits[n - 1].with
  }

  ghost predicate Spliceable(text: string, edits: seq<Edit>) {
    InOrder(edits, |edits|, |text|)
  }

  // The text with all edits made: the spans between them, and the replacements.
  ghost function SpliceAll(text: string, edits: seq<Edit>): string
    requires Spliceable(text, edits)
  {
    SpliceUpTo(text, edits, |edits|) + text[EndOf(edits, |edits|)..]
  }

  // How much longer the first n edits make the text.
  function Growth(edits: seq<Edit>, n: nat): int
    requires n <= |edits|
  {
    if n == 0 then 0 else Growth(edits, n - 1) + |edits[n - 1].with| - edits[n - 1].length
  }

  lemma {:induction false} UpToLength(text: string, edits: seq<Edit>, n: nat)
    requires n <= |edits| && InOrder(edits, n, |text|)
    ensures |SpliceUpTo(text, edits, n)| == EndOf(edits, n) + Growth(edits, n)
  {
    if n > 0 {
      UpToLength(text, edits, n - 1);
    }
  }

  // The result is as long as the text plus what the edits add.
  lemma SpliceLength(text: string, edits: seq<Edit>)
    requires Spliceable(text, edits)
    ensures |SpliceAll(text, edits)| == |text| + Growth(edits, |edits|)
  {
    UpToLength(text, edits, |edits|);
  }

  // What the edits among the first n that end at or before a position add.
  function GrowthBefore(edits: seq<Edit>, n: nat, p: nat): int
    requires n <= |edits|
  {
    if n == 0 then 0
    else GrowthBefore(edits, n - 1, p) + (if edits[n - 1].End() <= p then |edits[n - 1].with| - edits[n - 1].length else 0)
  }

  ghost predicate Outside(edits: seq<Edit>, p: nat) {
    forall i :: 0 <= i < |edits| ==> p < edits[i].offset || edits[i].End() <= p
  }

  ghost predicate KeptIn(text: string, spliced: string, upto: nat, growth: int, p: nat, moved: int) {
    && (p >= upto ==> moved == growth)
    && (p < upto ==> 0 <= p + moved < |spliced| && p < |text| && spliced[p + moved] == text[p])
  }

  lemma KeptNext(text: string, earlier: string, start: nat, growth: int, e: Edit, p: nat, moved: int)
    requires KeptIn(text, earlier, start, growth, p, moved)
    requires |earlier| == start + growth && start <= e.offset && e.End() <= |text|
    requires p < e.offset || e.End() <= p
    ensures var added := |e.with| - e.length;
      KeptIn(text, earlier + text[start..e.offset] + e.with, e.End(), growth + added, p, if e.End() <= p then moved + added else moved)
  {
    var gap := text[start..e.offset];
    if start <= p < e.offset {
      assert (earlier + gap + e.with)[p + moved] == gap[p - start];
    }
  }

  lemma {:induction false} KeptUpTo(text: string, edits: seq<Edit>, n: nat, p: nat)
    requires n <= |edits| && InOrder(edits, n, |text|) && Outside(edits, p)
    ensures KeptIn(text, SpliceUpTo(text, edits, n), EndOf(edits, n), Growth(edits, n), p, GrowthBefore(edits, n, p))
  {
    if n > 0 {
      var earlier, start, e := SpliceUpTo(text, edits, n - 1), EndOf(edits, n - 1), edits[n - 1];
      var growth, moved := Growth(edits, n - 1), GrowthBefore(edits, n - 1, p);
      assert |earlier| == start + growth by { UpToLength(text, edits, n - 1); }
      assert KeptIn(text, earlier, start, growth, p, moved) by { KeptUpTo(text, edits, n - 1, p); }
      KeptNext(text, earlier, start, growth, e, p, moved);
      assert SpliceUpTo(text, edits, n) == earlier + text[start..e.offset] + e.with;
    }
  }

  // Every character outside the edited spans is kept, moved by what the edits
  // before it add.
  lemma KeptOutside(text: string, edits: seq<Edit>, p: nat)
    requires Spliceable(text, edits) && Outside(edits, p) && p < |text|
    ensures 0 <= p + GrowthBefore(edits, |edits|, p) < |SpliceAll(text, edits)|
    ensures SpliceAll(text, edits)[p + GrowthBefore(edits, |edits|, p)] == text[p]
  {
    KeptUpTo(text, edits, |edits|, p);
    UpToLength(text, edits, |edits|);
  }

  // The edit that puts back what the i-th edit replaced.
  ghost function UndoOf(text: string, edits: seq<Edit>, i: nat): Edit
    requires Spliceable(text, edits) && i < |edits|
  {
    InOrderBelow(edits, i + 1, |edits|, |text|);
    Edit(|SpliceUpTo(text, edits, i + 1)| - |edits[i].with|, |edits[i].with|, text[edits[i].offset..edits[i].End()])
  }

  lemma {:induction false} InOrderBelow(edits: seq<Edit>, k: nat, n: nat, size: nat)
    requires k <= n <= |edits| && InOrder(edits, n, size)
    ensures InOrder(edits, k, size)
  {
    if k < n {
      InOrderBelow(edits, k, n - 1, size);
    }
  }

  ghost function Undo(text: string, edits: seq<Edit>): seq<Edit>
    requires Spliceable(text, edits)
  {
    seq(|edits|, i requires 0 <= i < |edits| => UndoOf(text, edits, i))
  }

  // An undoing edit sits where its edit was, moved by what the earlier ones add.
  lemma UndoPosition(text: string, edits: seq<Edit>, i: nat)
    requires Spliceable(text, edits) && i < |edits|
    ensures Undo(text, edits)[i].offset == edits[i].offset + Growth(edits, i)
  {
    InOrderBelow(edits, i + 1, |edits|, |text|);
    UpToLength(text, edits, i);
  }

  // What stands in the output where, over plain strings.
  lemma OutputParts(out: string, earlier: string, gap: string, with: string)
    requires earlier + gap + with <= out
    ensures |earlier| + |gap| + |with| <= |out|
    ensures earlier <= out
    ensures out[|earlier|..|earlier| + |gap|] == gap
  {
    assert out[..|earlier| + |gap| + |with|] == earlier + gap + with;
    assert out[..|earlier|] == (earlier + gap + with)[..|earlier|] == earlier;
    assert out[|earlier|..|earlier| + |gap|] == (earlier + gap + with)[|earlier|..|earlier| + |gap|];
  }

  // Putting one more original back, over plain strings.
  lemma OriginalParts(text: string, start: nat, from: nat, upto: nat)
    requires start <= from <= upto <= |text|
    ensures text[..upto] == text[..start] + text[start..from] + text[from..upto]
  {
  }

  // Where the next undoing edit sits: behind the same gap as its edit.
  lemma UndoShape(text: string, edits: seq<Edit>, n: nat)
    requires Spliceable(text, edits) && n < |edits| && InOrder(edits, n + 1, |text|)
    ensures var (undo, earlier) := (Undo(text, edits)[n], SpliceUpTo(text, edits, n));
      && undo.offset == |earlier| + (edits[n].offset - EndOf(edits, n))
      && undo.End() == |SpliceUpTo(text, edits, n + 1)|
      && undo.with == text[edits[n].offset..edits[n].End()]
  {
    assert Undo(text, edits)[n] == UndoOf(text, edits, n);
  }

  // Making one more edit, over plain sequences.
  lemma SpliceNext(text: string, edits: seq<Edit>, n: nat, front: string)
    requires n < |edits| && InOrder(edits, n, |text|) && SpliceUpTo(text, edits, n) == front
    requires EndOf(edits, n) <= edits[n].offset && edits[n].End() <= |text|
    ensures InOrder(edits, n + 1, |text|) && EndOf(edits, n + 1) == edits[n].End()
    ensures SpliceUpTo(text, edits, n + 1) == front + text[EndOf(edits, n)..edits[n].offset] + edits[n].with
  {
  }

  // One more edit that puts an original back, behind the same gap as its edit.
  lemma BackNext(text: string, edits: seq<Edit>, back: seq<Edit>, n: nat, out: string)
    requires n < |edits| && n < |back| && InOrder(edits, n, |text|)
    requires EndOf(edits, n) <= edits[n].offset && edits[n].End() <= |text|
    requires SpliceUpTo(text, edits, n) + text[EndOf(edits, n)..edits[n].offset] + edits[n].with <= out
    requires InOrder(back, n, |out|) && EndOf(back, n) == |SpliceUpTo(text, edits, n)|
    requires SpliceUpTo(out, back, n) == text[..EndOf(edits, n)]
    requires back[n] == Edit(|SpliceUpTo(text, edits, n)| + (edits[n].offset - EndOf(edits, n)), |edits[n].with|,
                             text[edits[n].offset..edits[n].End()])
    ensures InOrder(back, n + 1, |out|) && EndOf(back, n + 1) == back[n].End()
    ensures SpliceUpTo(out, back, n + 1) == text[..edits[n].End()]
  {
    var e, start := edits[n], EndOf(edits, n);
    OutputParts(out, SpliceUpTo(text, edits, n), text[start..e.offset], e.with);
    SpliceNext(out, back, n, text[..start]);
    OriginalParts(text, start, e.offset, e.End());
  }

  // One more undoing edit, over what the earlier ones did.
  lemma UndoNext(text: string, edits: seq<Edit>, n: nat, out: string)
    requires Spliceable(text, edits) && n < |edits| && InOrder(edits, n + 1, |text|)
    requires SpliceUpTo(text, edits, n + 1) <= out
    requires InOrder(Undo(text, edits), n, |out|)
    requires EndOf(Undo(text, edits), n) == |SpliceUpTo(text, edits, n)|
    requires SpliceUpTo(out, Undo(text, edits), n) == text[..EndOf(edits, n)]
    ensures InOrder(Undo(text, edits), n + 1, |out|)
    ensures EndOf(Undo(text, edits), n + 1) == |SpliceUpTo(text, edits, n + 1)|
    ensures SpliceUpTo(out, Undo(text, edits), n + 1) == text[..EndOf(edits, n + 1)]
  {
    SpliceNext(text, edits, n, SpliceUpTo(text, edits, n));
    UndoShape(text, edits, n);
    BackNext(text, edits, Undo(text, edits), n, out);
  }

  lemma {:induction false} UndoUpTo(text: string, edits: seq<Edit>, n: nat, out: string)
    requires Spliceable(text, edits) && n <= |edits| && InOrder(edits, n, |text|)
    requires SpliceUpTo(text, edits, n) <= out
    ensures InOrder(Undo(text, edits), n, |out|)
    ensures EndOf(Undo(text, edits), n) == |SpliceUpTo(text, edits, n)|
    ensures SpliceUpTo(out, Undo(text, edits), n) == text[..EndOf(edits, n)]
  {
    if n > 0 {
      var e := edits[n - 1];
      OutputParts(out, SpliceUpTo(text, edits, n - 1), text[EndOf(edits, n - 1)..e.offset], e.with);
      UndoUpTo(text, edits, n - 1, out);
      UndoNext(text, edits, n - 1, out);
    }
  }

  // Undoing the edits in the result gives the text back.
  lemma UndoRestores(text: string, edits: seq<Edit>)
    requires Spliceable(text, edits)
    ensures Spliceable(SpliceAll(text, edits), Undo(text, edits))
    ensures SpliceAll(SpliceAll(text, edits), Undo(text, edits)) == text
  {
    var n, out := |edits|, SpliceAll(text, edits);
    UndoUpTo(text, edits, n, out);
    assert out[|SpliceUpTo(text, edits, n)|..] == text[EndOf(edits, n)..];
    assert text == text[..EndOf(edits, n)] + text[EndOf(edits, n)..];
  }

  // ----- The loop -----

  // Python slicing: bounds beyond the text are clamped.
  function Slice(text: string, from: nat, upto: nat): string {
    if from >= |text| || upto <= from then "" else if upto >= |text| then text[from..] else text[from..upto]
  }

  function Concat(pieces: seq<string>): string {
    if pieces == [] then "" else Concat(pieces[..|pieces| - 1]) + pieces[|pieces| - 1]
  }

  function ChangeOf(text: string, m: Match, applied: bool): Change
    requires applied ==> m.replacements != []
  {
    var original := Slice(text, m.offset, m.End());
    Change(original, if applied then m.replacements[0] else original, m)
  }

  function ChangesOf(text: string, ordered: seq<Match>): seq<Change> {
    seq(|ordered|, i requires 0 <= i < |ordered| => ChangeOf(text, ordered[i], IsApplied(ordered, i)))
  }

  // What has been put together up to the cursor.
  function Assembled(text: string, ordered: seq<Match>, n: nat): string
    requires n <= |ordered|
  {
    if n == 0 then ""
    else
      Assembled(text, ordered, n - 1) +
      (if IsApplied(ordered, n - 1)
       then Slice(text, CursorBefore(ordered, n - 1), ordered[n - 1].offset) + ordered[n - 1].replacements[0] else "")
  }

  function Corrected(text: string, ordered: seq<Match>): string {
    Assembled(text, ordered, |ordered|) + Slice(text, CursorBefore(ordered, |ordered|), |text|)
  }

  // One change is reported per match, in position order, whatever the
  // positions; the text is assembled from the applied ones.
  method ApplyMatches(text: string, matches: seq<Match>) returns (corrected: string, changes: seq<Change>)
    ensures changes == ChangesOf(text, Ordered(matches)) && |changes| == |matches|
    ensures corrected == Corrected(text, Ordered(matches))
  {
    OrderedIsSorted(matches);
    corrected, changes := ApplyOrdered(text, Ordered(matches));
  }

  method ApplyOrdered(text: string, ordered: seq<Match>) returns (corrected: string, changes: seq<Change>)
    ensures changes == ChangesOf(text, ordered)
    ensures corrected == Corrected(text, ordered)
  {
    var pieces: seq<string> := [];
    changes := [];
    var cursor := 0;
    for i := 0 to |ordered|
      invariant cursor == CursorBefore(ordered, i)
      invariant Concat(pieces) == Assembled(text, ordered, i)
      invariant changes == ChangesOf(text, ordered)[..i]
    {
      var applied;
      pieces, cursor, applied := ApplyOne(text, ordered, i, pieces, cursor);
      var change := Report(text, ordered[i], applied);
      NextChange(text, ordered, i);
      changes := changes + [change];
    }
    corrected := AppendPiece(pieces, Slice(text, cursor, |text|));
  }

  lemma NextChange(text: string, ordered: seq<Match>, i: nat)
    requires i < |ordered|
    ensures ChangesOf(text, ordered)[..i + 1]
      == ChangesOf(text, ordered)[..i] + [ChangeOf(text, ordered[i], IsApplied(ordered, i))]
  {
  }

  method ApplyOne(text: string, ordered: seq<Match>, i: nat, pieces: seq<string>, cursor: nat)
    returns (longer: seq<string>, next: nat, applied: bool)
    requires i < |ordered| && cursor == CursorBefore(ordered, i) && Concat(pieces) == Assembled(text, ordered, i)
    ensures next == CursorBefore(ordered, i + 1) && Concat(longer) == Assembled(text, ordered, i + 1)
    ensures applied == IsApplied(ordered, i)
  {
    var m := ordered[i];
    applied := m.replacements != [] && m.offset >= cursor;
    if applied {
      longer := AppendPieces(pieces, Slice(text, cursor, m.offset), m.replacements[0]);
      next := m.End();
    } else {
      longer, next := pieces, cursor;
    }
  }

  method Report(text: string, m: Match, applied: bool) returns (change: Change)
    requires applied ==> m.replacements != []
    ensures change == ChangeOf(text, m, applied)
  {
    var original := Slice(text, m.offset, m.End());
    var correction := if m.replacements != [] then m.replacements[0] else original;
    change := Change(original, if applied then correction else original, m);
  }

  method AppendPiece(pieces: seq<string>, last: string) returns (text: string)
    ensures text == Concat(pieces) + last
  {
    assert (pieces + [last])[..|pieces|] == pieces;
    text := Concat(pieces + [last]);
  }

  method AppendPieces(pieces: seq<string>, kept: string, correction: string) returns (longer: seq<string>)
    ensures longer == pieces + [kept] + [correction]
    ensures Concat(longer) == Concat(pieces) + (kept + correction)
  {
    longer := pieces + [kept] + [correction];
    assert longer[..|pieces| + 1] == pieces + [kept];
    assert (pieces + [kept])[..|pieces|] == pieces;
    assert (Concat(pieces) + kept) + correction == Concat(pieces) + (kept + correction);
  }

  // ----- The loop splices -----

  ghost predicate InBounds(text: string, matches: seq<Match>) {
    forall m :: m in matches ==> m.End() <= |text|
  }

  // The edits of the applied matches among the first n.
  function Edits(ordered: seq<Match>, n: nat): seq<Edit>
    requires n <= |ordered|
  {
    if n == 0 then []
    else if IsApplied(ordered, n - 1) then
      Edits(ordered, n - 1) + [Edit(ordered[n - 1].offset, ordered[n - 1].length, ordered[n - 1].replacements[0])]
    else Edits(ordered, n - 1)
  }

  // Only the first n edits matter.
  lemma {:induction false} SameEdits(text: string, a: seq<Edit>, b: seq<Edit>, n: nat)
    requires n <= |a| && n <= |b| && (forall i :: 0 <= i < n ==> a[i] == b[i])
    requires InOrder(a, n, |text|)
    ensures InOrder(b, n, |text|) && SpliceUpTo(text, a, n) == SpliceUpTo(text, b, n) && EndOf(a, n) == EndOf(b, n)
  {
    if n > 0 {
      SameEdits(text, a, b, n - 1);
    }
  }

  lemma EditLast(text: string, edits: seq<Edit>, longer: seq<Edit>, n: nat)
    requires n == |edits| && |longer| == n + 1 && (forall i :: 0 <= i < n ==> longer[i] == edits[i])
    requires InOrder(edits, n, |text|) && EndOf(edits, n) <= longer[n].offset && longer[n].End() <= |text|
    ensures InOrder(longer, n + 1, |text|)
    ensures SpliceUpTo(text, longer, n + 1) ==
      SpliceUpTo(text, edits, n) + text[EndOf(edits, n)..longer[n].offset] + longer[n].with
  {
    SameEdits(text, edits, longer, n);
  }

  lemma {:induction false} AssembledIsSplice(text: string, ordered: seq<Match>, n: nat)
    requires InBounds(text, ordered) && n <= |ordered|
    ensures var edits := Edits(ordered, n);
      && Spliceable(text, edits) && EndOf(edits, |edits|) == CursorBefore(ordered, n)
      && Assembled(text, ordered, n) == SpliceUpTo(text, edits, |edits|)
  {
    if n > 0 {
      AssembledIsSplice(text, ordered, n - 1);
      if IsApplied(ordered, n - 1) {
        AssembledNext(text, ordered, n, Edits(ordered, n - 1));
      }
    }
  }

  lemma AssembledNext(text: string, ordered: seq<Match>, n: nat, edits: seq<Edit>)
    requires InBounds(text, ordered) && 0 < n <= |ordered| && IsApplied(ordered, n - 1)
    requires Spliceable(text, edits) && EndOf(edits, |edits|) == CursorBefore(ordered, n - 1)
    requires Assembled(text, ordered, n - 1) == SpliceUpTo(text, edits, |edits|)
    ensures var m := ordered[n - 1];
      var longer := edits + [Edit(m.offset, m.length, m.replacements[0])];
      && Spliceable(text, longer) && Assembled(text, ordered, n) == SpliceUpTo(text, longer, |longer|)
  {
    var m := ordered[n - 1];
    assert m in ordered;
    assert Slice(text, CursorBefore(ordered, n - 1), m.offset) == text[CursorBefore(ordered, n - 1)..m.offset];
    EditLast(text, edits, edits + [Edit(m.offset, m.length, m.replacements[0])], |edits|);
    var e := Edit(m.offset, m.length, m.replacements[0]);
    assert (SpliceUpTo(text, edits, |edits|) + text[EndOf(edits, |edits|)..e.offset]) + e.with
      == SpliceUpTo(text, edits, |edits|) + (text[EndOf(edits, |edits|)..e.offset] + e.with);
  }

  // For matches within the text, the corrected text is the splice of the
  // applied ones, which are in order and disjoint.
  lemma CorrectedIsSplice(text: string, ordered: seq<Match>)
    requires InBounds(text, ordered)
    ensures Spliceable(text, Edits(ordered, |ordered|))
    ensures Corrected(text, ordered) == SpliceAll(text, Edits(ordered, |ordered|))
  {
    AssembledIsSplice(text, ordered, |ordered|);
    var cursor := CursorBefore(ordered, |ordered|);
    assert Slice(text, cursor, |text|) == text[cursor..];
  }

  lemma OrderedInBounds(text: string, matches: seq<Match>)
    requires InBounds(text, matches)
    ensures InBounds(text, Ordered(matches))
  {
    OrderedIsSorted(matches);
    forall m | m in Ordered(matches) ensures m.End() <= |text| {
      assert m in multiset(Ordered(matches));
      assert m in multiset(matches);
    }
  }

  // So undoing the applied changes restores the input, whatever the matches.
  lemma CorrectionUndone(text: string, matches: seq<Match>)
    requires InBounds(text, matches)
    ensures var edits := Edits(Ordered(matches), |Ordered(matches)|);
      var corrected := Corrected(text, Ordered(matches));
      && Spliceable(text, edits)
      && |corrected| == |text| + Growth(edits, |edits|)
      && Spliceable(corrected, Undo(text, edits))
      && SpliceAll(corrected, Undo(text, edits)) == text
  {
    var ordered := Ordered(matches);
    OrderedInBounds(text, matches);
    var edits := Edits(ordered, |ordered|);
    CorrectedIsSplice(text, ordered);
    SpliceLength(text, edits);
    UndoRestores(text, edits);
  }
}
