/**
  The installer of a managed block in a configuration file: finding the block
  between its marker lines, inserting, repairing and removing it.

  A text is what reading the file yields, with line ends already translated.
*/
module ManagedBlock {
  import opened Text

  // ----- Lines and white space -----

  // The characters that end a line for `splitlines` (a carriage return does
  // not survive reading).
  predicate IsBreak(c: char) {
    c as int in {10, 11, 12, 28, 29, 30, 133, 8232, 8233}
  }

  // The characters `strip` removes.
  predicate IsSpace(c: char) {
    IsBreak(c) || c as int in {9, 13, 31, 32, 160, 5760, 8239, 8287, 12288} || 8192 <= c as int <= 8202
  }

  // One more character before some lines: a line of its own, or the start of
  // the first.
  function Prefix(c: string, rest: seq<string>, alone: bool): seq<string> {
    if alone || rest == [] then [c] + rest else [c + rest[0]] + rest[1..]
  }

  // `text.splitlines(keepends=True)`
  function Lines(text: string): (lines: seq<string>)
    ensures text != "" <==> lines != []
  {
    if text == "" then [] else Prefix(text[..1], Lines(text[1..]), IsBreak(text[0]))
  }

  lemma {:induction false} LineNonempty(text: string, k: nat)
    requires k < |Lines(text)|
    ensures Lines(text)[k] != ""
  {
    if !IsBreak(text[0]) && |text| > 1 {
      LineNonempty(text[1..], k);
    } else if k > 0 {
      LineNonempty(text[1..], k - 1);
    }
  }

  function Concat(lines: seq<string>): string {
    if lines == [] then "" else lines[0] + Concat(lines[1..])
  }

  function StripLeft(s: string): string {
    if s != "" && IsSpace(s[0]) then StripLeft(s[1..]) else s
  }

  function StripRight(s: string): string {
    if s != "" && IsSpace(s[|s| - 1]) then StripRight(s[..|s| - 1]) else s
  }

  function Strip(s: string): string {
    StripRight(StripLeft(s))
  }

  // `text.rstrip("\n")`
  function TrimNewlines(text: string): string {
    if text != "" && text[|text| - 1] == '\n' then TrimNewlines(text[..|text| - 1]) else text
  }

  predicate EndsLine(text: string) {
    text == "" || IsBreak(text[|text| - 1])
  }

  lemma PrefixAppend(c: string, a: seq<string>, b: seq<string>, alone: bool)
    requires alone || a != []
    ensures Prefix(c, a + b, alone) == Prefix(c, a, alone) + b
  {
  }

  lemma {:induction false} LinesAppend(a: string, b: string)
    requires EndsLine(a)
    ensures Lines(a + b) == Lines(a) + Lines(b)
  {
    if a == "" {
      assert a + b == b;
    } else {
      assert (a + b)[1..] == a[1..] + b && (a + b)[..1] == a[..1];
      LinesAppend(a[1..], b);
      PrefixAppend(a[..1], Lines(a[1..]), Lines(b), IsBreak(a[0]));
    }
  }

  lemma PrefixConcat(c: string, rest: seq<string>, alone: bool)
    ensures Concat(Prefix(c, rest, alone)) == c + Concat(rest)
  {
    if alone || rest == [] {
      assert ([c] + rest)[1..] == rest;
    } else {
      assert ([c + rest[0]] + rest[1..])[1..] == rest[1..];
      assert (c + rest[0]) + Concat(rest[1..]) == c + (rest[0] + Concat(rest[1..]));
    }
  }

  lemma {:induction false} LinesConcat(text: string)
    ensures Concat(Lines(text)) == text
  {
    if text != "" {
      LinesConcat(text[1..]);
      PrefixConcat(text[..1], Lines(text[1..]), IsBreak(text[0]));
      assert text == text[..1] + text[1..];
    }
  }

  // A text without breaks, ended by a newline, is one line.
  lemma {:induction false} LineOf(s: string)
    requires OneLine(s)
    ensures Lines(s + "\n") == [s + "\n"]
  {
    if s == "" {
      assert s + "\n" == "\n" && "\n"[1..] == "" && "\n"[..1] == "\n";
    } else {
      assert (s + "\n")[1..] == s[1..] + "\n" && (s + "\n")[..1] == s[..1];
      LineOf(s[1..]);
      assert s[..1] + (s[1..] + "\n") == s + "\n";
    }
  }

  lemma PrefixTake(c: string, rest: seq<string>, alone: bool, k: nat)
    requires 0 < k < |Prefix(c, rest, alone)|
    ensures alone ==> k - 1 <= |rest| && Prefix(c, rest, alone)[..k] == Prefix(c, rest[..k - 1], true)
    ensures !alone ==> k <= |rest| && Prefix(c, rest, alone)[..k] == Prefix(c, rest[..k], false)
  {
  }

  // Every line but the last ends with a break.
  lemma {:induction false} LinesEnd(text: string, k: nat)
    requires k < |Lines(text)|
    ensures EndsLine(Concat(Lines(text)[..k]))
  {
    if k > 0 {
      var c, rest, alone := text[..1], Lines(text[1..]), IsBreak(text[0]);
      PrefixTake(c, rest, alone, k);
      if alone {
        LinesEnd(text[1..], k - 1);
        PrefixConcat(c, rest[..k - 1], true);
        ConcatEnds(c, Concat(rest[..k - 1]));
      } else {
        LinesEnd(text[1..], k);
        PrefixConcat(c, rest[..k], false);
        LineNonempty(text[1..], 0);
        NonemptyEnds(c, rest[..k]);
      }
    }
  }

  lemma NonemptyEnds(c: string, lines: seq<string>)
    requires lines != [] && lines[0] != "" && EndsLine(Concat(lines))
    ensures EndsLine(c + Concat(lines))
  {
    assert Concat(lines) != "";
  }

  lemma ConcatEnds(a: string, b: string)
    requires EndsLine(a) && EndsLine(b)
    ensures EndsLine(a + b)
  {
  }

  lemma {:induction false} ConcatAppend(a: seq<string>, b: seq<string>)
    ensures Concat(a + b) == Concat(a) + Concat(b)
  {
    if a == [] {
      assert a + b == b;
    } else {
      assert (a + b)[1..] == a[1..] + b;
      ConcatAppend(a[1..], b);
    }
  }

  // Splitting the front or the back of the lines again gives those lines.
  lemma LinesPrefix(text: string, k: nat)
    requires k <= |Lines(text)|
    ensures Lines(Concat(Lines(text)[..k])) == Lines(text)[..k]
    ensures Lines(Concat(Lines(text)[k..])) == Lines(text)[k..]
    ensures k < |Lines(text)| ==> EndsLine(Concat(Lines(text)[..k]))
  {
    var lines := Lines(text);
    if k < |lines| {
      LinesEnd(text, k);
      SplitBack(text, k);
    } else {
      LinesConcat(text);
      assert lines[..k] == lines && lines[k..] == [];
    }
  }

  lemma {:induction false} SplitBack(text: string, k: nat)
    requires k < |Lines(text)|
    ensures Lines(Concat(Lines(text)[..k])) == Lines(text)[..k]
    ensures Lines(Concat(Lines(text)[k..])) == Lines(text)[k..]
  {
    var lines := Lines(text);
    var front, back := Concat(lines[..k]), Concat(lines[k..]);
    LinesConcat(text);
    assert lines == lines[..k] + lines[k..];
    ConcatAppend(lines[..k], lines[k..]);
    LinesEnd(text, k);
    LinesAppend(front, back);
    LineCount(text, k);
    assert Lines(front) + Lines(back) == lines[..k] + lines[k..];
  }

  // The front k lines make k lines.
  lemma {:induction false} LineCount(text: string, k: nat)
    requires k < |Lines(text)|
    ensures |Lines(Concat(Lines(text)[..k]))| == k
  {
    if k > 0 {
      var lines := Lines(text);
      assert lines[..k] == lines[..k - 1] + [lines[k - 1]];
      ConcatAppend(lines[..k - 1], [lines[k - 1]]);
      LineCount(text, k - 1);
      LinesEnd(text, k - 1);
      assert Concat([lines[k - 1]]) == lines[k - 1] by { assert [lines[k - 1]][1..] == []; }
      LinesAppend(Concat(lines[..k - 1]), lines[k - 1]);
      SingleLine(text, k - 1);
    }
  }

  // A line of a text is one line.
  lemma {:induction false} SingleLine(text: string, k: nat)
    requires k < |Lines(text)|
    ensures Lines(Lines(text)[k]) == [Lines(text)[k]]
  {
    var rest := Lines(text[1..]);
    if IsBreak(text[0]) || |text| == 1 {
      if k > 0 {
        SingleLine(text[1..], k - 1);
      } else {
        assert text[..1][1..] == "" && text[..1][..1] == text[..1];
      }
    } else if k > 0 {
      SingleLine(text[1..], k);
    } else {
      SingleLine(text[1..], 0);
      LineNonempty(text[1..], 0);
      var line := text[..1] + rest[0];
      assert line[1..] == rest[0] && line[..1] == text[..1];
      assert Lines(line) == [line[..1] + rest[0]] + [rest[0]][1..];
    }
  }

  // ----- Markers -----

  datatype Markers = Markers(begin: string, end: string)

  ghost predicate OneLine(s: string) {
    forall i :: 0 <= i < |s| ==> !IsBreak(s[i])
  }

  // A marker is a non-empty line of its own, without surrounding space.
  ghost predicate PlainMarker(marker: string) {
    marker != "" && !IsSpace(marker[0]) && !IsSpace(marker[|marker| - 1]) && OneLine(marker)
  }

  ghost predicate PlainMarkers(m: Markers) {
    PlainMarker(m.begin) && PlainMarker(m.end) && m.begin != m.end
  }

  const MANAGED_BEGIN := "# BEGIN AUDISOR MANAGED: codex-aflow"
  const MANAGED_END := "# END AUDISOR MANAGED: codex-aflow"

  function InstalledMarkers(): Markers {
    Markers(MANAGED_BEGIN, MANAGED_END)
  }

  // Nothing but printable ASCII characters.
  ghost predicate Ascii(s: string) {
    forall i :: 0 <= i < |s| ==> 32 <= s[i] as int < 127
  }

  lemma AsciiIsOneLine(s: string)
    requires Ascii(s)
    ensures OneLine(s)
  {
  }

  lemma OneLineAppend(a: string, b: string)
    requires OneLine(a) && OneLine(b)
    ensures OneLine(a + b)
  {
  }

  lemma BeginPlain()
    ensures PlainMarker(MANAGED_BEGIN)
  {
    AsciiIsOneLine(MANAGED_BEGIN);
  }

  lemma EndPlain()
    ensures PlainMarker(MANAGED_END)
  {
    AsciiIsOneLine(MANAGED_END);
  }

  lemma MarkersDiffer()
    ensures MANAGED_BEGIN != MANAGED_END
  {
    assert |MANAGED_BEGIN| != |MANAGED_END|;
  }

  lemma InstalledMarkersPlain()
    ensures PlainMarkers(InstalledMarkers())
  {
    BeginPlain();
    EndPlain();
    MarkersDiffer();
  }

  function Positions(lines: seq<string>, marker: string): seq<nat> {
    if lines == [] then []
    else
      var n := |lines| - 1;
      Positions(lines[..n], marker) + (if Strip(lines[n]) == marker then [n] else [])
  }

  lemma {:induction false} PositionAt(lines: seq<string>, marker: string, i: nat)
    ensures i in Positions(lines, marker) <==> i < |lines| && Strip(lines[i]) == marker
  {
    if lines != [] {
      var n := |lines| - 1;
      var hit := Strip(lines[n]) == marker;
      PositionAt(lines[..n], marker, i);
      assert i in Positions(lines, marker) <==> i in Positions(lines[..n], marker) || (hit && i == n);
    }
  }

  lemma PositionsAre(lines: seq<string>, marker: string)
    ensures forall i: nat :: i in Positions(lines, marker) <==> i < |lines| && Strip(lines[i]) == marker
  {
    forall i: nat ensures i in Positions(lines, marker) <==> i < |lines| && Strip(lines[i]) == marker {
      PositionAt(lines, marker, i);
    }
  }

  lemma {:induction false} PositionsAscend(lines: seq<string>, marker: string)
    ensures forall i, j :: 0 <= i < j < |Positions(lines, marker)| ==> Positions(lines, marker)[i] < Positions(lines, marker)[j]
  {
    if lines != [] {
      var n := |lines| - 1;
      PositionsAscend(lines[..n], marker);
      PositionsAre(lines[..n], marker);
      var earlier := Positions(lines[..n], marker);
      assert forall i :: 0 <= i < |earlier| ==> earlier[i] in earlier;
    }
  }

  datatype Found = NoBlock | Block(first: nat, last: nat) | Duplicate | Mismatched | OutOfOrder

  method FindPositions(lines: seq<string>, marker: string) returns (positions: seq<nat>)
    ensures positions == Positions(lines, marker)
  {
    positions := [];
    for i := 0 to |lines|
      invariant positions == Positions(lines[..i], marker)
    {
      assert lines[..i + 1][..i] == lines[..i];
      if Strip(lines[i]) == marker {
        positions := positions + [i];
      }
    }
    assert lines[..|lines|] == lines;
  }

  function FindSpec(m: Markers, lines: seq<string>): (found: Found)
    ensures found.Block? ==> found.first < found.last < |lines|
  {
    var begins, ends := Positions(lines, m.begin), Positions(lines, m.end);
    PositionsAre(lines, m.end);
    assert |ends| > 0 ==> ends[0] in ends;
    FindAmong(begins, ends)
  }

  function FindAmong(begins: seq<nat>, ends: seq<nat>): Found {
    if |begins| > 1 || |ends| > 1 then Duplicate
    else if |begins| == 0 && |ends| == 0 then NoBlock
    else if |begins| != |ends| then Mismatched
    else if begins[0] >= ends[0] then OutOfOrder
    else Block(begins[0], ends[0])
  }

  method FindManagedBlock(m: Markers, text: string) returns (found: Found)
    ensures found == FindSpec(m, Lines(text))
  {
    var lines := Lines(text);
    var begins := FindPositions(lines, m.begin);
    var ends := FindPositions(lines, m.end);
    if |begins| > 1 || |ends| > 1 {
      return Duplicate;
    }
    if |begins| == 0 && |ends| == 0 {
      return NoBlock;
    }
    if |begins| != |ends| {
      return Mismatched;
    }
    if begins[0] >= ends[0] {
      return OutOfOrder;
    }
    found := Block(begins[0], ends[0]);
  }

  ghost predicate OnlyAt(lines: seq<string>, marker: string, k: int) {
    forall i :: 0 <= i < |lines| ==> (Strip(lines[i]) == marker <==> i == k)
  }

  lemma OnlyPosition(lines: seq<string>, marker: string, k: nat)
    ensures Positions(lines, marker) == [k] <==> k < |lines| && OnlyAt(lines, marker, k)
    ensures Positions(lines, marker) == [] <==> OnlyAt(lines, marker, -1)
  {
    var positions := Positions(lines, marker);
    PositionsAre(lines, marker);
    PositionsAscend(lines, marker);
    forall i | 0 <= i < |lines| ensures Strip(lines[i]) == marker <==> i in positions {
    }
    assert positions != [] ==> positions[0] in positions;
    assert |positions| > 1 ==> positions[1] in positions;
    if k < |lines| && OnlyAt(lines, marker, k) {
      assert k in positions;
    }
  }

  // A block is found exactly when each marker is on one line only, in order;
  // none is found exactly when neither marker is on any line.
  lemma FoundExactly(m: Markers, lines: seq<string>, first: nat, last: nat)
    ensures FindSpec(m, lines) == Block(first, last) <==>
      first < last < |lines| && OnlyAt(lines, m.begin, first) && OnlyAt(lines, m.end, last)
    ensures FindSpec(m, lines) == NoBlock <==> OnlyAt(lines, m.begin, -1) && OnlyAt(lines, m.end, -1)
  {
    OnlyPosition(lines, m.begin, first);
    OnlyPosition(lines, m.end, last);
    FindAmongExactly(Positions(lines, m.begin), Positions(lines, m.end), first, last);
  }

  lemma FindAmongExactly(begins: seq<nat>, ends: seq<nat>, first: nat, last: nat)
    ensures FindAmong(begins, ends) == Block(first, last) <==> begins == [first] && ends == [last] && first < last
    ensures FindAmong(begins, ends) == NoBlock <==> begins == [] && ends == []
  {
    assert |begins| == 1 ==> begins == [begins[0]];
    assert |ends| == 1 ==> ends == [ends[0]];
  }

  // ----- Stripping a line end -----

  lemma {:induction false} StripLeftNewline(s: string)
    ensures StripLeft(s + "\n") == (if StripLeft(s) == "" then "" else StripLeft(s) + "\n")
  {
    if s == "" {
      assert s + "\n" == "\n" && "\n"[1..] == "";
    } else {
      assert (s + "\n")[1..] == s[1..] + "\n";
      if IsSpace(s[0]) {
        StripLeftNewline(s[1..]);
      }
    }
  }

  // A newline at the end does not change what is left of a line.
  lemma StripNewline(s: string)
    ensures Strip(s + "\n") == Strip(s)
  {
    StripLeftNewline(s);
    var left := StripLeft(s);
    if left != "" {
      assert (left + "\n")[..|left|] == left;
    }
  }

  lemma StripMarker(marker: string)
    requires PlainMarker(marker)
    ensures Strip(marker + "\n") == marker
  {
    StripNewline(marker);
  }

  // ----- Texts without markers -----

  ghost predicate Unmarked(m: Markers, lines: seq<string>) {
    OnlyAt(lines, m.begin, -1) && OnlyAt(lines, m.end, -1)
  }

  lemma UnmarkedAppend(m: Markers, a: seq<string>, b: seq<string>)
    ensures Unmarked(m, a + b) <==> Unmarked(m, a) && Unmarked(m, b)
  {
    var all := a + b;
    if Unmarked(m, all) {
      forall i | 0 <= i < |a| ensures Strip(a[i]) != m.begin && Strip(a[i]) != m.end {
        assert all[i] == a[i];
      }
      forall i | 0 <= i < |b| ensures Strip(b[i]) != m.begin && Strip(b[i]) != m.end {
        assert all[|a| + i] == b[i];
      }
    }
  }

  // Ending a text with one more newline adds no marker and hides none.
  lemma {:induction false} LinesNewline(m: Markers, text: string)
    requires m.begin != "" && m.end != ""
    ensures Unmarked(m, Lines(text + "\n")) <==> Unmarked(m, Lines(text))
  {
    if EndsLine(text) {
      LinesAppend(text, "\n");
      LineOf("");
      assert "" + "\n" == "\n";
      UnmarkedAppend(m, Lines(text), ["\n"]);
      StripNewline("");
    } else {
      var lines := Lines(text);
      var n := |lines| - 1;
      LastLine(text);
      forall i | 0 <= i <= n ensures Strip(Lines(text + "\n")[i]) == Strip(lines[i]) {
        StripNewline(lines[n]);
      }
    }
  }

  lemma {:induction false} LastLine(text: string)
    requires !EndsLine(text)
    ensures var n := |Lines(text)| - 1;
      n >= 0 && Lines(text + "\n") == Lines(text)[..n] + [Lines(text)[n] + "\n"]
  {
    assert (text + "\n")[1..] == text[1..] + "\n" && (text + "\n")[..1] == text[..1];
    if |text| == 1 {
      LineOf("");
      assert text[1..] == "" && "" + "\n" == "\n" && text[..1] == text;
    } else {
      LastLine(text[1..]);
      PrefixLast(text[..1], Lines(text[1..]), IsBreak(text[0]));
    }
  }

  lemma PrefixLast(c: string, rest: seq<string>, alone: bool)
    requires rest != []
    ensures var n := |rest| - 1;
      var all := Prefix(c, rest, alone);
      Prefix(c, rest[..n] + [rest[n] + "\n"], alone) == all[..|all| - 1] + [all[|all| - 1] + "\n"]
  {
    var n := |rest| - 1;
    var ended := rest[..n] + [rest[n] + "\n"];
    if alone {
      assert ([c] + rest)[..|rest|] == [c] + rest[..n];
    } else if n == 0 {
      assert c + (rest[0] + "\n") == (c + rest[0]) + "\n";
    } else {
      assert ended[0] == rest[0] && ended[1..] == rest[1..][..n - 1] + [rest[n] + "\n"];
      assert ([c + rest[0]] + rest[1..])[..n] == [c + rest[0]] + rest[1..][..n - 1];
    }
  }

  lemma {:induction false} TrimUnmarked(m: Markers, text: string)
    requires m.begin != "" && m.end != ""
    ensures Unmarked(m, Lines(TrimNewlines(text))) <==> Unmarked(m, Lines(text))
  {
    if text != "" && text[|text| - 1] == '\n' {
      var shorter := text[..|text| - 1];
      TrimUnmarked(m, shorter);
      LinesNewline(m, shorter);
      assert shorter + "\n" == text;
    }
  }

  lemma {:induction false} TrimTrims(text: string)
    ensures TrimNewlines(TrimNewlines(text)) == TrimNewlines(text)
    ensures TrimNewlines(text + "\n") == TrimNewlines(text)
  {
    assert (text + "\n")[..|text|] == text;
    if text != "" && text[|text| - 1] == '\n' {
      TrimTrims(text[..|text| - 1]);
    }
  }

  // ----- Installing and removing -----

  // What parsing a text tells: that it is malformed, or whether it defines the
  // server.
  datatype Parsed = Unreadable | DefinesServer | NoServer

  type Parser = string -> Parsed

  datatype Site = Site(markers: Markers, body: string, parse: Parser, healthy: bool)
  {
    function Expected(): string { markers.begin + "\n" + body + markers.end + "\n" }
    function Parse(text: string): Parsed { parse(text) }
  }

  datatype Failure = MissingConfig | Malformed | InvalidMarkers | Unmanaged | Drifted | Unhealthy

  datatype Result = NoChange | Applied | Removed | Failed(failure: Failure)

  function BlockText(lines: seq<string>, first: nat, last: nat): string
    requires first <= last < |lines|
  {
    Concat(lines[first..last + 1])
  }

  function OutsideText(lines: seq<string>, first: nat, last: nat): string
    requires first <= last < |lines|
  {
    Concat(lines[..first]) + Concat(lines[last + 1..])
  }

  function FindIn(m: Markers, text: string): Found {
    FindSpec(m, Lines(text))
  }

  // The failure of the check for a server defined outside the block, if any.
  function UnmanagedFailure(site: Site, text: string): Option<Failure> {
    match FindIn(site.markers, text)
    case NoBlock => if site.Parse(text) == DefinesServer then Some(Unmanaged) else None
    case Block(first, last) =>
      var outside := site.Parse(OutsideText(Lines(text), first, last));
      if outside == Unreadable then Some(Malformed) else if outside == DefinesServer then Some(Unmanaged) else None
    case _ => Some(InvalidMarkers)
  }

  predicate Current(site: Site, text: string, first: nat, last: nat)
    requires first <= last < |Lines(text)|
  {
    Strip(BlockText(Lines(text), first, last)) == Strip(site.Expected())
  }

  function Inserted(site: Site, text: string): string {
    TrimNewlines(text) + "\n\n" + site.Expected()
  }

  function Replaced(site: Site, text: string, first: nat, last: nat): string
    requires first <= last < |Lines(text)|
  {
    Concat(Lines(text)[..first] + [site.Expected()] + Lines(text)[last + 1..])
  }

  // How an apply ends before writing anything, if it does.
  function StopsEarly(site: Site, text: string, repair: bool): Option<Result> {
    var found := FindIn(site.markers, text);
    var unmanaged := UnmanagedFailure(site, text);
    if site.Parse(text) == Unreadable then Some(Failed(Malformed))
    else if unmanaged.Some? then Some(Failed(unmanaged.value))
    else if found.Block? && Current(site, text, found.first, found.last) then Some(NoChange)
    else if found.Block? && !repair then Some(Failed(Drifted))
    else if !site.healthy then Some(Failed(Unhealthy))
    else None
  }

  function NewText(site: Site, text: string): string {
    var found := FindIn(site.markers, text);
    if found.Block? then Replaced(site, text, found.first, found.last) else Inserted(site, text)
  }

  function ApplySpec(site: Site, config: Option<string>, repair: bool): (Result, Option<string>) {
    if config.None? then (Failed(MissingConfig), config)
    else
      var stopped := StopsEarly(site, config.value, repair);
      if stopped.Some? then (stopped.value, config)
      else if site.Parse(NewText(site, config.value)) == Unreadable then (Failed(Malformed), config)
      else (Applied, Some(NewText(site, config.value)))
  }

  function RemoveSpec(site: Site, config: Option<string>, force: bool): (Result, Option<string>) {
    if config.None? then (Failed(MissingConfig), config)
    else
      var text := config.value;
      if site.Parse(text) == Unreadable then (Failed(Malformed), config)
      else
        match FindIn(site.markers, text)
        case NoBlock => (NoChange, config)
        case Block(first, last) =>
          if !Current(site, text, first, last) && !force then (Failed(Drifted), config)
          else
            var written := TrimNewlines(Concat(Lines(text)[..first] + Lines(text)[last + 1..])) + "\n";
            if site.Parse(written) == Unreadable then (Failed(Malformed), config) else (Removed, Some(written))
        case _ => (Failed(InvalidMarkers), config)
  }

  class Installer {
    const site: Site
    var config: Option<string>

    constructor (site: Site, config: Option<string>)
      ensures this.site == site && this.config == config
    {
      this.site, this.config := site, config;
    }

    method CheckUnmanaged(text: string, found: Found) returns (failure: Option<Failure>)
      requires found == FindIn(site.markers, text)
      ensures failure == UnmanagedFailure(site, text)
    {
      var outside := text;
      match found {
        case NoBlock =>
        case Block(first, last) =>
          outside := OutsideText(Lines(text), first, last);
        case _ => return Some(InvalidMarkers);
      }
      var parsed := site.Parse(outside);
      if parsed == DefinesServer {
        return Some(Unmanaged);
      }
      failure := if parsed == Unreadable && found.Block? then Some(Malformed) else None;
    }

    method Apply(repair: bool) returns (result: Result)
      modifies this`config
      ensures (result, config) == ApplySpec(site, old(config), repair)
      ensures result != Applied ==> config == old(config)
    {
      if config.None? {
        return Failed(MissingConfig);
      }
      var text := config.value;
      var stopped, found := Check(text, repair);
      if stopped.Some? {
        return stopped.value;
      }
      result := Write(text, found);
    }

    method Check(text: string, repair: bool) returns (stopped: Option<Result>, found: Found)
      ensures stopped == StopsEarly(site, text, repair)
      ensures stopped.None? ==> found == FindIn(site.markers, text)
    {
      if site.Parse(text) == Unreadable {
        return Some(Failed(Malformed)), NoBlock;
      }
      found := FindManagedBlock(site.markers, text);
      var unmanaged := CheckUnmanaged(text, found);
      if unmanaged.Some? {
        return Some(Failed(unmanaged.value)), found;
      }
      if found.Block? {
        if Strip(BlockText(Lines(text), found.first, found.last)) == Strip(site.Expected()) {
          return Some(NoChange), found;
        }
        if !repair {
          return Some(Failed(Drifted)), found;
        }
      }
      stopped := if site.healthy then None else Some(Failed(Unhealthy));
    }

    // Writes the new text if it parses, and the old one once more if not.
    method Write(snapshot: string, found: Found) returns (result: Result)
      requires config == Some(snapshot) && found == FindIn(site.markers, snapshot)
      modifies this`config
      ensures site.Parse(NewText(site, snapshot)) == Unreadable ==> result == Failed(Malformed) && config == Some(snapshot)
      ensures site.Parse(NewText(site, snapshot)) != Unreadable ==> result == Applied && config == Some(NewText(site, snapshot))
    {
      var written := Assemble(snapshot, found);
      if site.Parse(written) == Unreadable {
        config := Some(snapshot);
        return Failed(Malformed);
      }
      config := Some(written);
      result := Applied;
    }

    method Assemble(text: string, found: Found) returns (written: string)
      requires found == FindIn(site.markers, text)
      ensures written == NewText(site, text)
    {
      if found.Block? {
        var lines := Lines(text);
        var edited := lines[..found.first] + [site.Expected()] + lines[found.last + 1..];
        written := Concat(edited);
      } else {
        written := TrimNewlines(text) + "\n\n" + site.Expected();
      }
    }

    method Remove(force: bool) returns (result: Result)
      modifies this`config
      ensures (result, config) == RemoveSpec(site, old(config), force)
      ensures result != Removed ==> config == old(config)
    {
      if config.None? {
        return Failed(MissingConfig);
      }
      var text := config.value;
      if site.Parse(text) == Unreadable {
        return Failed(Malformed);
      }
      var found := FindManagedBlock(site.markers, text);
      if found.NoBlock? {
        return NoChange;
      }
      if !found.Block? {
        return Failed(InvalidMarkers);
      }
      if Strip(BlockText(Lines(text), found.first, found.last)) != Strip(site.Expected()) && !force {
        return Failed(Drifted);
      }
      var written := TrimNewlines(Concat(Lines(text)[..found.first] + Lines(text)[found.last + 1..])) + "\n";
      if site.Parse(written) == Unreadable {
        return Failed(Malformed);
      }
      config := Some(written);
      result := Removed;
    }
  }

  // ----- What a write leaves -----

  // A body of whole lines, none of them a marker.
  ghost predicate Proper(site: Site) {
    PlainMarkers(site.markers) && EndsLine(site.body) && Unmarked(site.markers, Lines(site.body))
  }

  function BlockLines(site: Site): seq<string> {
    [site.markers.begin + "\n"] + Lines(site.body) + [site.markers.end + "\n"]
  }

  lemma ExpectedLines(site: Site)
    requires Proper(site)
    ensures Lines(site.Expected()) == BlockLines(site) && EndsLine(site.Expected())
  {
    var begin, end := site.markers.begin + "\n", site.markers.end + "\n";
    LineOf(site.markers.begin);
    LineOf(site.markers.end);
    LinesAppend(begin, site.body);
    ConcatEnds(begin, site.body);
    LinesAppend(begin + site.body, end);
    assert site.Expected() == begin + site.body + end;
  }

  lemma AroundBlock(m: Markers, front: seq<string>, body: seq<string>, back: seq<string>)
    requires PlainMarkers(m) && Unmarked(m, front) && Unmarked(m, body) && Unmarked(m, back)
    ensures FindSpec(m, front + ([m.begin + "\n"] + body + [m.end + "\n"]) + back) == Block(|front|, |front| + |body| + 1)
  {
    var lines := front + ([m.begin + "\n"] + body + [m.end + "\n"]) + back;
    StripMarker(m.begin);
    StripMarker(m.end);
    var f, b := |front|, |body|;
    forall i | 0 <= i < |lines|
      ensures Strip(lines[i]) == m.begin <==> i == f
      ensures Strip(lines[i]) == m.end <==> i == f + b + 1
    {
      if i < f {
        assert lines[i] == front[i];
      } else if f < i <= f + b {
        assert lines[i] == body[i - f - 1];
      } else if i > f + b + 1 {
        assert lines[i] == back[i - f - b - 2];
      }
    }
    FoundExactly(m, lines, f, f + b + 1);
  }

  // The block stands on lines `first` to `last`, found exactly there, between
  // the two given texts.
  ghost predicate InPlace(site: Site, text: string, front: string, back: string, first: nat, last: nat) {
    && first <= last < |Lines(text)| && FindIn(site.markers, text) == Block(first, last)
    && BlockText(Lines(text), first, last) == site.Expected()
    && Concat(Lines(text)[..first]) == front && Concat(Lines(text)[last + 1..]) == back
  }

  lemma LinesAround(site: Site, front: string, back: string)
    requires Proper(site) && EndsLine(front)
    ensures Lines(front + site.Expected() + back) == Lines(front) + BlockLines(site) + Lines(back)
  {
    ExpectedLines(site);
    var expected := site.Expected();
    LinesAppend(front, expected);
    ConcatEnds(front, expected);
    LinesAppend(front + expected, back);
  }

  lemma Parts<T>(a: seq<T>, b: seq<T>, c: seq<T>)
    ensures (a + b + c)[..|a|] == a
    ensures (a + b + c)[|a|..|a| + |b|] == b
    ensures (a + b + c)[|a| + |b|..] == c
  {
  }

  // A block among unmarked lines is in place.
  lemma BlockInPlace(site: Site, text: string, front: seq<string>, back: seq<string>)
    requires Proper(site) && Lines(text) == front + BlockLines(site) + back
    requires Unmarked(site.markers, front) && Unmarked(site.markers, back)
    ensures InPlace(site, text, Concat(front), Concat(back), |front|, |front| + |BlockLines(site)| - 1)
  {
    FoundAround(site, front, back);
    PartsAround(site, front, back);
    BlockConcat(site);
  }

  lemma FoundAround(site: Site, front: seq<string>, back: seq<string>)
    requires Proper(site) && Unmarked(site.markers, front) && Unmarked(site.markers, back)
    ensures FindSpec(site.markers, front + BlockLines(site) + back) == Block(|front|, |front| + |BlockLines(site)| - 1)
  {
    AroundBlock(site.markers, front, Lines(site.body), back);
  }

  lemma PartsAround(site: Site, front: seq<string>, back: seq<string>)
    ensures var lines, first, last := front + BlockLines(site) + back, |front|, |front| + |BlockLines(site)| - 1;
      lines[..first] == front && lines[first..last + 1] == BlockLines(site) && lines[last + 1..] == back
  {
    Parts(front, BlockLines(site), back);
  }

  lemma BlockConcat(site: Site)
    requires Proper(site)
    ensures Concat(BlockLines(site)) == site.Expected() && |BlockLines(site)| == |Lines(site.body)| + 2
  {
    ExpectedLines(site);
    LinesConcat(site.Expected());
  }

  // The text before an inserted block has no markers if the original had none.
  lemma FrontUnmarked(m: Markers, text: string)
    requires m.begin != "" && m.end != "" && Unmarked(m, Lines(text))
    ensures Unmarked(m, Lines(TrimNewlines(text) + "\n\n"))
  {
    var trimmed := TrimNewlines(text);
    TrimUnmarked(m, text);
    LinesNewline(m, trimmed);
    LinesNewline(m, trimmed + "\n");
    assert trimmed + "\n\n" == (trimmed + "\n") + "\n";
  }

  // Parsing does not depend on newlines at the end of a text without carriage
  // returns. Reading a file yields only such texts: it turns each carriage
  // return, with the newline behind it if there is one, into a newline.
  ghost predicate IgnoresFinalNewlines(site: Site) {
    forall text :: '\r' !in text ==> site.Parse(text + "\n") == site.Parse(text)
  }

  lemma {:induction false} TrimmedHas(text: string, c: char)
    ensures c in TrimNewlines(text) ==> c in text
  {
    if text != "" && text[|text| - 1] == '\n' {
      TrimmedHas(text[..|text| - 1], c);
    }
  }

  lemma {:induction false} ParseTrimmed(site: Site, text: string)
    requires IgnoresFinalNewlines(site) && '\r' !in text
    ensures site.Parse(TrimNewlines(text)) == site.Parse(text)
  {
    if text != "" && text[|text| - 1] == '\n' {
      ParseTrimmed(site, text[..|text| - 1]);
      assert text == text[..|text| - 1] + "\n";
    }
  }

  // Inserting into a text without markers puts the block at its end, and the
  // block found is exactly the inserted one.
  lemma InsertedInPlace(site: Site, text: string) returns (first: nat, last: nat)
    requires Proper(site) && Unmarked(site.markers, Lines(text))
    ensures InPlace(site, Inserted(site, text), TrimNewlines(text) + "\n\n", "", first, last)
    ensures last + 1 == |Lines(Inserted(site, text))|
  {
    var front, written := TrimNewlines(text) + "\n\n", Inserted(site, text);
    var lines := Lines(front);
    assert Unmarked(site.markers, lines) by { FrontUnmarked(site.markers, text); }
    assert Lines(written) == lines + BlockLines(site) + [] by {
      LinesAround(site, front, "");
      assert front + site.Expected() + "" == written;
    }
    assert Concat(lines) == front by { LinesConcat(front); }
    BlockInPlace(site, written, lines, []);
    first, last := |lines|, |lines| + |BlockLines(site)| - 1;
  }

  // Repairing a drifted block replaces exactly its lines.
  lemma RepairKeepsTheRest(site: Site, text: string, first: nat, last: nat)
    requires Proper(site) && FindIn(site.markers, text) == Block(first, last)
    ensures var written := Replaced(site, text, first, last);
      && Lines(written) == Lines(text)[..first] + BlockLines(site) + Lines(text)[last + 1..]
      && InPlace(site, written, Concat(Lines(text)[..first]), Concat(Lines(text)[last + 1..]),
                 first, first + |BlockLines(site)| - 1)
  {
    var lines := Lines(text);
    FoundExactly(site.markers, lines, first, last);
    UnmarkedAround(site.markers, lines, first, last);
    ReplacedLines(site, text, first, last);
    BlockInPlace(site, Replaced(site, text, first, last), lines[..first], lines[last + 1..]);
  }

  lemma ReplacedLines(site: Site, text: string, first: nat, last: nat)
    requires Proper(site) && first < last < |Lines(text)|
    ensures Lines(Replaced(site, text, first, last)) == Lines(text)[..first] + BlockLines(site) + Lines(text)[last + 1..]
  {
    var before, after := Stretches(text, first, last);
    LinesAroundConcat(site, before, after);
  }

  // The lines before and after a stretch are themselves the lines of a text.
  lemma Stretches(text: string, first: nat, last: nat) returns (before: seq<string>, after: seq<string>)
    requires first < last < |Lines(text)|
    ensures before == Lines(text)[..first] && after == Lines(text)[last + 1..]
    ensures Lines(Concat(before)) == before && EndsLine(Concat(before)) && Lines(Concat(after)) == after
  {
    before := FrontStretch(text, first);
    after := BackStretch(text, last + 1);
  }

  lemma FrontStretch(text: string, k: nat) returns (before: seq<string>)
    requires k < |Lines(text)|
    ensures before == Lines(text)[..k] && Lines(Concat(before)) == before && EndsLine(Concat(before))
  {
    LinesPrefix(text, k);
    before := Lines(text)[..k];
  }

  lemma BackStretch(text: string, k: nat) returns (after: seq<string>)
    requires k <= |Lines(text)|
    ensures after == Lines(text)[k..] && Lines(Concat(after)) == after
  {
    LinesPrefix(text, k);
    after := Lines(text)[k..];
  }

  lemma LinesAroundConcat(site: Site, before: seq<string>, after: seq<string>)
    requires Proper(site) && EndsLine(Concat(before))
    requires Lines(Concat(before)) == before && Lines(Concat(after)) == after
    ensures Lines(Concat(before + [site.Expected()] + after)) == before + BlockLines(site) + after
  {
    ReplacedText(before, site.Expected(), after);
    LinesAround(site, Concat(before), Concat(after));
  }

  lemma ReplacedText(a: seq<string>, b: string, c: seq<string>)
    ensures Concat(a + [b] + c) == Concat(a) + b + Concat(c)
  {
    ConcatAppend(a + [b], c);
    ConcatAppend(a, [b]);
    assert Concat([b]) == b by { assert [b][1..] == []; }
  }

  lemma UnmarkedAround(m: Markers, lines: seq<string>, first: nat, last: nat)
    requires first < last < |lines| && OnlyAt(lines, m.begin, first) && OnlyAt(lines, m.end, last)
    ensures Unmarked(m, lines[..first]) && Unmarked(m, lines[last + 1..])
  {
  }

  // With its block in place and no server outside it, apply has nothing to do.
  lemma InPlaceMeansNoChange(site: Site, text: string, front: string, back: string, first: nat, last: nat, repair: bool)
    requires InPlace(site, text, front, back, first, last)
    requires site.Parse(text) != Unreadable && site.Parse(front + back) == NoServer
    ensures ApplySpec(site, Some(text), repair) == (NoChange, Some(text))
  {
  }

  // What a successful apply has checked and written: without a block, ...
  lemma InsertMeans(site: Site, text: string, repair: bool)
    requires ApplySpec(site, Some(text), repair).0 == Applied && FindIn(site.markers, text) == NoBlock
    ensures ApplySpec(site, Some(text), repair).1 == Some(Inserted(site, text))
    ensures site.Parse(Inserted(site, text)) != Unreadable && site.Parse(text) == NoServer
  {
    assert UnmanagedFailure(site, text).None?;
  }

  // ... and with one.
  lemma ReplaceMeans(site: Site, text: string, repair: bool, first: nat, last: nat)
    requires ApplySpec(site, Some(text), repair).0 == Applied && FindIn(site.markers, text) == Block(first, last)
    ensures ApplySpec(site, Some(text), repair).1 == Some(Replaced(site, text, first, last))
    ensures site.Parse(Replaced(site, text, first, last)) != Unreadable && site.Parse(OutsideText(Lines(text), first, last)) == NoServer
  {
    assert UnmanagedFailure(site, text).None?;
  }

  lemma NoBlockFound(m: Markers, text: string)
    requires Unmarked(m, Lines(text))
    ensures FindIn(m, text) == NoBlock
  {
    FoundExactly(m, Lines(text), 0, 0);
  }

  // ----- Every outcome -----

  // The text has exactly one block, from line `first` to line `last`.
  ghost predicate OneBlock(m: Markers, text: string, first: nat, last: nat) {
    first < last < |Lines(text)| && OnlyAt(Lines(text), m.begin, first) && OnlyAt(Lines(text), m.end, last)
  }

  // A text that is not read, and one whose markers are neither absent nor one
  // block, are never touched.
  lemma LeftAlone(site: Site, config: Option<string>, flag: bool)
    ensures config.None? ==>
      ApplySpec(site, config, flag) == (Failed(MissingConfig), None) && RemoveSpec(site, config, flag) == (Failed(MissingConfig), None)
    ensures config.Some? && site.Parse(config.value) == Unreadable ==>
      ApplySpec(site, config, flag) == (Failed(Malformed), config) && RemoveSpec(site, config, flag) == (Failed(Malformed), config)
    ensures config.Some? && site.Parse(config.value) != Unreadable && !Unmarked(site.markers, Lines(config.value))
            && (forall first: nat, last: nat :: !OneBlock(site.markers, config.value, first, last)) ==>
      ApplySpec(site, config, flag) == (Failed(InvalidMarkers), config)
      && RemoveSpec(site, config, flag) == (Failed(InvalidMarkers), config)
  {
    if config.Some? {
      NeitherFound(site.markers, config.value);
    }
  }

  lemma NeitherFound(m: Markers, text: string)
    ensures FindIn(m, text).NoBlock? <==> Unmarked(m, Lines(text))
    ensures FindIn(m, text).Block? <==> exists first: nat, last: nat :: OneBlock(m, text, first, last)
  {
    var found := FindIn(m, text);
    FoundExactly(m, Lines(text), 0, 0);
    if found.Block? {
      FoundExactly(m, Lines(text), found.first, found.last);
      assert OneBlock(m, text, found.first, found.last);
    }
    if first: nat, last: nat :| OneBlock(m, text, first, last) {
      FoundExactly(m, Lines(text), first, last);
    }
  }

  // Applying to a text without markers: it must not define the server, the
  // server must be healthy and the new text readable.
  lemma ApplyToBare(site: Site, text: string, repair: bool)
    requires Unmarked(site.markers, Lines(text)) && site.Parse(text) != Unreadable
    ensures var written := TrimNewlines(text) + "\n\n" + site.Expected();
      ApplySpec(site, Some(text), repair) ==
        if site.Parse(text) == DefinesServer then (Failed(Unmanaged), Some(text))
        else if !site.healthy then (Failed(Unhealthy), Some(text))
        else if site.Parse(written) == Unreadable then (Failed(Malformed), Some(text))
        else (Applied, Some(written))
  {
    NoBlockFound(site.markers, text);
  }

  // Applying to a text with one block: the rest must be readable and not define
  // the server; a current block stays; a drifted one is replaced only if a
  // repair is asked for, the server healthy and the new text readable.
  lemma ApplyToBlock(site: Site, text: string, first: nat, last: nat, repair: bool)
    requires OneBlock(site.markers, text, first, last) && site.Parse(text) != Unreadable
    ensures var lines := Lines(text);
      var outside := site.Parse(Concat(lines[..first]) + Concat(lines[last + 1..]));
      var written := Concat(lines[..first] + [site.Expected()] + lines[last + 1..]);
      ApplySpec(site, Some(text), repair) ==
        if outside == Unreadable then (Failed(Malformed), Some(text))
        else if outside == DefinesServer then (Failed(Unmanaged), Some(text))
        else if Strip(Concat(lines[first..last + 1])) == Strip(site.Expected()) then (NoChange, Some(text))
        else if !repair then (Failed(Drifted), Some(text))
        else if !site.healthy then (Failed(Unhealthy), Some(text))
        else if site.Parse(written) == Unreadable then (Failed(Malformed), Some(text))
        else (Applied, Some(written))
  {
    FoundExactly(site.markers, Lines(text), first, last);
  }

  lemma RemoveFromBlock(site: Site, text: string, first: nat, last: nat, force: bool)
    requires OneBlock(site.markers, text, first, last) && site.Parse(text) != Unreadable
    ensures var lines := Lines(text);
      var written := TrimNewlines(Concat(lines[..first] + lines[last + 1..])) + "\n";
      RemoveSpec(site, Some(text), force) ==
        if Strip(Concat(lines[first..last + 1])) != Strip(site.Expected()) && !force then (Failed(Drifted), Some(text))
        else if site.Parse(written) == Unreadable then (Failed(Malformed), Some(text))
        else (Removed, Some(written))
  {
    FoundExactly(site.markers, Lines(text), first, last);
  }

  // Removing: nothing to do without a block; a drifted block only by force.
  lemma RemovesExactly(site: Site, text: string, first: nat, last: nat, force: bool)
    requires site.Parse(text) != Unreadable
    ensures Unmarked(site.markers, Lines(text)) ==> RemoveSpec(site, Some(text), force) == (NoChange, Some(text))
    ensures OneBlock(site.markers, text, first, last) ==>
      var lines := Lines(text);
      var written := TrimNewlines(Concat(lines[..first] + lines[last + 1..])) + "\n";
      RemoveSpec(site, Some(text), force) ==
        if Strip(Concat(lines[first..last + 1])) != Strip(site.Expected()) && !force then (Failed(Drifted), Some(text))
        else if site.Parse(written) == Unreadable then (Failed(Malformed), Some(text))
        else (Removed, Some(written))
  {
    if Unmarked(site.markers, Lines(text)) {
      NoBlockFound(site.markers, text);
    }
    if OneBlock(site.markers, text, first, last) {
      RemoveFromBlock(site, text, first, last, force);
    }
  }

  // Why markers are invalid: one of them is on two lines; there is one without
  // the other; or the end stands before the beginning.
  lemma InvalidExactly(m: Markers, lines: seq<string>)
    ensures var found := FindSpec(m, lines);
      && (found == Duplicate <==>
            exists i, j :: 0 <= i < j < |lines| && Strip(lines[i]) == Strip(lines[j])
              && (Strip(lines[i]) == m.begin || Strip(lines[i]) == m.end))
      && (found == Mismatched ==>
            (OnlyAt(lines, m.begin, -1) && !OnlyAt(lines, m.end, -1)) || (!OnlyAt(lines, m.begin, -1) && OnlyAt(lines, m.end, -1)))
      && (found == OutOfOrder ==> exists i, j :: 0 <= j <= i < |lines| && OnlyAt(lines, m.begin, i) && OnlyAt(lines, m.end, j))
  {
    var begins, ends := Positions(lines, m.begin), Positions(lines, m.end);
    TwiceExactly(lines, m.begin);
    TwiceExactly(lines, m.end);
    PositionsAre(lines, m.begin);
    PositionsAre(lines, m.end);
    if |begins| == 1 {
      OnlyPosition(lines, m.begin, begins[0]);
      assert begins == [begins[0]];
    }
    if |ends| == 1 {
      OnlyPosition(lines, m.end, ends[0]);
      assert ends == [ends[0]];
    }
  }

  lemma TwiceExactly(lines: seq<string>, marker: string)
    ensures |Positions(lines, marker)| > 1 <==> exists i, j :: 0 <= i < j < |lines| && Strip(lines[i]) == marker && Strip(lines[j]) == marker
    ensures |Positions(lines, marker)| == 0 <==> OnlyAt(lines, marker, -1)
  {
    var positions := Positions(lines, marker);
    PositionsAre(lines, marker);
    PositionsAscend(lines, marker);
    if |positions| > 1 {
      assert positions[0] in positions && positions[1] in positions;
    }
    if i, j :| 0 <= i < j < |lines| && Strip(lines[i]) == marker && Strip(lines[j]) == marker {
      assert i in positions && j in positions;
    }
    if |positions| == 1 {
      assert positions[0] in positions;
    }
  }

  // A second apply reports that nothing is to be done.
  lemma SecondApplyChangesNothing(site: Site, text: string, repair: bool, again: bool)
    requires Proper(site) && Unmarked(site.markers, Lines(text)) && IgnoresFinalNewlines(site) && '\r' !in text
    requires ApplySpec(site, Some(text), repair).0 == Applied
    ensures var written := ApplySpec(site, Some(text), repair).1;
      written == Some(Inserted(site, text)) && ApplySpec(site, written, again) == (NoChange, written)
  {
    NoBlockFound(site.markers, text);
    InsertMeans(site, text, repair);
    var written := Inserted(site, text);
    var first, last := InsertedInPlace(site, text);
    var front := TrimNewlines(text) + "\n\n";
    FrontParses(site, text);
    assert front + "" == front;
    InPlaceMeansNoChange(site, written, front, "", first, last, again);
  }

  lemma FrontParses(site: Site, text: string)
    requires IgnoresFinalNewlines(site) && '\r' !in text
    ensures site.Parse(TrimNewlines(text) + "\n") == site.Parse(text)
    ensures site.Parse(TrimNewlines(text) + "\n\n") == site.Parse(text)
  {
    ParseTrimmed(site, text);
    TrimmedHas(text, '\r');
    assert TrimNewlines(text) + "\n\n" == (TrimNewlines(text) + "\n") + "\n";
  }

  lemma TrimFront(text: string)
    ensures TrimNewlines(TrimNewlines(text) + "\n\n") == TrimNewlines(text)
  {
    var trimmed := TrimNewlines(text);
    assert trimmed + "\n\n" == (trimmed + "\n") + "\n";
    TrimTrims(trimmed + "\n");
    TrimTrims(trimmed);
    TrimTrims(text);
  }

  lemma RemoveInPlace(site: Site, text: string, front: string, first: nat, last: nat, force: bool)
    requires InPlace(site, text, front, "", first, last) && last + 1 == |Lines(text)|
    requires site.Parse(text) != Unreadable && site.Parse(TrimNewlines(front) + "\n") != Unreadable
    ensures RemoveSpec(site, Some(text), force) == (Removed, Some(TrimNewlines(front) + "\n"))
  {
    assert Lines(text)[..first] + Lines(text)[last + 1..] == Lines(text)[..first];
  }

  // Removing what was inserted leaves the text with exactly one final newline.
  lemma RemoveUndoesInsert(site: Site, text: string, repair: bool, force: bool)
    requires Proper(site) && Unmarked(site.markers, Lines(text)) && IgnoresFinalNewlines(site) && '\r' !in text
    requires ApplySpec(site, Some(text), repair).0 == Applied
    ensures RemoveSpec(site, ApplySpec(site, Some(text), repair).1, force) == (Removed, Some(TrimNewlines(text) + "\n"))
  {
    NoBlockFound(site.markers, text);
    InsertMeans(site, text, repair);
    var written := Inserted(site, text);
    var first, last := InsertedInPlace(site, text);
    FrontParses(site, text);
    TrimFront(text);
    RemoveInPlace(site, written, TrimNewlines(text) + "\n\n", first, last, force);
  }

  // After a repair, too, a second apply reports that nothing is to be done.
  lemma ApplyAfterRepair(site: Site, text: string, first: nat, last: nat, again: bool)
    requires Proper(site) && FindIn(site.markers, text) == Block(first, last)
    requires ApplySpec(site, Some(text), true).0 == Applied
    ensures var written := ApplySpec(site, Some(text), true).1;
      written == Some(Replaced(site, text, first, last)) && ApplySpec(site, written, again) == (NoChange, written)
  {
    ReplaceMeans(site, text, true, first, last);
    var written := Replaced(site, text, first, last);
    RepairKeepsTheRest(site, text, first, last);
    InPlaceMeansNoChange(site, written, Concat(Lines(text)[..first]), Concat(Lines(text)[last + 1..]),
                         first, first + |BlockLines(site)| - 1, again);
  }

  // ----- The generated block -----

  // `path.replace("\\", "\\\\")`
  function DoubleBackslashes(path: string): string {
    if path == "" then "" else (if path[0] == '\\' then "\\\\" else [path[0]]) + DoubleBackslashes(path[1..])
  }

  // A list of TOML strings, without its brackets.
  function QuoteAll(items: seq<string>): string {
    if items == [] then ""
    else "\"" + items[0] + "\"" + (if |items| == 1 then "" else ", " + QuoteAll(items[1..]))
  }

  const MCP_MODULE := "audisor.aflow_mcp_server"

  function ServerArguments(runtime: string): seq<string> {
    ["run", "--no-sync", "--offline", "--directory", runtime, "python", "-m", MCP_MODULE]
  }

  // The lines between the markers, for the given absolute paths.
  function TableLines(runtime: string, repo: string, state: string): seq<string> {
    [ "[mcp_servers.aflow]",
      "command = \"uv\"",
      "args = [" + QuoteAll(ServerArguments(DoubleBackslashes(runtime))) + "]",
      "cwd = \"" + DoubleBackslashes(repo) + "\"",
      "required = true",
      "",
      "[mcp_servers.aflow.env]",
      "AUDISOR_STATE_ROOT = \"" + DoubleBackslashes(state) + "\"" ]
  }

  function WithNewlines(lines: seq<string>): string {
    if lines == [] then "" else lines[0] + "\n" + WithNewlines(lines[1..])
  }

  // A line that is empty or starts with neither space nor a comment sign.
  ghost predicate TableLine(line: string) {
    OneLine(line) && (line != "" ==> !IsSpace(line[0]) && line[0] != '#')
  }

  lemma {:induction false} StripStart(s: string)
    requires s != "" && !IsSpace(s[0])
    ensures StripRight(s) != "" && StripRight(s)[0] == s[0]
  {
    if |s| > 1 && IsSpace(s[|s| - 1]) {
      StripStart(s[..|s| - 1]);
    }
  }

  // Such lines, each ended by a newline, are a proper body.
  lemma {:induction false} TableLinesProper(m: Markers, lines: seq<string>)
    requires forall i :: 0 <= i < |lines| ==> TableLine(lines[i])
    requires m.begin != "" && m.begin[0] == '#' && m.end != "" && m.end[0] == '#'
    ensures EndsLine(WithNewlines(lines)) && Unmarked(m, Lines(WithNewlines(lines)))
  {
    if lines != [] {
      var line, rest := lines[0], WithNewlines(lines[1..]);
      TableLinesProper(m, lines[1..]);
      LineOf(line);
      LinesAppend(line + "\n", rest);
      ConcatEnds(line + "\n", rest);
      StripNewline(line);
      if line != "" {
        StripStart(line);
      }
      UnmarkedAppend(m, [line + "\n"], Lines(rest));
    }
  }

  lemma {:induction false} DoublingKeepsLine(path: string)
    requires OneLine(path)
    ensures OneLine(DoubleBackslashes(path))
  {
    if path != "" {
      assert forall i :: 0 <= i < |path[1..]| ==> path[1..][i] == path[i + 1];
      DoublingKeepsLine(path[1..]);
    }
  }

  lemma TableHeadersPlain()
    ensures TableLine("[mcp_servers.aflow]") && TableLine("[mcp_servers.aflow.env]")
  {
    AsciiIsOneLine("[mcp_servers.aflow]");
    AsciiIsOneLine("[mcp_servers.aflow.env]");
  }

  lemma FixedLinesPlain()
    ensures TableLine("command = \"uv\"") && TableLine("required = true") && TableLine("")
  {
    AsciiIsOneLine("command = \"uv\"");
    AsciiIsOneLine("required = true");
  }

  // A line put together around text that is a single line.
  lemma LineAround(before: string, text: string, after: string)
    requires Ascii(before) && Ascii(after) && OneLine(text)
    requires before != "" && !IsSpace(before[0]) && before[0] != '#'
    ensures TableLine(before + text + after)
  {
    AsciiIsOneLine(before);
    AsciiIsOneLine(after);
    OneLineAppend(before, text);
    OneLineAppend(before + text, after);
  }

  lemma {:induction false} QuotedOneLine(items: seq<string>)
    requires forall i :: 0 <= i < |items| ==> OneLine(items[i])
    ensures OneLine(QuoteAll(items))
  {
    if items != [] {
      QuotedOneLine(items[1..]);
      AsciiIsOneLine("\"");
      AsciiIsOneLine(", ");
      OneLineAppend("\"", items[0]);
      OneLineAppend("\"" + items[0], "\"");
      OneLineAppend(", ", QuoteAll(items[1..]));
      if |items| > 1 {
        OneLineAppend("\"" + items[0] + "\"", ", " + QuoteAll(items[1..]));
      } else {
        OneLineAppend("\"" + items[0] + "\"", "");
      }
    }
  }

  lemma ArgumentsOneLine(runtime: string)
    requires OneLine(runtime)
    ensures forall i :: 0 <= i < |ServerArguments(runtime)| ==> OneLine(ServerArguments(runtime)[i])
  {
    AsciiIsOneLine("run");
    AsciiIsOneLine("--no-sync");
    AsciiIsOneLine("--offline");
    AsciiIsOneLine("--directory");
    AsciiIsOneLine("python");
    AsciiIsOneLine("-m");
    AsciiIsOneLine(MCP_MODULE);
  }

  lemma ListLine(before: string, items: seq<string>)
    requires Ascii(before) && before != "" && !IsSpace(before[0]) && before[0] != '#'
    requires forall i :: 0 <= i < |items| ==> OneLine(items[i])
    ensures TableLine(before + QuoteAll(items) + "]")
  {
    QuotedOneLine(items);
    LineAround(before, QuoteAll(items), "]");
  }

  lemma ArgsLine(runtime: string)
    requires OneLine(runtime)
    ensures TableLine("args = [" + QuoteAll(ServerArguments(DoubleBackslashes(runtime))) + "]")
  {
    DoublingKeepsLine(runtime);
    ArgumentsOneLine(DoubleBackslashes(runtime));
    ListLine("args = [", ServerArguments(DoubleBackslashes(runtime)));
  }

  lemma PathLines(repo: string, state: string)
    requires OneLine(repo) && OneLine(state)
    ensures TableLine("cwd = \"" + DoubleBackslashes(repo) + "\"")
    ensures TableLine("AUDISOR_STATE_ROOT = \"" + DoubleBackslashes(state) + "\"")
  {
    DoublingKeepsLine(repo);
    DoublingKeepsLine(state);
    LineAround("cwd = \"", DoubleBackslashes(repo), "\"");
    LineAround("AUDISOR_STATE_ROOT = \"", DoubleBackslashes(state), "\"");
  }

  lemma TableLinesAre(runtime: string, repo: string, state: string)
    requires OneLine(runtime) && OneLine(repo) && OneLine(state)
    ensures forall i :: 0 <= i < |TableLines(runtime, repo, state)| ==> TableLine(TableLines(runtime, repo, state)[i])
  {
    TableHeadersPlain();
    FixedLinesPlain();
    ArgsLine(runtime);
    PathLines(repo, state);
  }

  // With paths that are single lines, the installed block is proper: it is
  // found and recognized again by the rules above.
  lemma InstalledSiteProper(runtime: string, repo: string, state: string, parse: Parser, healthy: bool)
    requires OneLine(runtime) && OneLine(repo) && OneLine(state)
    ensures Proper(Site(InstalledMarkers(), WithNewlines(TableLines(runtime, repo, state)), parse, healthy))
  {
    InstalledMarkersPlain();
    TableLinesAre(runtime, repo, state);
    TableLinesProper(InstalledMarkers(), TableLines(runtime, repo, state));
  }

  // ----- Reading the generated block -----

  // Reads a TOML string behind its opening quote: its value, and what follows
  // the closing quote. A doubled backslash is one; no other escape occurs.
  function ReadString(text: string): Option<(string, string)> {
    if text == "" then None
    else if text[0] == '"' then Some(("", text[1..]))
    else if text[0] == '\\' then
      if |text| < 2 || text[1] != '\\' then None
      else
        var rest := ReadString(text[2..]);
        if rest.None? then None else Some(("\\" + rest.value.0, rest.value.1))
    else
      var rest := ReadString(text[1..]);
      if rest.None? then None else Some(([text[0]] + rest.value.0, rest.value.1))
  }

  // Reads strings in quotes, separated by a comma and a space, to the end.
  function ReadStrings(text: string): Option<seq<string>>
    decreases |text|
  {
    if text == "" then Some([])
    else if text[0] != '"' then None
    else
      match ReadString(text[1..])
      case None => None
      case Some((item, rest)) =>
        if rest == "" then Some([item])
        else if 2 < |rest| < |text| && rest[..2] == ", " then
          var items := ReadStrings(rest[2..]);
          if items.None? then None else Some([item] + items.value)
        else None
  }

  // A path written with doubled backslashes is read back, if it has no quote.
  lemma {:induction false} PathReadsBack(path: string, rest: string)
    requires '"' !in path
    ensures ReadString(DoubleBackslashes(path) + "\"" + rest) == Some((path, rest))
  {
    var text := DoubleBackslashes(path) + "\"" + rest;
    if path == "" {
      assert text == "\"" + rest;
    } else {
      assert path == [path[0]] + path[1..];
      PathReadsBack(path[1..], rest);
      var inner := DoubleBackslashes(path[1..]) + "\"" + rest;
      if path[0] == '\\' {
        assert text == "\\\\" + inner && text[2..] == inner;
      } else {
        assert text == [path[0]] + inner && text[1..] == inner;
      }
    }
  }

  function Doubled(items: seq<string>): seq<string> {
    seq(|items|, i requires 0 <= i < |items| => DoubleBackslashes(items[i]))
  }

  lemma FirstReadsBack(item: string, tail: string)
    requires '"' !in item
    ensures var text := "\"" + DoubleBackslashes(item) + "\"" + tail;
      && (tail == "" ==> ReadStrings(text) == Some([item]))
      && (|tail| > 2 && tail[..2] == ", " && ReadStrings(tail[2..]).Some? ==>
            ReadStrings(text) == Some([item] + ReadStrings(tail[2..]).value))
  {
    var text := "\"" + DoubleBackslashes(item) + "\"" + tail;
    assert text[1..] == DoubleBackslashes(item) + "\"" + tail;
    PathReadsBack(item, tail);
  }

  lemma {:induction false} ListReadsBack(items: seq<string>)
    requires forall i :: 0 <= i < |items| ==> '"' !in items[i]
    ensures ReadStrings(QuoteAll(Doubled(items))) == Some(items)
  {
    if items == [] {
      assert Doubled(items) == [];
    } else {
      var rest := items[1..];
      ListReadsBack(rest);
      var more := QuoteAll(Doubled(rest));
      var tail := if |items| == 1 then "" else ", " + more;
      assert Doubled(items)[1..] == Doubled(rest);
      assert QuoteAll(Doubled(items)) == "\"" + DoubleBackslashes(items[0]) + "\"" + tail;
      if |items| == 1 {
        assert items == [items[0]];
      } else {
        assert items == [items[0]] + rest && tail[..2] == ", " && tail[2..] == more && more != "";
      }
      FirstReadsBack(items[0], tail);
    }
  }

  lemma {:induction false} NothingDoubled(text: string)
    requires '\\' !in text
    ensures DoubleBackslashes(text) == text
  {
    if text != "" {
      NothingDoubled(text[1..]);
      assert text == [text[0]] + text[1..];
    }
  }

  // Text that is written and read as it is.
  ghost predicate Plain(text: string) {
    forall i :: 0 <= i < |text| ==> text[i] != '"' && text[i] != '\\'
  }

  lemma ArgumentsPlain(runtime: string)
    ensures forall i :: 0 <= i < |ServerArguments(runtime)| && i != 4 ==> Plain(ServerArguments(runtime)[i])
  {
    assert Plain("run") && Plain("--no-sync") && Plain("--offline") && Plain("--directory") && Plain("python") && Plain("-m");
    assert Plain("audisor.aflow_mcp_server");
  }

  lemma ArgumentsDoubled(runtime: string)
    requires '"' !in runtime
    ensures Doubled(ServerArguments(runtime)) == ServerArguments(DoubleBackslashes(runtime))
    ensures forall i :: 0 <= i < |ServerArguments(runtime)| ==> '"' !in ServerArguments(runtime)[i]
  {
    var items, written := ServerArguments(runtime), ServerArguments(DoubleBackslashes(runtime));
    ArgumentsPlain(runtime);
    forall i | 0 <= i < |items| ensures DoubleBackslashes(items[i]) == written[i] && '"' !in items[i] {
      assert items[i] == (if i == 4 then runtime else written[i]);
      if i != 4 {
        assert Plain(items[i]);
        NothingDoubled(items[i]);
      }
    }
  }

  lemma ArgumentsReadBack(runtime: string)
    requires '"' !in runtime
    ensures ReadStrings(QuoteAll(ServerArguments(DoubleBackslashes(runtime)))) == Some(ServerArguments(runtime))
  {
    ArgumentsDoubled(runtime);
    ListReadsBack(ServerArguments(runtime));
  }

  // The line sets the key to a value that is read as the path.
  ghost predicate Sets(line: string, before: string, path: string) {
    exists text :: line == before + text && ReadString(text) == Some((path, ""))
  }

  ghost predicate SetsList(line: string, before: string, items: seq<string>) {
    exists list :: line == before + list + "]" && ReadStrings(list) == Some(items)
  }

  // The generated table is read back: the arguments of the command, the working
  // directory, and the state root, for any paths without a quote.
  lemma TableReadsBack(runtime: string, repo: string, state: string)
    requires '"' !in runtime && '"' !in repo && '"' !in state
    ensures var lines := TableLines(runtime, repo, state);
      && SetsList(lines[2], "args = [", ServerArguments(runtime))
      && Sets(lines[3], "cwd = \"", repo) && Sets(lines[7], "AUDISOR_STATE_ROOT = \"", state)
  {
    ArgumentsReadBack(runtime);
    ValueLine("cwd = \"", repo);
    ValueLine("AUDISOR_STATE_ROOT = \"", state);
  }

  // The lines that do not depend on the paths.
  lemma TableFixed(runtime: string, repo: string, state: string)
    ensures var lines := TableLines(runtime, repo, state);
      && |lines| == 8 && lines[0] == "[mcp_servers.aflow]" && lines[1] == "command = \"uv\"" && lines[4] == "required = true"
      && lines[5] == "" && lines[6] == "[mcp_servers.aflow.env]"
  {
  }

  lemma ValueLine(before: string, path: string)
    requires '"' !in path
    ensures Sets(before + DoubleBackslashes(path) + "\"", before, path)
  {
    PathReadsBack(path, "");
    var text := DoubleBackslashes(path) + "\"";
    assert text == DoubleBackslashes(path) + "\"" + "";
    assert before + DoubleBackslashes(path) + "\"" == before + text;
  }
}
