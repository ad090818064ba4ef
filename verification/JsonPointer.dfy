/**
  JSON Pointers (RFC 6901): the printer used for schema issues and the two
  decoders used on finding locations. One of them takes a leading "/plan" off
  every pointer; the other leaves that to its caller.
*/
module JsonPointer {
  import opened Identifiers
  import opened Json
  import opened Text

  // ----- Escaping -----

  // `s.replace(c, with)` for a single character.
  function Substitute(s: string, c: char, with: string): string {
    if s == [] then [] else (if s[0] == c then with else [s[0]]) + Substitute(s[1..], c, with)
  }

  // `s.replace([x, y], [r])`: occurrences from left to right.
  function Replace(s: string, x: char, y: char, r: char): string {
    if |s| < 2 then s
    else if s[0] == x && s[1] == y then [r] + Replace(s[2..], x, y, r)
    else [s[0]] + Replace(s[1..], x, y, r)
  }

  function EscapeToken(token: string): string {
    Substitute(Substitute(token, '~', "~0"), '/', "~1")
  }

  function UnescapeToken(raw: string): string {
    Replace(Replace(raw, '~', '1', '/'), '~', '0', '~')
  }

  function Code(c: char): string {
    if c == '~' then "~0" else if c == '/' then "~1" else [c]
  }

  lemma SubstituteSplit(a: string, b: string, c: char, with: string)
    ensures Substitute(a + b, c, with) == Substitute(a, c, with) + Substitute(b, c, with)
  {
    if a == [] {
      assert a + b == b;
    } else {
      assert (a + b)[1..] == a[1..] + b;
      SubstituteSplit(a[1..], b, c, with);
    }
  }

  // Escaping works character by character.
  lemma EscapeHead(token: string)
    requires token != []
    ensures EscapeToken(token) == Code(token[0]) + EscapeToken(token[1..])
  {
    var head := if token[0] == '~' then "~0" else [token[0]];
    var rest := Substitute(token[1..], '~', "~0");
    SubstituteSplit(head, rest, '/', "~1");
    assert Substitute(head, '/', "~1") == Code(token[0]) by {
      if token[0] == '~' {
        assert "~0"[1..] == "0";
        assert Substitute("0", '/', "~1") == "0";
      }
    }
  }

  // The first pass leaves an escaped tilde alone and turns "~1" into a slash.
  lemma FirstPassCode(c: char, rest: string)
    ensures Replace(Code(c) + rest, '~', '1', '/') == (if c == '~' then "~0" else [c]) + Replace(rest, '~', '1', '/')
  {
    var s := Code(c) + rest;
    if c == '~' {
      assert s[1..] == "0" + rest && ("0" + rest)[1..] == rest;
      assert Replace("0" + rest, '~', '1', '/') == "0" + Replace(rest, '~', '1', '/');
      assert "~" + ("0" + Replace(rest, '~', '1', '/')) == "~0" + Replace(rest, '~', '1', '/');
    } else if c == '/' {
      assert s[2..] == rest;
    } else {
      assert s[1..] == rest;
    }
  }

  // The first pass of unescaping undoes the second pass of escaping.
  lemma {:induction false} FirstPass(token: string)
    ensures Replace(EscapeToken(token), '~', '1', '/') == Substitute(token, '~', "~0")
  {
    if token != [] {
      EscapeHead(token);
      FirstPass(token[1..]);
      FirstPassCode(token[0], EscapeToken(token[1..]));
    }
  }

  lemma {:induction false} SecondPass(token: string)
    ensures Replace(Substitute(token, '~', "~0"), '~', '0', '~') == token
  {
    if token != [] {
      SecondPass(token[1..]);
      var rest := Substitute(token[1..], '~', "~0");
      if token[0] == '~' {
        assert ("~0" + rest)[2..] == rest;
      } else {
        assert ([token[0]] + rest)[1..] == rest;
      }
    }
  }

  // Unescaping undoes escaping for every token.
  lemma UnescapeEscape(token: string)
    ensures UnescapeToken(EscapeToken(token)) == token
  {
    FirstPass(token);
    SecondPass(token);
  }

  lemma {:induction false} EscapedHasNoSlash(token: string)
    ensures '/' !in EscapeToken(token)
    ensures EscapeToken(token) == "" <==> token == ""
  {
    if token != [] {
      EscapeHead(token);
      EscapedHasNoSlash(token[1..]);
    }
  }

  // ----- Printing and decoding -----

  function EscapeAll(tokens: seq<string>): seq<string> {
    seq(|tokens|, i requires 0 <= i < |tokens| => EscapeToken(tokens[i]))
  }

  function UnescapeAll(raw: seq<string>): seq<string> {
    seq(|raw|, i requires 0 <= i < |raw| => UnescapeToken(raw[i]))
  }

  function Pointer(tokens: seq<string>): string {
    if tokens == [] then "" else "/" + Join(EscapeAll(tokens), '/')
  }

  function StripSlashes(pointer: string): string {
    if pointer != [] && pointer[0] == '/' then StripSlashes(pointer[1..]) else pointer
  }

  // The tokens of a pointer as the resolver reads it: all leading slashes are
  // dropped.
  function Decode(pointer: string): seq<string> {
    if pointer == "" then [] else UnescapeAll(Split(StripSlashes(pointer), '/'))
  }

  // `location.removeprefix("/plan")`, whatever follows the prefix.
  function WithoutPlan(location: string): string {
    if "/plan" <= location then location[5..] else location
  }

  // The tokens of a pointer as the closure check reads it.
  function PlanDecode(pointer: string): seq<string> {
    Decode(WithoutPlan(pointer))
  }

  // Decoding as section 4 of RFC 6901 has it: one leading slash.
  function DecodeExactly(pointer: string): seq<string> {
    if pointer == "" then [] else UnescapeAll(Split(pointer[1..], '/'))
  }

  lemma UnescapeEscapeAll(tokens: seq<string>)
    ensures UnescapeAll(EscapeAll(tokens)) == tokens
  {
    forall i | 0 <= i < |tokens| ensures UnescapeAll(EscapeAll(tokens))[i] == tokens[i] {
      UnescapeEscape(tokens[i]);
    }
  }

  lemma SplitPointer(tokens: seq<string>)
    requires tokens != []
    ensures Split(Join(EscapeAll(tokens), '/'), '/') == EscapeAll(tokens)
  {
    var escaped := EscapeAll(tokens);
    forall i | 0 <= i < |escaped| ensures '/' !in escaped[i] {
      EscapedHasNoSlash(tokens[i]);
    }
    SplitJoin(escaped, '/');
  }

  // The printer is faithful: section 4's reading of a printed pointer gives
  // back any path at all.
  lemma PrinterFaithful(tokens: seq<string>)
    ensures DecodeExactly(Pointer(tokens)) == tokens
  {
    if tokens != [] {
      assert Pointer(tokens)[1..] == Join(EscapeAll(tokens), '/');
      SplitPointer(tokens);
      UnescapeEscapeAll(tokens);
    }
  }

  lemma {:induction false} StripStarts(text: string)
    ensures StripSlashes(text) == "" || StripSlashes(text)[0] != '/'
    ensures |StripSlashes(text)| <= |text|
    ensures text == "" || text[0] != '/' ==> StripSlashes(text) == text
  {
    if text != [] && text[0] == '/' {
      StripStarts(text[1..]);
    }
  }

  // The resolver gives back a path exactly when it is empty, starts with a
  // non-empty token, or is the single empty token.
  lemma RoundTripExactly(tokens: seq<string>)
    ensures Decode(Pointer(tokens)) == tokens <==> tokens == [] || tokens[0] != "" || tokens == [""]
  {
    if tokens != [] {
      var joined := Join(EscapeAll(tokens), '/');
      var pointer := Pointer(tokens);
      assert pointer[1..] == joined;
      StripStarts(joined);
      SplitPointer(tokens);
      UnescapeEscapeAll(tokens);
      if tokens[0] != "" {
        JoinedStart(tokens);
      } else if tokens != [""] {
        DroppedToken(tokens);
      } else {
        assert joined == "";
      }
    }
  }

  lemma JoinedStart(tokens: seq<string>)
    requires tokens != [] && tokens[0] != ""
    ensures var joined := Join(EscapeAll(tokens), '/'); joined != "" && joined[0] != '/'
  {
    EscapedHasNoSlash(tokens[0]);
    assert EscapeAll(tokens)[0] == EscapeToken(tokens[0]);
  }

  // Several tokens of which the first is empty: the decoded path is shorter.
  lemma DroppedToken(tokens: seq<string>)
    requires |tokens| >= 2 && tokens[0] == ""
    ensures |Decode(Pointer(tokens))| < |tokens|
  {
    var rest := Pointer(tokens[1..]);
    PointerStart(tokens);
    assert EscapeToken("") + rest == rest;
    assert ("/" + rest)[1..] == rest;
    DecodeShortens(tokens[1..]);
  }

  lemma {:induction false} StripShortens(text: string)
    ensures |Split(StripSlashes(text), '/')| <= |Split(text, '/')|
  {
    if text != [] && text[0] == '/' {
      StripShortens(text[1..]);
    }
  }

  // No decoding of a printed pointer yields more tokens than were printed.
  lemma DecodeShortens(tokens: seq<string>)
    requires tokens != []
    ensures |Decode(Pointer(tokens))| <= |tokens|
  {
    var joined := Join(EscapeAll(tokens), '/');
    assert Pointer(tokens)[1..] == joined;
    SplitPointer(tokens);
    StripShortens(joined);
    assert StripSlashes(Pointer(tokens)) == StripSlashes(joined);
  }

  lemma {:induction false} ReplaceFront(front: string, s: string, x: char, y: char, r: char)
    requires x !in front
    ensures Replace(front + s, x, y, r) == front + Replace(s, x, y, r)
  {
    if front == "" {
      assert front + s == s;
      assert front + Replace(s, x, y, r) == Replace(s, x, y, r);
    } else {
      ReplaceFront(front[1..], s, x, y, r);
      assert (front + s)[1..] == front[1..] + s;
      assert front + Replace(s, x, y, r) == [front[0]] + (front[1..] + Replace(s, x, y, r));
    }
  }

  lemma UnescapeFront(front: string, s: string)
    requires '~' !in front
    ensures UnescapeToken(front + s) == front + UnescapeToken(s)
  {
    ReplaceFront(front, s, '~', '1', '/');
    ReplaceFront(front, Replace(s, '~', '1', '/'), '~', '0', '~');
  }

  lemma {:induction false} EscapeFront(front: string, s: string)
    requires '~' !in front && '/' !in front
    ensures EscapeToken(front + s) == front + EscapeToken(s)
  {
    if front == "" {
      assert front + s == s;
      assert front + EscapeToken(s) == EscapeToken(s);
    } else {
      EscapeFront(front[1..], s);
      EscapeHead(front + s);
      assert (front + s)[1..] == front[1..] + s;
      assert [front[0]] + (front[1..] + EscapeToken(s)) == front + EscapeToken(s);
    }
  }

  // Four letters that need no escaping are found in front of a token exactly
  // when they are in front of its escaped form.
  lemma PlanEscaped(token: string)
    ensures "plan" <= EscapeToken(token) <==> "plan" <= token
    ensures "plan" <= token ==> EscapeToken(token) == "plan" + EscapeToken(token[4..])
  {
    var escaped := EscapeToken(token);
    if "plan" <= token {
      assert token == "plan" + token[4..];
      EscapeFront("plan", token[4..]);
    }
    if "plan" <= escaped {
      assert escaped == "plan" + escaped[4..];
      UnescapeFront("plan", escaped[4..]);
      UnescapeEscape(token);
    }
  }

  lemma JoinHead(pieces: seq<string>)
    requires pieces != []
    ensures Join(pieces, '/') == pieces[0] + (if |pieces| == 1 then "" else "/" + Join(pieces[1..], '/'))
  {
    if |pieces| > 1 {
      SlashBetween(pieces[0], Join(pieces[1..], '/'));
    }
  }

  lemma SlashBetween(head: string, tail: string)
    ensures head + ['/'] + tail == head + ("/" + tail)
  {
    assert head + ['/'] + tail == head + (['/'] + tail);
  }

  lemma EscapeAllTail(tokens: seq<string>)
    requires tokens != []
    ensures EscapeAll(tokens)[0] == EscapeToken(tokens[0]) && EscapeAll(tokens)[1..] == EscapeAll(tokens[1..])
  {
  }

  // What the first token contributes to a printed pointer.
  lemma PointerStart(tokens: seq<string>)
    requires tokens != []
    ensures Pointer(tokens) == "/" + (EscapeToken(tokens[0]) + Pointer(tokens[1..]))
  {
    EscapeAllTail(tokens);
    JoinHead(EscapeAll(tokens));
  }

  lemma PlanPrefixExactly(tokens: seq<string>)
    requires tokens != []
    ensures "/plan" <= Pointer(tokens) <==> "plan" <= tokens[0]
  {
    PointerStart(tokens);
    var first, rest := EscapeToken(tokens[0]), Pointer(tokens[1..]);
    AfterSlash(first + rest);
    if "plan" <= tokens[0] {
      PlanEscaped(tokens[0]);
      StartsWithPlan(EscapeToken(tokens[0][4..]), rest);
    } else if "plan" <= first + rest {
      FirstHoldsPlan(first, rest);
      PlanEscaped(tokens[0]);
    }
  }

  lemma StartsWithPlan(after: string, rest: string)
    ensures "plan" <= ("plan" + after) + rest
    ensures ("/" + (("plan" + after) + rest))[5..] == after + rest
  {
    assert ("plan" + after) + rest == "plan" + (after + rest);
  }

  // What is left once the prefix is cut off.
  lemma PlanCutOff(tokens: seq<string>)
    requires tokens != [] && "plan" <= tokens[0]
    ensures WithoutPlan(Pointer(tokens)) == EscapeToken(tokens[0][4..]) + Pointer(tokens[1..])
  {
    PlanPrefixExactly(tokens);
    PointerStart(tokens);
    PlanEscaped(tokens[0]);
    StartsWithPlan(EscapeToken(tokens[0][4..]), Pointer(tokens[1..]));
  }

  lemma AfterSlash(text: string)
    ensures "/plan" <= "/" + text <==> "plan" <= text
  {
    assert ("/" + text)[1..] == text;
    if "/plan" <= "/" + text {
      assert text[..4] == ("/" + text)[1..5] == "/plan"[1..] == "plan";
    }
    if "plan" <= text {
      assert ("/" + text)[..5] == "/" + text[..4] == "/plan";
    }
  }

  // The four letters cannot reach beyond the first token.
  lemma FirstHoldsPlan(first: string, rest: string)
    requires "plan" <= first + rest && (rest != [] ==> rest[0] == '/')
    ensures "plan" <= first
  {
    if |first| >= 4 {
      assert first[..4] == (first + rest)[..4];
    } else {
      SlashTooEarly(first, rest);
    }
  }

  lemma SlashTooEarly(first: string, rest: string)
    requires |first| < 4 && (rest != [] ==> rest[0] == '/')
    ensures !("plan" <= first + rest)
  {
    assert rest != [] ==> (first + rest)[|first|] == '/';
  }

  // A path whose first token starts with "plan" never comes back through the
  // decoder that cuts the prefix off.
  lemma PlanGoesAstray(tokens: seq<string>)
    requires tokens != [] && "plan" <= tokens[0]
    ensures PlanDecode(Pointer(tokens)) != tokens
  {
    PlanCutOff(tokens);
    var tail := tokens[0][4..];
    if tail == "" {
      assert EscapeToken("") == "";
      assert WithoutPlan(Pointer(tokens)) == Pointer(tokens[1..]);
      if |tokens| > 1 {
        DecodeShortens(tokens[1..]);
      } else {
        assert tokens[1..] == [];
      }
    } else {
      var shorter := [tail] + tokens[1..];
      PointerStart(shorter);
      assert shorter[1..] == tokens[1..];
      var scoped := WithoutPlan(Pointer(tokens));
      assert Pointer(shorter) == "/" + scoped;
      EscapedHasNoSlash(tail);
      assert scoped[0] == EscapeToken(tail)[0] != '/';
      assert StripSlashes("/" + scoped) == StripSlashes(scoped) by { assert ("/" + scoped)[1..] == scoped; }
      RoundTripExactly(shorter);
      assert PlanDecode(Pointer(tokens)) == shorter;
      assert shorter[0] != tokens[0];
    }
  }

  // The closure check gives back a path exactly when the resolver does and the
  // path does not start with a token that starts with "plan".
  lemma PlanRoundTripExactly(tokens: seq<string>)
    ensures PlanDecode(Pointer(tokens)) == tokens <==>
      tokens == [] || tokens == [""] || (tokens[0] != "" && !("plan" <= tokens[0]))
  {
    if tokens != [] {
      PlanPrefixExactly(tokens);
      if "plan" <= tokens[0] {
        PlanGoesAstray(tokens);
      } else {
        RoundTripExactly(tokens);
      }
    }
  }

  // ----- Resolving -----

  function Length(items: Items): nat {
    if items.Item? then 1 + Length(items.tail) else 0
  }

  function Nth(items: Items, i: nat): Json
    requires i < Length(items)
  {
    if i == 0 then items.head else Nth(items.tail, i - 1)
  }

  type IntParser = string -> Option<int>

  // `current[token]`: None where Python raises KeyError, IndexError,
  // TypeError or ValueError. A negative index counts from the end.
  function Step(parse: IntParser, current: Json, token: string): Option<Json> {
    match current
    case Arr(items) =>
      var parsed := parse(token);
      if parsed.None? then None
      else
        var index := if parsed.value < 0 then parsed.value + Length(items) else parsed.value;
        if 0 <= index < Length(items) then Some(Nth(items, index)) else None
    case Obj(fields) => if HasKey(fields, token) then Some(Get(fields, token)) else None
    case _ => None
  }

  function Walk(parse: IntParser, current: Json, tokens: seq<string>): Option<Json>
    decreases |tokens|
  {
    if tokens == [] then Some(current)
    else
      var next := Step(parse, current, tokens[0]);
      if next.None? then None else Walk(parse, next.value, tokens[1..])
  }

  lemma WalkNext(parse: IntParser, current: Json, tokens: seq<string>, i: nat)
    requires i < |tokens|
    ensures var next := Step(parse, current, tokens[i]);
      Walk(parse, current, tokens[i..]) == if next.None? then None else Walk(parse, next.value, tokens[i + 1..])
  {
    assert tokens[i..][0] == tokens[i] && tokens[i..][1..] == tokens[i + 1..];
  }

  // The check that a location resolves.
  method ResolvePointer(parse: IntParser, root: Json, pointer: string) returns (resolves: bool)
    ensures resolves == Walk(parse, root, Decode(pointer)).Some?
  {
    if pointer == "" {
      return true;
    }
    var current := root;
    var raw := Split(StripSlashes(pointer), '/');
    ghost var tokens := UnescapeAll(raw);
    assert tokens[0..] == tokens;
    for i := 0 to |raw|
      invariant Walk(parse, root, tokens) == Walk(parse, current, tokens[i..])
    {
      var token := UnescapeToken(raw[i]);
      WalkNext(parse, current, tokens, i);
      var next := Step(parse, current, token);
      if next.None? {
        return false;
      }
      current := next.value;
    }
    resolves := true;
  }

  // The value at a location of a plan, None where the lookup raises.
  method PointerValue(parse: IntParser, root: Json, location: string) returns (value: Option<Json>)
    ensures value == Walk(parse, root, PlanDecode(location))
  {
    var scoped := WithoutPlan(location);
    var current := root;
    if scoped == "" {
      return Some(current);
    }
    var raw := Split(StripSlashes(scoped), '/');
    ghost var tokens := UnescapeAll(raw);
    assert tokens[0..] == tokens;
    for i := 0 to |raw|
      invariant Walk(parse, root, tokens) == Walk(parse, current, tokens[i..])
    {
      var token := UnescapeToken(raw[i]);
      WalkNext(parse, current, tokens, i);
      var next := Step(parse, current, token);
      if next.None? {
        return None;
      }
      current := next.value;
    }
    value := Some(current);
  }

  // The check that a location of a candidate finding resolves in the plan: the
  // caller of the resolver cuts the prefix off.
  method LocationResolves(parse: IntParser, plan: Json, location: string) returns (resolves: bool)
    ensures resolves == Walk(parse, plan, PlanDecode(location)).Some?
  {
    resolves := ResolvePointer(parse, plan, WithoutPlan(location));
  }

  // ----- Where the two decoders part -----

  lemma {:induction false} SplitFront(front: string, rest: string)
    requires '/' !in front
    ensures Split(front + rest, '/') == [front + Split(rest, '/')[0]] + Split(rest, '/')[1..]
  {
    var pieces := Split(rest, '/');
    if front == "" {
      assert front + rest == rest && front + pieces[0] == pieces[0];
    } else {
      SplitFront(front[1..], rest);
      assert front + rest == [front[0]] + (front[1..] + rest);
      SplitCons(front[0], front[1..] + rest, '/');
      assert [front[0]] + (front[1..] + pieces[0]) == front + pieces[0];
    }
  }

  lemma DecodeOfPlan(rest: string)
    ensures Decode("/plan" + rest) == UnescapeAll(["plan" + Split(rest, '/')[0]] + Split(rest, '/')[1..])
  {
    var pointer := "/plan" + rest;
    assert pointer[1..] == "plan" + rest;
    StripStarts("plan" + rest);
    SplitFront("plan", rest);
  }

  lemma DecodersDiffer(rest: string)
    ensures Decode("/plan" + rest) != Decode(rest)
  {
    DecodeOfPlan(rest);
    var pieces := Split(rest, '/');
    if rest != "" {
      StripStarts(rest);
      if rest[0] == '/' {
        StripShortens(rest[1..]);
        assert |Decode(rest)| < |pieces|;
      } else {
        UnescapeFront("plan", pieces[0]);
        assert Decode(rest)[0] == UnescapeToken(pieces[0]);
        assert Decode("/plan" + rest)[0] == "plan" + UnescapeToken(pieces[0]);
      }
    }
  }

  // A document in which exactly one path leads to null.
  function Nest(tokens: seq<string>): Json {
    if tokens == [] then Null else Obj(Field(tokens[0], Nest(tokens[1..]), NoField))
  }

  lemma {:induction false} WalkNest(parse: IntParser, tokens: seq<string>, path: seq<string>)
    ensures Walk(parse, Nest(tokens), path).Some? <==> path <= tokens
    decreases |path|
  {
    if path != [] && tokens != [] {
      PrefixTail(path, tokens);
      var inner := Field(tokens[0], Nest(tokens[1..]), NoField);
      assert HasKey(inner, path[0]) <==> path[0] == tokens[0];
      if path[0] == tokens[0] {
        WalkNest(parse, tokens[1..], path[1..]);
        assert Step(parse, Nest(tokens), path[0]) == Some(Nest(tokens[1..]));
      }
    }
  }

  lemma PrefixTail(path: seq<string>, tokens: seq<string>)
    requires path != [] && tokens != []
    ensures path <= tokens <==> path[0] == tokens[0] && path[1..] <= tokens[1..]
  {
    assert path == [path[0]] + path[1..] && tokens == [tokens[0]] + tokens[1..];
    if path[0] == tokens[0] && path[1..] <= tokens[1..] {
      assert tokens[..|path|] == [tokens[0]] + tokens[1..][..|path| - 1];
    }
    if path <= tokens {
      assert path[1..] == tokens[1..][..|path| - 1];
    }
  }

  // Different paths are told apart by some document.
  lemma PathsToldApart(parse: IntParser, a: seq<string>, b: seq<string>)
    ensures (forall root :: Walk(parse, root, a).Some? <==> Walk(parse, root, b).Some?) <==> a == b
  {
    if a != b {
      WalkNest(parse, a, a);
      WalkNest(parse, a, b);
      WalkNest(parse, b, a);
      WalkNest(parse, b, b);
      var root := if b <= a then Nest(b) else Nest(a);
      assert Walk(parse, root, a).Some? <==> !Walk(parse, root, b).Some?;
    }
  }

  // Applied to the same pointer, the two decoders succeed on the same
  // documents exactly when the pointer does not start with "/plan".
  lemma DecodersAgreeExactly(parse: IntParser, pointer: string)
    ensures (forall root :: Walk(parse, root, Decode(pointer)).Some? <==> Walk(parse, root, PlanDecode(pointer)).Some?) <==>
      !("/plan" <= pointer)
  {
    PathsToldApart(parse, Decode(pointer), PlanDecode(pointer));
    if "/plan" <= pointer {
      assert pointer == "/plan" + pointer[5..];
      DecodersDiffer(pointer[5..]);
    }
  }

  lemma WalkKey(parse: IntParser, key: string, value: Json, token: string)
    ensures Walk(parse, Obj(Field(key, value, NoField)), [token]) == if token == key then Some(value) else None
  {
    assert [token][1..] == [];
    assert HasKey(Field(key, value, NoField), token) <==> token == key;
  }

  // The pointer of a key that starts with "plan" is read as the rest of it.
  lemma PlanKeyDecoded(rest: string)
    requires rest != ""
    ensures PlanDecode(Pointer(["plan" + rest])) == [rest]
  {
    var tokens := ["plan" + rest];
    assert tokens[1..] == [] && tokens[0][4..] == rest;
    PlanCutOff(tokens);
    var escaped := EscapeToken(rest);
    assert WithoutPlan(Pointer(tokens)) == escaped;
    EscapedHasNoSlash(rest);
    StripStarts(escaped);
    SplitPlain(escaped, '/');
    UnescapeEscape(rest);
    assert UnescapeAll([escaped]) == [rest];
  }

  // Such a key resolves, but not for the decoder that cuts the prefix off; an
  // instance is "plan_id", which every plan has.
  lemma PlanKeyGoesAstray(parse: IntParser, rest: string, value: Json)
    requires rest != ""
    ensures var root := Obj(Field("plan" + rest, value, NoField));
      && Walk(parse, root, Decode(Pointer(["plan" + rest]))) == Some(value)
      && Walk(parse, root, PlanDecode(Pointer(["plan" + rest]))) == None
  {
    var key := "plan" + rest;
    RoundTripExactly([key]);
    WalkKey(parse, key, value, key);
    PlanKeyDecoded(rest);
    WalkKey(parse, key, value, rest);
  }

  lemma PlanIdGoesAstray(parse: IntParser, id: Json)
    ensures var root := Obj(Field("plan_id", id, NoField));
      && Walk(parse, root, Decode(Pointer(["plan_id"]))) == Some(id)
      && Walk(parse, root, PlanDecode(Pointer(["plan_id"]))) == None
  {
    assert "plan" + "_id" == "plan_id";
    PlanKeyGoesAstray(parse, "_id", id);
  }

  // ----- Paths into a document -----

  datatype Part = Key(name: string) | Index(n: nat)

  // `str(part)`
  function PartText(part: Part): string {
    match part
    case Key(name) => name
    case Index(n) => Decimal(n)
  }

  function Texts(path: seq<Part>): seq<string> {
    seq(|path|, i requires 0 <= i < |path| => PartText(path[i]))
  }

  // The value a path of keys and indices leads to.
  function At(root: Json, path: seq<Part>): Option<Json>
    decreases |path|
  {
    if path == [] then Some(root)
    else
      match path[0]
      case Key(name) =>
        if root.Obj? && HasKey(root.fields, name) then At(Get(root.fields, name), path[1..]) else None
      case Index(n) =>
        if root.Arr? && n < Length(root.items) then At(Nth(root.items, n), path[1..]) else None
  }

  // The integer parser reads back decimal digits.
  ghost predicate ReadsDecimals(parse: IntParser) {
    forall n: nat :: parse(Decimal(n)) == Some(n)
  }

  lemma {:induction false} WalkFollows(parse: IntParser, root: Json, path: seq<Part>)
    requires ReadsDecimals(parse) && At(root, path).Some?
    ensures Walk(parse, root, Texts(path)) == At(root, path)
    decreases |path|
  {
    if path != [] {
      assert Texts(path)[0] == PartText(path[0]) && Texts(path)[1..] == Texts(path[1..]);
      match path[0]
      case Key(name) => WalkFollows(parse, Get(root.fields, name), path[1..]);
      case Index(n) =>
        assert parse(Decimal(n)) == Some(n);
        WalkFollows(parse, Nth(root.items, n), path[1..]);
    }
  }

  // A printed pointer resolves to the value at the path it was printed from,
  // unless the path starts with an empty key followed by more. The closure
  // check finds that value too if the plan prefix is in front, and without the
  // prefix unless the path starts with a key that starts with "plan".
  lemma PrintedPointerResolves(parse: IntParser, root: Json, path: seq<Part>)
    requires ReadsDecimals(parse) && At(root, path).Some?
    requires path == [] || PartText(path[0]) != "" || |path| == 1
    ensures Walk(parse, root, Decode(Pointer(Texts(path)))) == At(root, path)
    ensures Walk(parse, root, PlanDecode("/plan" + Pointer(Texts(path)))) == At(root, path)
    ensures path == [] || !("plan" <= PartText(path[0])) ==> Walk(parse, root, PlanDecode(Pointer(Texts(path)))) == At(root, path)
  {
    var tokens := Texts(path);
    assert |path| == 1 ==> tokens == [PartText(path[0])];
    assert path != [] ==> tokens[0] == PartText(path[0]);
    RoundTripExactly(tokens);
    PlanRoundTripExactly(tokens);
    WalkFollows(parse, root, path);
    assert ("/plan" + Pointer(tokens))[..5] == "/plan" && ("/plan" + Pointer(tokens))[5..] == Pointer(tokens);
  }

  // The excluded paths do go wrong: the pointer of an empty key followed by
  // another resolves to what is under the other key alone.
  lemma EmptyFirstKeyGoesAstray(parse: IntParser, key: string, inner: Json, outer: Json)
    requires key != ""
    ensures var root := Obj(Field("", Obj(Field(key, inner, NoField)), Field(key, outer, NoField)));
      && At(root, [Key(""), Key(key)]) == Some(inner)
      && Walk(parse, root, Decode(Pointer(["", key]))) == Some(outer)
  {
    var branch := Obj(Field(key, inner, NoField));
    var root := Obj(Field("", branch, Field(key, outer, NoField)));
    var path := [Key(""), Key(key)];
    assert path[1..] == [Key(key)] && path[1..][1..] == [];
    assert At(branch, [Key(key)]) == Some(inner);
    EmptyKeyDropped(key);
    assert [key][1..] == [];
    assert HasKey(root.fields, key) && Get(root.fields, key) == outer;
  }

  lemma EmptyKeyDropped(key: string)
    requires key != ""
    ensures Decode(Pointer(["", key])) == [key]
  {
    var rest := Pointer([key]);
    assert ["", key][1..] == [key];
    PointerStart(["", key]);
    assert EscapeToken("") + rest == rest;
    assert ("/" + rest)[1..] == rest;
    RoundTripExactly([key]);
  }
}
