/**
  JSON values with ordered object fields, their compact printed form, and the
  proof that the printed form determines the value.
*/
module Json {

  // A number is kept as its printed token. Object fields keep their order;
  // what a value means regardless of that order is `Meaning` below.
  datatype Json =
    | Null
    | Bool(b: bool)
    | Num(token: string)
    | Str(text: string)
    | Arr(items: Items)
    | Obj(fields: Fields)

  datatype Items = NoItem | Item(head: Json, tail: Items)

  datatype Fields = NoField | Field(key: string, value: Json, rest: Fields)

  // ----- Well-formedness -----

  predicate IsNumeralStart(c: char) {
    '0' <= c <= '9' || c == '-' || c == 'N' || c == 'I'
  }

  predicate IsDelimiter(c: char) {
    c == ',' || c == ']' || c == '}'
  }

  predicate IsNumeral(token: string) {
    token != [] && IsNumeralStart(token[0]) && forall i :: 0 <= i < |token| ==> !IsDelimiter(token[i])
  }

  predicate HasKey(fields: Fields, key: string) {
    fields.Field? && (fields.key == key || HasKey(fields.rest, key))
  }

  // Numbers are numerals and no object repeats a key.
  predicate WellFormed(v: Json) {
    match v
    case Null => true
    case Bool(_) => true
    case Num(token) => IsNumeral(token)
    case Str(_) => true
    case Arr(items) => WellFormedItems(items)
    case Obj(fields) => WellFormedFields(fields)
  }

  predicate WellFormedItems(items: Items) {
    items.Item? ==> WellFormed(items.head) && WellFormedItems(items.tail)
  }

  predicate WellFormedFields(fields: Fields) {
    fields.Field? ==>
      WellFormed(fields.value) && !HasKey(fields.rest, fields.key) && WellFormedFields(fields.rest)
  }

  function Get(fields: Fields, key: string): Json
    requires HasKey(fields, key)
  {
    if fields.key == key then fields.value else Get(fields.rest, key)
  }

  // ----- Printing -----

  function HexDigit(n: nat): char
    requires n < 16
  {
    "0123456789abcdef"[n]
  }

  // The escapes of a JSON string when non-ASCII characters are kept.
  function EscapeChar(c: char): (r: string)
    ensures r != [] && r[0] != '"'
  {
    if c == '"' then "\\\""
    else if c == '\\' then "\\\\"
    else if c == '\n' then "\\n"
    else if c == '\r' then "\\r"
    else if c == '\t' then "\\t"
    else if c == '\U{08}' then "\\b"
    else if c == '\U{0C}' then "\\f"
    else if c as int < 0x20 then
      var code := c as int;
      "\\u00" + [HexDigit(code / 16), HexDigit(code % 16)]
    else [c]
  }

  function Encode(code: char -> string, s: string): string {
    if s == [] then "" else code(s[0]) + Encode(code, s[1..])
  }

  function Escape(s: string): string {
    Encode(EscapeChar, s)
  }

  function Quote(s: string): string {
    "\"" + (Escape(s) + "\"")
  }

  function Print(v: Json): string {
    match v
    case Null => "null"
    case Bool(b) => if b then "true" else "false"
    case Num(token) => token
    case Str(s) => Quote(s)
    case Arr(items) => "[" + PrintItems(items)
    case Obj(fields) => "{" + PrintFields(fields)
  }

  // Prints the items and the closing bracket.
  function PrintItems(items: Items): string {
    match items
    case NoItem => "]"
    case Item(head, NoItem) => Print(head) + "]"
    case Item(head, tail) => Print(head) + ("," + PrintItems(tail))
  }

  // Prints the fields and the closing brace.
  function PrintFields(fields: Fields): string {
    match fields
    case NoField => "}"
    case Field(key, value, NoField) => Quote(key) + (":" + (Print(value) + "}"))
    case Field(key, value, rest) => Quote(key) + (":" + (Print(value) + ("," + PrintFields(rest))))
  }

  // ----- The printed form is unambiguous -----

  // What may follow a value: nothing, or a delimiter.
  ghost predicate Delimited(s: string) {
    s == [] || IsDelimiter(s[0])
  }

  lemma EscapeCharUnambiguous(c: char, d: char, s: string, t: string)
    requires EscapeChar(c) + s == EscapeChar(d) + t
    ensures c == d && s == t
  {
    var x := EscapeChar(c) + s;
    var y := EscapeChar(d) + t;
    assert x[0] == y[0];
    assert |EscapeChar(c)| == 1 || x[1] == EscapeChar(c)[1];
    assert |EscapeChar(d)| == 1 || y[1] == EscapeChar(d)[1];
    assert |EscapeChar(c)| == 6 ==> x[4] == EscapeChar(c)[4] && x[5] == EscapeChar(c)[5];
    assert |EscapeChar(d)| == 6 ==> y[4] == EscapeChar(d)[4] && y[5] == EscapeChar(d)[5];
    assert |EscapeChar(c)| == |EscapeChar(d)|;
    assert s == x[|EscapeChar(c)|..] && t == y[|EscapeChar(d)|..];
    assert EscapeChar(c) == x[..|EscapeChar(c)|] == y[..|EscapeChar(d)|] == EscapeChar(d);
    if |EscapeChar(c)| == 6 {
      HexUnambiguous(c as int, d as int);
    }
  }

  lemma HexUnambiguous(m: int, n: int)
    requires 0 <= m < 0x20 && 0 <= n < 0x20
    requires HexDigit(m / 16) == HexDigit(n / 16) && HexDigit(m % 16) == HexDigit(n % 16)
    ensures m == n
  {
    HexDigitUnambiguous(m / 16, n / 16);
    HexDigitUnambiguous(m % 16, n % 16);
  }

  lemma HexDigitUnambiguous(m: nat, n: nat)
    requires m < 16 && n < 16 && HexDigit(m) == HexDigit(n)
    ensures m == n
  {
    assert forall i: nat :: i < 10 ==> HexDigit(i) as int == 48 + i;
    assert forall i: nat :: 10 <= i < 16 ==> HexDigit(i) as int == 87 + i;
  }

  // A character code whose words can be read off from the left, and never
  // start with the closing quote.
  ghost predicate Decodable(code: char -> string) {
    && (forall c :: code(c) != [] && code(c)[0] != '"')
    && (forall c, d, s, t :: code(c) + s == code(d) + t ==> c == d && s == t)
  }

  lemma EscapeCharDecodable()
    ensures Decodable(EscapeChar)
  {
    forall c, d, s, t | EscapeChar(c) + s == EscapeChar(d) + t ensures c == d && s == t {
      EscapeCharUnambiguous(c, d, s, t);
    }
  }

  lemma {:induction false} EncodeUnambiguous(code: char -> string, a: string, b: string, s: string, t: string)
    requires Decodable(code)
    requires Encode(code, a) + ("\"" + s) == Encode(code, b) + ("\"" + t)
    ensures a == b && s == t
  {
    var x := Encode(code, a) + ("\"" + s);
    var y := Encode(code, b) + ("\"" + t);
    assert a == [] ==> x[0] == '"';
    assert b == [] ==> y[0] == '"';
    assert a != [] ==> x[0] == code(a[0])[0];
    assert b != [] ==> y[0] == code(b[0])[0];
    if a == [] {
      assert s == x[1..] && t == y[1..];
    } else {
      assert x == code(a[0]) + (Encode(code, a[1..]) + ("\"" + s));
      assert y == code(b[0]) + (Encode(code, b[1..]) + ("\"" + t));
      EncodeUnambiguous(code, a[1..], b[1..], s, t);
      assert a == [a[0]] + a[1..] && b == [b[0]] + b[1..];
    }
  }

  lemma QuotedUnambiguous(a: string, b: string, s: string, t: string)
    requires Quote(a) + s == Quote(b) + t
    ensures a == b && s == t
  {
    var x := Quote(a) + s;
    var y := Quote(b) + t;
    assert x[1..] == Escape(a) + ("\"" + s);
    assert y[1..] == Escape(b) + ("\"" + t);
    EscapeCharDecodable();
    EncodeUnambiguous(EscapeChar, a, b, s, t);
  }

  lemma NumeralUnambiguous(a: string, b: string, s: string, t: string)
    requires IsNumeral(a) && IsNumeral(b) && Delimited(s) && Delimited(t)
    requires a + s == b + t
    ensures a == b && s == t
  {
    var x, y := a + s, b + t;
    assert forall i :: 0 <= i < |a| ==> x[i] == a[i];
    assert forall i :: 0 <= i < |b| ==> y[i] == b[i];
    assert a == x[..|a|] && b == y[..|b|] && s == x[|a|..] && t == y[|b|..];
  }

  // Each kind of value is recognised by its first character.
  function Shape(v: Json): nat {
    match v
    case Null => 0
    case Bool(b) => if b then 1 else 2
    case Num(_) => 3
    case Str(_) => 4
    case Arr(_) => 5
    case Obj(_) => 6
  }

  function ShapeOfStart(c: char): nat {
    if c == 'n' then 0 else if c == 't' then 1 else if c == 'f' then 2
    else if c == '"' then 4 else if c == '[' then 5 else if c == '{' then 6 else 3
  }

  lemma PrintStart(v: Json)
    requires WellFormed(v)
    ensures Print(v) != [] && ShapeOfStart(Print(v)[0]) == Shape(v)
    ensures Print(v)[0] != ']'
  {
  }

  lemma SameShape(v: Json, w: Json, s: string, t: string)
    requires WellFormed(v) && WellFormed(w)
    requires Print(v) + s == Print(w) + t
    ensures Shape(v) == Shape(w)
  {
    PrintStart(v);
    PrintStart(w);
    assert (Print(v) + s)[0] == Print(v)[0] && (Print(w) + t)[0] == Print(w)[0];
  }

  lemma SameSuffix(head: string, s: string, t: string)
    requires head + s == head + t
    ensures s == t
  {
    assert s == (head + s)[|head|..];
    assert t == (head + t)[|head|..];
  }

  // If two printed values, each followed by a delimiter or nothing, give the
  // same text, then the values and what follows them are the same.
  lemma {:induction false} PrintUnambiguous(v: Json, w: Json, s: string, t: string)
    requires WellFormed(v) && WellFormed(w) && Delimited(s) && Delimited(t)
    requires Print(v) + s == Print(w) + t
    ensures v == w && s == t
    decreases v
  {
    SameShape(v, w, s, t);
    match v {
      case Null => SameSuffix("null", s, t);
      case Bool(b) => SameSuffix(Print(v), s, t);
      case Num(token) => NumeralUnambiguous(token, w.token, s, t);
      case Str(text) => QuotedUnambiguous(text, w.text, s, t);
      case Arr(items) =>
        OpenBracket("[", PrintItems(items), PrintItems(w.items), s, t);
        ItemsUnambiguous(items, w.items, s, t);
      case Obj(fields) =>
        OpenBracket("{", PrintFields(fields), PrintFields(w.fields), s, t);
        FieldsUnambiguous(fields, w.fields, s, t);
    }
  }

  lemma OpenBracket(bracket: string, a: string, b: string, s: string, t: string)
    requires (bracket + a) + s == (bracket + b) + t
    ensures a + s == b + t
  {
    assert (bracket + a) + s == bracket + (a + s);
    assert (bracket + b) + t == bracket + (b + t);
    SameSuffix(bracket, a + s, b + t);
  }

  // What follows the head of a non-empty list: its closing bracket, or a
  // comma and the rest.
  function AfterHead(tail: Items): string {
    if tail.NoItem? then "]" else "," + PrintItems(tail)
  }

  function AfterField(rest: Fields): string {
    if rest.NoField? then "}" else "," + PrintFields(rest)
  }

  lemma {:induction false} ItemsUnambiguous(a: Items, b: Items, s: string, t: string)
    requires WellFormedItems(a) && WellFormedItems(b)
    requires PrintItems(a) + s == PrintItems(b) + t
    ensures a == b && s == t
    decreases a
  {
    ItemsStart(a, s);
    ItemsStart(b, t);
    if a.NoItem? {
      SameSuffix("]", s, t);
    } else {
      var p, q := AfterHead(a.tail) + s, AfterHead(b.tail) + t;
      AfterHeadDelimits(a.tail, s);
      AfterHeadDelimits(b.tail, t);
      PrintUnambiguous(a.head, b.head, p, q);
      if a.tail.NoItem? {
        SameSuffix("]", s, t);
      } else {
        SameSuffix(",", PrintItems(a.tail) + s, PrintItems(b.tail) + t);
        ItemsUnambiguous(a.tail, b.tail, s, t);
      }
    }
  }

  lemma ItemsStart(a: Items, s: string)
    requires WellFormedItems(a)
    ensures a.NoItem? ==> PrintItems(a) + s == "]" + s && (PrintItems(a) + s)[0] == ']'
    ensures a.Item? ==>
      && PrintItems(a) + s == Print(a.head) + (AfterHead(a.tail) + s)
      && (PrintItems(a) + s)[0] != ']'
  {
    if a.Item? {
      PrintStart(a.head);
      assert PrintItems(a) == Print(a.head) + AfterHead(a.tail);
      ReassociateTwo(Print(a.head), AfterHead(a.tail), s);
    }
  }

  lemma ReassociateTwo(a: string, b: string, s: string)
    ensures (a + b) + s == a + (b + s)
    ensures a != [] ==> ((a + b) + s)[0] == a[0]
  {
  }

  lemma AfterHeadDelimits(tail: Items, s: string)
    ensures AfterHead(tail) + s != [] && Delimited(AfterHead(tail) + s)
    ensures tail.NoItem? ==> AfterHead(tail) + s == "]" + s && (AfterHead(tail) + s)[0] == ']'
    ensures tail.Item? ==> AfterHead(tail) + s == "," + (PrintItems(tail) + s) && (AfterHead(tail) + s)[0] == ','
  {
    if tail.Item? {
      CommaPrefix(PrintItems(tail), s);
    }
  }

  lemma {:induction false} FieldsUnambiguous(a: Fields, b: Fields, s: string, t: string)
    requires WellFormedFields(a) && WellFormedFields(b)
    requires PrintFields(a) + s == PrintFields(b) + t
    ensures a == b && s == t
    decreases a
  {
    FieldsStart(a, s);
    FieldsStart(b, t);
    if a.NoField? {
      SameSuffix("}", s, t);
    } else {
      var p, q := AfterField(a.rest) + s, AfterField(b.rest) + t;
      QuotedUnambiguous(a.key, b.key, ":" + (Print(a.value) + p), ":" + (Print(b.value) + q));
      SameSuffix(":", Print(a.value) + p, Print(b.value) + q);
      AfterFieldDelimits(a.rest, s);
      AfterFieldDelimits(b.rest, t);
      PrintUnambiguous(a.value, b.value, p, q);
      if a.rest.NoField? {
        SameSuffix("}", s, t);
      } else {
        SameSuffix(",", PrintFields(a.rest) + s, PrintFields(b.rest) + t);
        FieldsUnambiguous(a.rest, b.rest, s, t);
      }
    }
  }

  lemma FieldsStart(a: Fields, s: string)
    ensures a.NoField? ==> PrintFields(a) + s == "}" + s && (PrintFields(a) + s)[0] == '}'
    ensures a.Field? ==>
      && PrintFields(a) + s == Quote(a.key) + (":" + (Print(a.value) + (AfterField(a.rest) + s)))
      && (PrintFields(a) + s)[0] == '"'
  {
    if a.Field? {
      assert PrintFields(a) == Quote(a.key) + (":" + (Print(a.value) + AfterField(a.rest)));
      Reassociate(Quote(a.key), ":", Print(a.value), AfterField(a.rest), s);
    }
  }

  lemma Reassociate(a: string, b: string, c: string, d: string, s: string)
    ensures (a + (b + (c + d))) + s == a + (b + (c + (d + s)))
    ensures a != [] ==> ((a + (b + (c + d))) + s)[0] == a[0]
  {
  }

  lemma AfterFieldDelimits(rest: Fields, s: string)
    ensures AfterField(rest) + s != [] && Delimited(AfterField(rest) + s)
    ensures rest.NoField? ==> AfterField(rest) + s == "}" + s && (AfterField(rest) + s)[0] == '}'
    ensures rest.Field? ==> AfterField(rest) + s == "," + (PrintFields(rest) + s) && (AfterField(rest) + s)[0] == ','
  {
    if rest.Field? {
      CommaPrefix(PrintFields(rest), s);
    }
  }

  lemma CommaPrefix(a: string, s: string)
    ensures ("," + a) + s == "," + (a + s) && (("," + a) + s)[0] == ','
  {
  }

  lemma PrintInjective(v: Json, w: Json)
    requires WellFormed(v) && WellFormed(w)
    ensures Print(v) == Print(w) <==> v == w
  {
    if Print(v) == Print(w) {
      PrintUnambiguous(v, w, "", "");
    }
  }
}
