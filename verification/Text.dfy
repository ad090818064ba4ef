/**
  Splitting and joining strings on a separator character, and posix paths as
  Python's PurePosixPath reads them.
*/
module Text {

  datatype Option<+T> = None | Some(value: T)

  // `text.split(sep)`: always at least one piece.
  function Split(text: string, sep: char): (pieces: seq<string>)
    ensures |pieces| >= 1
    ensures forall i :: 0 <= i < |pieces| ==> sep !in pieces[i]
  {
    if text == [] then [""]
    else
      var rest := Split(text[1..], sep);
      if text[0] == sep then [""] + rest else [[text[0]] + rest[0]] + rest[1..]
  }

  lemma SplitCons(c: char, text: string, sep: char)
    requires c != sep
    ensures Split([c] + text, sep) == [[c] + Split(text, sep)[0]] + Split(text, sep)[1..]
  {
    assert ([c] + text)[1..] == text;
  }

  // `sep.join(pieces)`
  function Join(pieces: seq<string>, sep: char): string {
    if pieces == [] then ""
    else if |pieces| == 1 then pieces[0]
    else pieces[0] + [sep] + Join(pieces[1..], sep)
  }

  lemma {:induction false} SplitJoin(pieces: seq<string>, sep: char)
    requires |pieces| >= 1
    requires forall i :: 0 <= i < |pieces| ==> sep !in pieces[i]
    ensures Split(Join(pieces, sep), sep) == pieces
  {
    if |pieces| == 1 {
      SplitPlain(pieces[0], sep);
      assert pieces == [pieces[0]];
    } else {
      SplitJoin(pieces[1..], sep);
      SplitPrefix(pieces[0], Join(pieces[1..], sep), sep);
      assert pieces[0] + [sep] + Join(pieces[1..], sep) == pieces[0] + ([sep] + Join(pieces[1..], sep));
      assert pieces == [pieces[0]] + pieces[1..];
    }
  }

  lemma {:induction false} SplitPlain(text: string, sep: char)
    requires sep !in text
    ensures Split(text, sep) == [text]
  {
    if text != [] {
      SplitPlain(text[1..], sep);
      assert text == [text[0]] + text[1..];
    }
  }

  lemma {:induction false} SplitPrefix(head: string, tail: string, sep: char)
    requires sep !in head
    ensures Split(head + ([sep] + tail), sep) == [head] + Split(tail, sep)
  {
    var text := head + ([sep] + tail);
    if head == [] {
      assert text == [sep] + tail;
      assert text[1..] == tail;
    } else {
      assert text[1..] == head[1..] + ([sep] + tail);
      SplitPrefix(head[1..], tail, sep);
      assert head == [head[0]] + head[1..];
    }
  }

  lemma {:induction false} JoinSplit(text: string, sep: char)
    ensures Join(Split(text, sep), sep) == text
  {
    if text != [] {
      JoinSplit(text[1..], sep);
      var rest := Split(text[1..], sep);
      if text[0] == sep {
        assert ([""] + rest)[1..] == rest;
      } else if |rest| > 1 {
        assert ([[text[0]] + rest[0]] + rest[1..])[1..] == rest[1..];
      }
    }
  }

  // ----- Posix paths -----

  // Anchors: 0 for a relative path, 1 for "/", 2 for exactly two slashes.
  datatype PurePath = PurePath(anchor: nat, parts: seq<string>)

  function KeepParts(pieces: seq<string>): (parts: seq<string>)
    ensures forall part :: part in parts <==> part in pieces && part != "" && part != "."
  {
    if pieces == [] then []
    else
      assert pieces == [pieces[0]] + pieces[1..];
      (if pieces[0] == "" || pieces[0] == "." then [] else [pieces[0]]) + KeepParts(pieces[1..])
  }

  function ParsePath(text: string): PurePath {
    var anchor := if !("/" <= text) then 0 else if "//" <= text && !("///" <= text) then 2 else 1;
    PurePath(anchor, KeepParts(Split(text, '/')))
  }

  // `path.parents`: every proper prefix, longest first.
  function Parents(path: PurePath): (parents: seq<PurePath>)
    ensures forall p: PurePath :: p in parents <==> p.anchor == path.anchor && p.parts < path.parts
    decreases |path.parts|
  {
    if path.parts == [] then []
    else
      var parent := PurePath(path.anchor, path.parts[..|path.parts| - 1]);
      var above := Parents(parent);
      assert forall p: PurePath :: p.parts < path.parts <==> p.parts == parent.parts || p.parts < parent.parts;
      [parent] + above
  }

  // The containment test used throughout: equal to the root or below it.
  predicate Inside(path: string, root: string) {
    var candidate, parent := ParsePath(path), ParsePath(root);
    candidate == parent || parent in Parents(candidate)
  }

  // The symmetric overlap test: one path is equal to or below the other.
  predicate Overlaps(left: string, right: string) {
    var a, b := ParsePath(left), ParsePath(right);
    a == b || a in Parents(b) || b in Parents(a)
  }

  // `root` is `path` or an ancestor of it, component by component.
  ghost predicate Contains(root: PurePath, path: PurePath) {
    root.anchor == path.anchor && root.parts <= path.parts
  }

  lemma InsideIsContainment(path: string, root: string)
    ensures Inside(path, root) <==> Contains(ParsePath(root), ParsePath(path))
  {
    var r, p := ParsePath(root), ParsePath(path);
    if r.anchor == p.anchor && r.parts <= p.parts && !(r.parts < p.parts) {
      assert r.parts == p.parts;
    }
  }

  lemma OverlapIsComparability(left: string, right: string)
    ensures Overlaps(left, right) <==> Inside(left, right) || Inside(right, left)
  {
  }

  // Containment is a partial order on parsed paths, and two roots of one
  // path are always comparable.
  lemma ContainmentChain(path: PurePath, outer: PurePath, inner: PurePath)
    requires Contains(outer, path) && Contains(inner, path)
    ensures Contains(outer, inner) || Contains(inner, outer)
  {
    if |outer.parts| <= |inner.parts| {
      assert outer.parts == path.parts[..|outer.parts|];
      assert inner.parts[..|outer.parts|] == path.parts[..|inner.parts|][..|outer.parts|];
    } else {
      assert outer.parts[..|inner.parts|] == path.parts[..|outer.parts|][..|inner.parts|];
    }
  }

  lemma ContainmentTransitive(outer: PurePath, middle: PurePath, inner: PurePath)
    requires Contains(outer, middle) && Contains(middle, inner)
    ensures Contains(outer, inner)
  {
  }
}
