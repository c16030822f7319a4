/** The string operations of the Go library that the agent relies on. */
module Text {

  /** strings.Split on one separator character: the text between consecutive separators. */
  function Split(s: string, c: char): (parts: seq<string>)
    ensures |parts| >= 1
  {
    if s == [] then [[]]
    else
      var rest := Split(s[1..], c);
      if s[0] == c then [[]] + rest else [[s[0]] + rest[0]] + rest[1..]
  }

  /** strings.Join. */
  function Join(parts: seq<string>, separator: string): string {
    if parts == [] then []
    else if |parts| == 1 then parts[0]
    else parts[0] + separator + Join(parts[1..], separator)
  }

  /** strings.Replace of every occurrence of one character by another. */
  function Replace(s: string, a: char, b: char): string {
    if s == [] then [] else [if s[0] == a then b else s[0]] + Replace(s[1..], a, b)
  }

  /** unicode.IsSpace */
  predicate IsSpace(c: char) {
    c == ' ' || '\t' <= c <= '\r' || c == '\U{85}' || c == '\U{A0}' || c == '\U{1680}' ||
    '\U{2000}' <= c <= '\U{200A}' || c == '\U{2028}' || c == '\U{2029}' || c == '\U{202F}' ||
    c == '\U{205F}' || c == '\U{3000}'
  }

  /** strings.TrimSpace */
  function TrimSpace(s: string): string {
    if s == [] then []
    else if IsSpace(s[0]) then TrimSpace(s[1..])
    else if IsSpace(s[|s| - 1]) then TrimSpace(s[..|s| - 1])
    else s
  }

  ghost predicate AllSpace(s: string) {
    forall c :: c in s ==> IsSpace(c)
  }

  lemma SpaceAround(c: char, s: string)
    requires IsSpace(c) && AllSpace(s)
    ensures AllSpace([c] + s) && AllSpace(s + [c])
  {
  }

  lemma CutFront(s: string, before: string, body: string, after: string)
    requires s != [] && s[1..] == before + body + after
    ensures s == ([s[0]] + before) + body + after
  {
    assert s == [s[0]] + s[1..];
  }

  lemma CutBack(s: string, before: string, body: string, after: string)
    requires s != [] && s[..|s| - 1] == before + body + after
    ensures s == before + body + (after + [s[|s| - 1]])
  {
    assert s == s[..|s| - 1] + [s[|s| - 1]];
  }

  /** TrimSpace cuts white space off both ends, and nothing else. */
  lemma {:induction false} TrimCutsTheEnds(s: string) returns (before: string, after: string)
    ensures s == before + TrimSpace(s) + after && AllSpace(before) && AllSpace(after)
    ensures var body := TrimSpace(s); body != "" ==> !IsSpace(body[0]) && !IsSpace(body[|body| - 1])
    decreases |s|
  {
    before, after := "", "";
    if s != [] {
      if IsSpace(s[0]) {
        var rest: string;
        rest, after := TrimCutsTheEnds(s[1..]);
        before := [s[0]] + rest;
        SpaceAround(s[0], rest);
        CutFront(s, rest, TrimSpace(s), after);
      } else if IsSpace(s[|s| - 1]) {
        var rest: string;
        before, rest := TrimCutsTheEnds(s[..|s| - 1]);
        after := rest + [s[|s| - 1]];
        SpaceAround(s[|s| - 1], rest);
        CutBack(s, before, TrimSpace(s), rest);
      }
    }
  }

  function NonEmpty(parts: seq<string>): seq<string> {
    if parts == [] then []
    else (if parts[0] == [] then [] else [parts[0]]) + NonEmpty(parts[1..])
  }

  /** strings.LastIndex of one character: the last position, or -1. */
  function LastIndex(s: string, c: char): (i: int)
    ensures -1 <= i < |s|
    ensures i >= 0 ==> s[i] == c
    ensures forall j :: i < j < |s| ==> s[j] != c
  {
    if s == [] then -1
    else if s[|s| - 1] == c then |s| - 1
    else LastIndex(s[..|s| - 1], c)
  }

  lemma JoinHead(d: char, rest: seq<string>, separator: string)
    requires rest != []
    ensures Join([[d] + rest[0]] + rest[1..], separator) == [d] + Join(rest, separator)
  {
    var parts := [[d] + rest[0]] + rest[1..];
    assert parts[1..] == rest[1..];
    if |rest| > 1 {
      assert [d] + rest[0] + separator + Join(rest[1..], separator) ==
        [d] + (rest[0] + separator + Join(rest[1..], separator));
    }
  }

  /** Split finds parts without separators that rejoin to the whole. */
  lemma {:induction false} SplitRejoins(s: string, c: char)
    ensures Join(Split(s, c), [c]) == s
    ensures forall i :: 0 <= i < |Split(s, c)| ==> c !in Split(s, c)[i]
  {
    if s != [] {
      SplitRejoins(s[1..], c);
      var rest := Split(s[1..], c);
      if s[0] == c {
        assert ([[]] + rest)[1..] == rest;
      } else {
        JoinHead(s[0], rest, [c]);
      }
    }
  }

  /** And they are the only such parts. */
  lemma {:induction false} SplitUndoesJoin(parts: seq<string>, c: char)
    requires parts != [] && forall i :: 0 <= i < |parts| ==> c !in parts[i]
    ensures Split(Join(parts, [c]), c) == parts
    decreases |parts|, if parts == [] then 0 else |parts[0]|
  {
    var p := parts[0];
    var whole := Join(parts, [c]);
    if p == [] {
      if |parts| > 1 {
        SplitUndoesJoin(parts[1..], c);
        assert whole == [c] + Join(parts[1..], [c]);
        assert parts == [[]] + parts[1..];
      }
    } else {
      var shorter := [p[1..]] + parts[1..];
      assert shorter[1..] == parts[1..];
      forall i | 0 <= i < |shorter| ensures c !in shorter[i] {
        if i > 0 { assert shorter[i] == parts[i]; }
      }
      SplitUndoesJoin(shorter, c);
      assert p[0] in parts[0];
      assert whole == [p[0]] + Join(shorter, [c]);
      assert whole[1..] == Join(shorter, [c]);
      assert [p[0]] + p[1..] == p && parts == [p] + parts[1..];
    }
  }

  lemma {:induction false} NonEmptyIsFilter(parts: seq<string>, p: string)
    ensures p in NonEmpty(parts) <==> p in parts && p != []
  {
    if parts != [] {
      NonEmptyIsFilter(parts[1..], p);
    }
  }

  lemma {:induction false} NonEmptyKeeps(parts: seq<string>)
    requires forall i :: 0 <= i < |parts| ==> parts[i] != []
    ensures NonEmpty(parts) == parts
  {
    if parts != [] {
      NonEmptyKeeps(parts[1..]);
    }
  }

  lemma {:induction false} NonEmptySnoc(parts: seq<string>, p: string)
    ensures NonEmpty(parts + [p]) == NonEmpty(parts) + if p == [] then [] else [p]
  {
    if parts != [] {
      NonEmptySnoc(parts[1..], p);
      assert (parts + [p])[1..] == parts[1..] + [p];
    }
  }
}
