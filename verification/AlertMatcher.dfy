/** The regular expression that routes alerts (templates/alertmanagerconfig.go), and what it matches. */
module AlertMatcher {
  import opened Wrappers
  import opened Text

  function GetRegexMatcher(alerts: seq<string>): string {
    "^" + Join(alerts, "$|^") + "$"
  }

  predicate Metacharacter(c: char) {
    c == '\\' || c == '.' || c == '+' || c == '*' || c == '?' || c == '(' || c == ')' || c == '|' ||
    c == '[' || c == ']' || c == '{' || c == '}' || c == '^' || c == '$'
  }

  predicate Plain(name: string) {
    forall i :: 0 <= i < |name| ==> !Metacharacter(name[i])
  }

  // ----- the regular expressions that need no more than alternation and anchors -----

  datatype Item = TextBegin | TextEnd | Literal(c: char)

  /** One branch, character by character; None when it uses another operator. */
  function ParseBranch(branch: string): Option<seq<Item>> {
    if branch == [] then Some([])
    else
      var rest := ParseBranch(branch[1..]);
      if rest.None? then None
      else if branch[0] == '^' then Some([TextBegin] + rest.value)
      else if branch[0] == '$' then Some([TextEnd] + rest.value)
      else if Metacharacter(branch[0]) then None
      else Some([Literal(branch[0])] + rest.value)
  }

  predicate MatchesAt(items: seq<Item>, s: string, at: nat) {
    if items == [] then true
    else
      match items[0]
      case TextBegin => at == 0 && MatchesAt(items[1..], s, at)
      case TextEnd => at == |s| && MatchesAt(items[1..], s, at)
      case Literal(c) => at < |s| && s[at] == c && MatchesAt(items[1..], s, at + 1)
  }

  /** Unanchored search: some branch matches at some position. */
  ghost predicate Matches(pattern: string, s: string) {
    exists i, at :: 0 <= i < |Split(pattern, '|')| && 0 <= at <= |s| && BranchMatches(Split(pattern, '|')[i], s, at)
  }

  predicate BranchMatches(branch: string, s: string, at: nat) {
    ParseBranch(branch).Some? && MatchesAt(ParseBranch(branch).value, s, at)
  }

  // ----- printing and parsing back -----

  function Anchored(alerts: seq<string>): (branches: seq<string>)
    ensures |branches| == |alerts|
    ensures forall i :: 0 <= i < |alerts| ==> branches[i] == "^" + alerts[i] + "$"
  {
    if alerts == [] then [] else ["^" + alerts[0] + "$"] + Anchored(alerts[1..])
  }

  lemma Assoc(a: string, b: string, c: string)
    ensures a + (b + c) == (a + b) + c
  {
  }

  /** The separator closes one branch, and opens the next one. */
  lemma Regroup(name: string, tail: string)
    ensures "^" + (name + "$|^" + tail) + "$" == ("^" + name + "$") + "|" + ("^" + tail + "$")
  {
    var open, close := "^" + name, tail + "$";
    assert "$|^" == "$" + ("|" + "^");
    Assoc("^", name, "$|^");
    Assoc("^", name + "$|^", tail);
    Assoc(open + "$|^", tail, "$");
    Assoc(open, "$", "|" + "^");
    Assoc(open + "$", "|", "^");
    Assoc((open + "$") + "|", "^", close);
    Assoc("^", tail, "$");
  }

  lemma {:induction false} PrintedIsJoin(alerts: seq<string>)
    requires alerts != []
    ensures GetRegexMatcher(alerts) == Join(Anchored(alerts), "|")
  {
    if |alerts| > 1 {
      PrintedIsJoin(alerts[1..]);
      var tail := Join(alerts[1..], "$|^");
      Regroup(alerts[0], tail);
      assert Anchored(alerts)[1..] == Anchored(alerts[1..]);
    }
  }

  lemma AnchoredHasNoBar(name: string)
    requires Plain(name)
    ensures '|' !in "^" + name + "$"
  {
    assert forall i :: 0 <= i < |name| ==> name[i] != '|';
  }

  lemma PrintedParsesBack(alerts: seq<string>)
    requires alerts != [] && forall i :: 0 <= i < |alerts| ==> Plain(alerts[i])
    ensures Split(GetRegexMatcher(alerts), '|') == Anchored(alerts)
  {
    PrintedIsJoin(alerts);
    forall i | 0 <= i < |alerts| ensures '|' !in Anchored(alerts)[i] {
      AnchoredHasNoBar(alerts[i]);
    }
    SplitUndoesJoin(Anchored(alerts), '|');
  }

  /** The rest of an anchored literal matches at a position exactly when it is the rest of s. */
  lemma {:induction false} RestMatches(name: string, s: string, at: nat)
    requires Plain(name) && at <= |s|
    ensures ParseBranch(name + "$").Some?
    ensures MatchesAt(ParseBranch(name + "$").value, s, at) <==> s[at..] == name
  {
    var branch := name + "$";
    if name == [] {
      assert branch == "$" && branch[1..] == [];
      assert ParseBranch(branch) == Some([TextEnd] + []);
      var items := ParseBranch(branch).value;
      assert items[0] == TextEnd && items[1..] == [];
      assert MatchesAt(items[1..], s, at);
    } else {
      assert branch[1..] == name[1..] + "$";
      assert branch[0] == name[0] && !Metacharacter(name[0]);
      if at < |s| {
        RestMatches(name[1..], s, at + 1);
        assert s[at..] == [s[at]] + s[at + 1..];
      } else {
        RestMatches(name[1..], s, at);
      }
    }
  }

  lemma BranchIsEquality(name: string, s: string, at: nat)
    requires Plain(name) && at <= |s|
    ensures BranchMatches("^" + name + "$", s, at) <==> at == 0 && s == name
  {
    var branch := "^" + name + "$";
    assert branch[1..] == name + "$";
    RestMatches(name, s, at);
    var items := ParseBranch(branch).value;
    assert items[1..] == ParseBranch(name + "$").value;
    assert s[0..] == s;
  }

  /** Main result: for names without metacharacters, the printed expression matches exactly the
      listed names. */
  lemma MatchesExactlyTheList(alerts: seq<string>, s: string)
    requires alerts != [] && forall i :: 0 <= i < |alerts| ==> Plain(alerts[i])
    ensures Matches(GetRegexMatcher(alerts), s) <==> s in alerts
  {
    PrintedParsesBack(alerts);
    var branches := Anchored(alerts);
    forall i, at | 0 <= i < |alerts| && 0 <= at <= |s|
      ensures BranchMatches(branches[i], s, at) <==> at == 0 && s == alerts[i]
    {
      BranchIsEquality(alerts[i], s, at);
    }
    if s in alerts {
      var i :| 0 <= i < |alerts| && alerts[i] == s;
      assert BranchMatches(branches[i], s, 0);
    }
  }

  /** An empty list is not printed faithfully: its expression matches the empty name, and only it. */
  lemma EmptyListMatchesEmptyName(s: string)
    ensures Matches(GetRegexMatcher([]), s) <==> s == ""
  {
    assert GetRegexMatcher([]) == "^" + "" + "$";
    assert GetRegexMatcher([]) == GetRegexMatcher([""]);
    MatchesExactlyTheList([""], s);
  }
}
