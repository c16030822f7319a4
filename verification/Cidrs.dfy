/** The VPC CIDR list on its way from the instance metadata server (utils/imds.go) to the egress
    rules (controllers/managedfusion_controller.go). */
module Cidrs {
  import opened Text

  /** IMDSFetchIPv4CIDR: one line becomes one semicolon-separated field. */
  function Encode(body: string): string {
    Replace(body, '\n', ';')
  }

  /** What the egress builder reads back. */
  function Decode(value: string): seq<string> {
    NonEmpty(Split(value, ';'))
  }

  /** The text between consecutive delimiters, of either kind. */
  function Fields(body: string): (parts: seq<string>)
    ensures |parts| >= 1
  {
    if body == [] then [[]]
    else
      var rest := Fields(body[1..]);
      if body[0] == '\n' || body[0] == ';' then [[]] + rest else [[body[0]] + rest[0]] + rest[1..]
  }

  lemma {:induction false} SplitAfterEncode(body: string)
    ensures Split(Encode(body), ';') == Fields(body)
  {
    if body != [] {
      SplitAfterEncode(body[1..]);
      assert Encode(body)[1..] == Encode(body[1..]);
    }
  }

  /** Every body is read back as its non-empty fields, in order. */
  lemma DecodeEncodeIsFields(body: string)
    ensures Decode(Encode(body)) == NonEmpty(Fields(body))
  {
    SplitAfterEncode(body);
  }

  lemma {:induction false} FieldsAreLines(body: string)
    requires ';' !in body
    ensures Fields(body) == Split(body, '\n')
  {
    if body != [] {
      FieldsAreLines(body[1..]);
    }
  }

  lemma {:induction false} SemicolonStaysInLine(body: string)
    requires ';' in body
    ensures exists i :: 0 <= i < |Split(body, '\n')| && ';' in Split(body, '\n')[i]
  {
    var lines := Split(body, '\n');
    var rest := Split(body[1..], '\n');
    if body[0] == ';' {
      assert ';' in lines[0];
    } else {
      assert ';' in body[1..];
      SemicolonStaysInLine(body[1..]);
      var i :| 0 <= i < |rest| && ';' in rest[i];
      if body[0] == '\n' {
        assert lines[i + 1] == rest[i];
      } else {
        assert ';' in lines[i];
      }
    }
  }

  lemma {:induction false} FieldsHaveNoSemicolon(body: string)
    ensures forall i :: 0 <= i < |Fields(body)| ==> ';' !in Fields(body)[i]
  {
    if body != [] {
      FieldsHaveNoSemicolon(body[1..]);
    }
  }

  /** The fields are the non-empty lines exactly for bodies without semicolons. */
  lemma DecodeEncodeIsLines(body: string)
    ensures Decode(Encode(body)) == NonEmpty(Split(body, '\n')) <==> ';' !in body
  {
    DecodeEncodeIsFields(body);
    if ';' !in body {
      FieldsAreLines(body);
    } else {
      SemicolonStaysInLine(body);
      FieldsHaveNoSemicolon(body);
      var lines := Split(body, '\n');
      var i :| 0 <= i < |lines| && ';' in lines[i];
      NonEmptyIsFilter(lines, lines[i]);
      NonEmptyIsFilter(Fields(body), lines[i]);
    }
  }

  /** Round trip: a list of CIDRs, one per line, comes back as it was. */
  lemma {:induction false} RoundTrip(cidrs: seq<string>)
    requires forall i :: 0 <= i < |cidrs| ==> cidrs[i] != [] && ';' !in cidrs[i] && '\n' !in cidrs[i]
    ensures Decode(Encode(Join(cidrs, ['\n']))) == cidrs
  {
    var body := Join(cidrs, ['\n']);
    JoinHasNo(cidrs, '\n', ';');
    DecodeEncodeIsLines(body);
    NonEmptyKeeps(cidrs);
    if cidrs == [] {
      assert Split(body, '\n') == [[]];
    } else {
      SplitUndoesJoin(cidrs, '\n');
    }
  }

  lemma {:induction false} JoinHasNo(parts: seq<string>, separator: char, c: char)
    requires separator != c && forall i :: 0 <= i < |parts| ==> c !in parts[i]
    ensures c !in Join(parts, [separator])
  {
    if |parts| > 1 {
      JoinHasNo(parts[1..], separator, c);
    }
  }
}
