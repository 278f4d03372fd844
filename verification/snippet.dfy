/**
 * The deletion statement built from filtered rows: a SPARQL 1.1 Update
 * `DELETE … WHERE` (section 3.1.3 of SPARQL 1.1 Update) whose
 * `VALUES ?s { … }` block (section 10.2.1 of SPARQL 1.1 Query) lists the
 * IRI bound to `s` in every row, one per line, in the rows' order.
 */
module Snippet {
  import opened Json
  import opened Lines
  import opened Results

  /** The statement's fixed text before the IRIs. */
  const DeleteHeader :=
    "DELETE {" + "\n" + "  GRAPH ?g {" + "\n" + "    ?s ?p ?o ." + "\n" + "  }" + "\n" + "}" + "\n" +
    "WHERE {" + "\n" + "  VALUES ?s {" + "\n"
  /** The closing brace of the `VALUES` block. */
  const ValuesClose := "  }\n"
  /** The statement's fixed text after the `VALUES` block: an empty line, then the graph pattern. */
  const DeleteFooter :=
    "" + "\n" + "  GRAPH ?g {" + "\n" + "    ?s ?p ?o ." + "\n" + "  }" + "\n" + "}" + "\n"

  /** The lines of the header, each ended by a newline in the text. */
  const HeaderLines := ["DELETE {", "  GRAPH ?g {", "    ?s ?p ?o .", "  }", "}", "WHERE {", "  VALUES ?s {"]
  /** The lines of the footer, each ended by a newline in the text. */
  const FooterLines := ["", "  GRAPH ?g {", "    ?s ?p ?o .", "  }", "}"]

  /** The `VALUES` line of each row, without its newline: the IRI in angle brackets, indented by four. */
  function ValueTexts(rs: seq<Json>): seq<string>
  {
    if rs == [] then []
    else ValueTexts(rs[..|rs| - 1]) + ["    <" + SubjectValue(rs[|rs| - 1]) + ">"]
  }

  /** One `VALUES` line per row, at the row's own position. */
  lemma {:induction false} ValueTextsAt(rs: seq<Json>)
    ensures |ValueTexts(rs)| == |rs|
    ensures forall k :: 0 <= k < |rs| ==> ValueTexts(rs)[k] == "    <" + SubjectValue(rs[k]) + ">"
  {
    if rs != [] {
      ValueTextsAt(rs[..|rs| - 1]);
    }
  }

  function ValuesBlock(rs: seq<Json>): string
  {
    Terminated(ValueTexts(rs))
  }

  /** The statement: fixed header, the `VALUES` lines, the closing brace, fixed footer. */
  function DeleteSnippet(rs: seq<Json>): string
  {
    DeleteHeader + ValuesBlock(rs) + ValuesClose + DeleteFooter
  }

  /**
   * Every statement starts with the fixed header and ends with the fixed
   * footer; without rows nothing else but the closing brace is in between.
   */
  lemma SnippetFrame(rs: seq<Json>)
    ensures DeleteHeader <= DeleteSnippet(rs)
    ensures var r := DeleteSnippet(rs); |DeleteFooter| <= |r| && r[|r| - |DeleteFooter|..] == DeleteFooter
    ensures rs == [] ==> DeleteSnippet(rs) == DeleteHeader + ValuesClose + DeleteFooter
  {
    var r := DeleteSnippet(rs);
    var front := DeleteHeader + ValuesBlock(rs) + ValuesClose;
    assert r == front + DeleteFooter;
    assert r[..|DeleteHeader|] == DeleteHeader;
    assert r[|front|..] == DeleteFooter;
  }

  lemma ClosingBrace()
    ensures ValuesClose == "  }" + "\n" && NoNewline("  }")
  {
  }

  lemma EmptyTextLines()
    ensures SplitLines("") == [""]
  {
  }

  /** The closing brace of the `VALUES` block, then newline-terminated footer lines. */
  lemma ClosingLines(footer: seq<string>)
    requires AllNoNewline(footer)
    ensures SplitLines(ValuesClose + Terminated(footer)) == ["  }"] + footer + [""]
  {
    var tail := Terminated(footer);
    EmptyTextLines();
    SplitTerminated(footer, "");
    assert tail + "" == tail;
    ClosingBrace();
    SplitAfterLine("  }", tail);
    AppendAssoc(["  }"], footer, [""]);
  }

  /** Line structure of header lines, value lines, the closing brace and footer lines, each newline-terminated. */
  lemma StatementLines(header: seq<string>, values: seq<string>, footer: seq<string>)
    requires AllNoNewline(header) && AllNoNewline(values) && AllNoNewline(footer)
    ensures SplitLines(Terminated(header) + Terminated(values) + ValuesClose + Terminated(footer))
         == header + values + ["  }"] + footer + [""]
  {
    var close := ValuesClose + Terminated(footer);
    ClosingLines(footer);
    SplitTerminated(values, close);
    SplitTerminated(header, Terminated(values) + close);
    AppendAssoc(Terminated(header), Terminated(values), ValuesClose);
    AppendAssoc(Terminated(header) + Terminated(values), ValuesClose, Terminated(footer));
    AppendAssoc(Terminated(header), Terminated(values), close);
    AppendAssoc(header, values, ["  }"] + footer + [""]);
    AppendAssoc(header + values, ["  }"] + footer, [""]);
    AppendAssoc(header + values, ["  }"], footer);
  }

  lemma FixedLinesHaveNoNewline()
    ensures AllNoNewline(HeaderLines) && AllNoNewline(FooterLines)
  {
  }

  /** The header is made of exactly its listed lines. */
  lemma HeaderTextLines()
    ensures DeleteHeader == Terminated(HeaderLines)
  {
    var h := HeaderLines;
    TerminatedSnoc([], h[0]);
    assert [h[0]] == h[..1] && "" + h[0] == h[0];
    TerminatedSnoc(h[..1], h[1]); assert h[..1] + [h[1]] == h[..2];
    TerminatedSnoc(h[..2], h[2]); assert h[..2] + [h[2]] == h[..3];
    TerminatedSnoc(h[..3], h[3]); assert h[..3] + [h[3]] == h[..4];
    TerminatedSnoc(h[..4], h[4]); assert h[..4] + [h[4]] == h[..5];
    TerminatedSnoc(h[..5], h[5]); assert h[..5] + [h[5]] == h[..6];
    TerminatedSnoc(h[..6], h[6]); assert h[..6] + [h[6]] == h;
  }

  /** The footer is made of exactly its listed lines. */
  lemma FooterTextLines()
    ensures DeleteFooter == Terminated(FooterLines)
  {
    var f := FooterLines;
    TerminatedSnoc([], f[0]);
    assert [f[0]] == f[..1] && "" + f[0] == f[0];
    assert Terminated(f[..1]) == "" + "\n";
    TerminatedSnoc(f[..1], f[1]); assert f[..1] + [f[1]] == f[..2];
    assert Terminated(f[..2]) == "" + "\n" + "  GRAPH ?g {" + "\n";
    TerminatedSnoc(f[..2], f[2]); assert f[..2] + [f[2]] == f[..3];
    assert Terminated(f[..3]) == "" + "\n" + "  GRAPH ?g {" + "\n" + "    ?s ?p ?o ." + "\n";
    TerminatedSnoc(f[..3], f[3]); assert f[..3] + [f[3]] == f[..4];
    assert Terminated(f[..4]) == "" + "\n" + "  GRAPH ?g {" + "\n" + "    ?s ?p ?o ." + "\n" + "  }" + "\n";
    TerminatedSnoc(f[..4], f[4]); assert f[..4] + [f[4]] == f;
  }

  /** No row's `s.value` holds a newline. */
  predicate ValuesHaveNoNewline(rs: seq<Json>) {
    forall k :: 0 <= k < |rs| ==> NoNewline(SubjectValue(rs[k]))
  }

  /** The statement's lines around any newline-free value lines. */
  lemma FixedStatementLines(values: seq<string>)
    requires AllNoNewline(values)
    ensures SplitLines(DeleteHeader + Terminated(values) + ValuesClose + DeleteFooter)
         == HeaderLines + values + ["  }"] + FooterLines + [""]
  {
    FixedLinesHaveNoNewline();
    HeaderTextLines();
    FooterTextLines();
    StatementLines(HeaderLines, values, FooterLines);
  }

  lemma ValueTextsHaveNoNewline(rs: seq<Json>)
    requires AllHaveSubjectValues(rs)
    requires ValuesHaveNoNewline(rs)
    ensures AllNoNewline(ValueTexts(rs))
  {
    var values := ValueTexts(rs);
    ValueTextsAt(rs);
    forall k | 0 <= k < |values|
      ensures NoNewline(values[k])
    {
      assert values[k] == "    <" + SubjectValue(rs[k]) + ">";
      assert NoNewline("    <") && NoNewline(">");
    }
  }

  /**
   * Read line by line, the statement is the fixed header, then exactly one
   * line `    <iri>` per row, in the rows' order, then the fixed closing
   * lines; provided no IRI holds a newline.
   */
  lemma SnippetLines(rs: seq<Json>)
    requires AllHaveSubjectValues(rs)
    requires ValuesHaveNoNewline(rs)
    ensures SplitLines(DeleteSnippet(rs)) == HeaderLines + ValueTexts(rs) + ["  }"] + FooterLines + [""]
  {
    ValueTextsHaveNoNewline(rs);
    FixedStatementLines(ValueTexts(rs));
  }

  /** `build_delete_snippet`: the header, one pushed `VALUES` line per row, then the closing text. */
  method BuildDeleteSnippet(results: seq<Json>) returns (s: string)
    requires AllHaveSubjectValues(results)
    ensures s == DeleteSnippet(results)
    ensures results == [] ==> s == DeleteHeader + ValuesClose + DeleteFooter
  {
    s := DeleteHeader;
    var values := "";
    for i := 0 to |results|
      invariant values == ValuesBlock(results[..i])
    {
      assert results[..i + 1][..i] == results[..i];
      var iri := AsStr(At(At(results[i], "s"), "value")).value;
      values := values + ("    <" + iri + ">\n");
    }
    assert results[..|results|] == results;
    s := s + values;
    s := s + ValuesClose;
    s := s + DeleteFooter;
  }
}
