/**
 * The three query texts of the deletion tool. Each is a fixed template
 * into which its argument is substituted literally, with no escaping: the
 * result is the template's prefix, the argument, then the suffix.
 */
module Queries {
  import opened Wrappers

  datatype Template = Template(prefix: string, suffix: string)

  /** The query text with `arg` in the template's one placeholder. */
  function Fill(t: Template, arg: string): (q: string)
    ensures |q| == |t.prefix| + |arg| + |t.suffix|
  {
    t.prefix + arg + t.suffix
  }

  /** The argument of a query built from `t`, or `None` when `q` does not have the template's shape. */
  function Unfill(t: Template, q: string): Option<string>
  {
    if |t.prefix| + |t.suffix| <= |q| && q[..|t.prefix|] == t.prefix && q[|q| - |t.suffix|..] == t.suffix
    then Some(q[|t.prefix|..|q| - |t.suffix|])
    else None
  }

  /** The argument is recovered verbatim from the query: it was inserted unchanged. */
  lemma UnfillFill(t: Template, arg: string)
    ensures Unfill(t, Fill(t, arg)) == Some(arg)
  {
  }

  /** Every text of the template's shape is the query of exactly the argument `Unfill` reads from it. */
  lemma FillUnfill(t: Template, q: string, arg: string)
    requires Unfill(t, q) == Some(arg)
    ensures Fill(t, arg) == q
  {
  }

  /** Distinct arguments give distinct queries. */
  lemma FillInjective(t: Template, a: string, b: string)
    requires Fill(t, a) == Fill(t, b)
    ensures a == b
  {
    UnfillFill(t, a);
    UnfillFill(t, b);
  }

  const SimpleDeleteTemplate := Template(
    "DELETE {\n  GRAPH ?g {\n    ?s ?p ?o .\n  }\n}\nWHERE {\n  BIND(",
    " AS ?s)\n\n  GRAPH ?g {\n    ?s ?p ?o .\n  }\n}")

  const ForwardTemplate := Template(
    "\n      SELECT DISTINCT ?o WHERE {\n        VALUES ?values {\n          ",
    "\n        }\n\n        ?values ?p ?o .\n      }\n    ")

  const ReverseTemplate := Template(
    "\n        SELECT DISTINCT ?s WHERE {\n          VALUES ?values {\n            ",
    "\n          }\n\n          ?s ?p ?values .\n        }\n    ")

  /** Deletes every triple, in any graph, whose subject is `uri`. */
  function CreateSimpleForwardParametrizedDeleteQuery(uri: string): (q: string)
    ensures Unfill(SimpleDeleteTemplate, q) == Some(uri)
  {
    UnfillFill(SimpleDeleteTemplate, uri);
    Fill(SimpleDeleteTemplate, uri)
  }

  /** Selects the objects of triples whose subject is one of the values in `uri`. */
  function CreateForwardParametrizedQuery(uri: string): (q: string)
    ensures Unfill(ForwardTemplate, q) == Some(uri)
  {
    UnfillFill(ForwardTemplate, uri);
    Fill(ForwardTemplate, uri)
  }

  /** Selects the subjects of triples whose object is one of the values in `uri`. */
  function CreateReverseParametrizedQuery(uri: string): (q: string)
    ensures Unfill(ReverseTemplate, q) == Some(uri)
  {
    UnfillFill(ReverseTemplate, uri);
    Fill(ReverseTemplate, uri)
  }
}
