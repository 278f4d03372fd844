/**
 * The result filter: from a SPARQL 1.1 Query Results JSON document, the
 * rows of `results.bindings` whose `s` variable is bound to an IRI
 * (an RDF term encoded with `"type": "uri"`), in their original order.
 */
module Results {
  import opened Wrappers
  import opened Json

  /** `binding["s"]["type"] == "uri"` */
  predicate IsUriBinding(b: Json): (r: bool)
    ensures r ==> b.Obj? && "s" in b.fields && At(b, "s").Obj? && "type" in At(b, "s").fields
  {
    At(At(b, "s"), "type") == Str("uri")
  }

  /** `binding["s"]["value"].as_str()` is some string. */
  predicate HasSubjectValue(b: Json) {
    AsStr(At(At(b, "s"), "value")).Some?
  }

  /**
   * The string under `s.value`. A row without one never has its value
   * written out (the tool panics on it first), so the empty string given
   * for it here is never observed.
   */
  function SubjectValue(b: Json): (r: string)
    ensures HasSubjectValue(b) ==> At(At(b, "s"), "value") == Str(r)
    ensures !HasSubjectValue(b) ==> r == ""
  {
    match AsStr(At(At(b, "s"), "value"))
    case Some(t) => t
    case None => ""
  }

  predicate AllHaveSubjectValues(rs: seq<Json>) {
    forall k :: 0 <= k < |rs| ==> HasSubjectValue(rs[k])
  }

  /**
   * The rows of the document: the array under `results.bindings`, or none at
   * all when `results` is missing, `bindings` is missing or is not an array.
   */
  function BindingsOf(value: Json): (r: seq<Json>)
    ensures At(At(value, "results"), "bindings").Arr? ==> r == At(At(value, "results"), "bindings").items
    ensures !At(At(value, "results"), "bindings").Arr? ==> r == []
  {
    match Get(value, "results")
    case None => []
    case Some(res) =>
      match Get(res, "bindings")
      case None => []
      case Some(bindings) =>
        match AsArray(bindings)
        case None => []
        case Some(rows) => rows
  }

  /** The rows of `bs` that bind `s` to an IRI, in order. */
  function UriBindings(bs: seq<Json>): (r: seq<Json>)
    ensures |r| <= |bs|
    ensures forall k :: 0 <= k < |r| ==> IsUriBinding(r[k])
  {
    if bs == [] then []
    else
      var last := bs[|bs| - 1];
      UriBindings(bs[..|bs| - 1]) + (if IsUriBinding(last) then [last] else [])
  }

  /** The filter acts on each part of a sequence on its own, so it keeps the original order. */
  lemma {:induction false} UriBindingsAppend(a: seq<Json>, b: seq<Json>)
    ensures UriBindings(a + b) == UriBindings(a) + UriBindings(b)
  {
    if b != [] {
      var init, last := b[..|b| - 1], b[|b| - 1];
      assert (a + b)[..|a + b| - 1] == a + init;
      UriBindingsAppend(a, init);
    } else {
      assert a + b == a;
    }
  }

  /** A row is kept exactly when it is in the input and binds `s` to an IRI. */
  lemma {:induction false} UriBindingsMembership(bs: seq<Json>, x: Json)
    ensures x in UriBindings(bs) <==> x in bs && IsUriBinding(x)
  {
    if bs != [] {
      var init, last := bs[..|bs| - 1], bs[|bs| - 1];
      assert bs == init + [last];
      UriBindingsMembership(init, x);
    }
  }

  /** Nothing is dropped exactly when every row binds `s` to an IRI. */
  lemma {:induction false} UriBindingsKeepsAll(bs: seq<Json>)
    ensures UriBindings(bs) == bs <==> forall k :: 0 <= k < |bs| ==> IsUriBinding(bs[k])
  {
    if bs != [] {
      var init, last := bs[..|bs| - 1], bs[|bs| - 1];
      assert bs == init + [last];
      UriBindingsKeepsAll(init);
      if !IsUriBinding(last) {
        assert |UriBindings(bs)| < |bs|;
      }
      if UriBindings(bs) == bs {
        assert |UriBindings(init)| <= |init|;
        assert IsUriBinding(last);
        assert UriBindings(init) == bs[..|bs| - 1];
      }
    }
  }

  /** No row binds `s` to an IRI. */
  predicate NoUriBinding(bs: seq<Json>) {
    forall k :: 0 <= k < |bs| ==> !IsUriBinding(bs[k])
  }

  /** The filter keeps nothing exactly when no row binds `s` to an IRI. */
  lemma UriBindingsEmpty(bs: seq<Json>)
    ensures UriBindings(bs) == [] <==> NoUriBinding(bs)
  {
    if UriBindings(bs) != [] {
      UriBindingsMembership(bs, UriBindings(bs)[0]);
    }
    forall k | 0 <= k < |bs| && IsUriBinding(bs[k])
      ensures UriBindings(bs) != []
    {
      UriBindingsMembership(bs, bs[k]);
    }
  }

  /** Rows that bind no `s` at all (the rows of a `SELECT ?o` query) are all dropped. */
  lemma {:induction false} RowsWithoutSubjectDropped(bs: seq<Json>)
    requires forall k :: 0 <= k < |bs| ==> Get(bs[k], "s").None?
    ensures UriBindings(bs) == []
  {
    if bs != [] {
      RowsWithoutSubjectDropped(bs[..|bs| - 1]);
    }
  }

  /** `parse_json_uris`: walks the rows and pushes each one whose `s` is an IRI. */
  method ParseJsonUris(value: Json) returns (v: seq<Json>)
    ensures v == UriBindings(BindingsOf(value))
    ensures Get(value, "results").None? ==> v == []
    ensures Get(value, "results").Some? && Get(Get(value, "results").value, "bindings").None? ==> v == []
    ensures (Get(value, "results").Some? && Get(Get(value, "results").value, "bindings").Some? &&
             !Get(Get(value, "results").value, "bindings").value.Arr?) ==> v == []
    ensures value == Null ==> v == []
  {
    v := [];
    var res := Get(value, "results");
    if res.Some? {
      var bindings := Get(res.value, "bindings");
      if bindings.Some? {
        var arr := AsArray(bindings.value);
        if arr.Some? {
          var rows := arr.value;
          for i := 0 to |rows|
            invariant v == UriBindings(rows[..i])
          {
            assert rows[..i + 1][..i] == rows[..i];
            if At(At(rows[i], "s"), "type") == Str("uri") {
              v := v + [rows[i]];
            }
          }
          assert rows[..|rows|] == rows;
        }
      }
    }
  }
}
