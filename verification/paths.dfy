/**
 * The two frontier loops, `build_reverse_path` and `build_forward_path`.
 * Each queries the endpoint for the neighbours of the seed, keeps the rows
 * whose `s` is an IRI, and while there are any: appends a deletion
 * statement for them and a separator, and queries again for the neighbours
 * of those IRIs. Nothing records which IRIs were already seen, so on a
 * cycle the loop never ends; the model bounds the number of rounds by
 * `fuel` and reports `OutOfFuel` when the bound is reached.
 */
module Paths {
  import opened Wrappers
  import opened Json
  import opened Lines
  import opened Queries
  import opened Results
  import opened Snippet
  import opened Endpoint

  /** Reverse follows triples towards their subjects, Forward towards their objects. */
  datatype Direction = Reverse | Forward

  /**
   * How a build ends: with its value, with the error of a failed fetch
   * (whatever was built so far is discarded), with a panic (a row whose `s`
   * is an IRI but whose `s.value` is not a string), or with the round bound
   * reached.
   */
  datatype Outcome<T> = Done(value: T) | FetchFailed | Panicked | OutOfFuel

  /** What separates consecutive statements in the output. */
  const Separator := "\n;\n\n"

  /** The query of a round: the direction's template with `arg` inserted verbatim. */
  function QueryFor(dir: Direction, arg: string): (q: string)
    ensures dir == Reverse ==> Unfill(ReverseTemplate, q) == Some(arg)
    ensures dir == Forward ==> Unfill(ForwardTemplate, q) == Some(arg)
  {
    match dir
    case Reverse => CreateReverseParametrizedQuery(arg)
    case Forward => CreateForwardParametrizedQuery(arg)
  }

  /** One query and the filtered rows of its answer; `None` when the fetch fails. */
  function QueryRound(dir: Direction, endpoint: string -> Reply, arg: string): (r: Option<seq<Json>>)
    ensures r.None? <==> FetchSparqlResults(endpoint(QueryFor(dir, arg))).None?
    ensures r.Some? ==> |r.value| <= |BindingsOf(FetchSparqlResults(endpoint(QueryFor(dir, arg))).value)|
    ensures r.Some? ==> forall k :: 0 <= k < |r.value| ==> IsUriBinding(r.value[k])
  {
    match FetchSparqlResults(endpoint(QueryFor(dir, arg)))
    case None => None
    case Some(r) => Some(UriBindings(BindingsOf(r)))
  }

  /** The `<value>` of each row whose `s.value` is a string, in order; other rows are skipped. */
  function WrappedValues(rs: seq<Json>): (r: seq<string>)
    ensures |r| <= |rs|
  {
    if rs == [] then []
    else
      var last := rs[|rs| - 1];
      WrappedValues(rs[..|rs| - 1]) + (if HasSubjectValue(last) then ["<" + SubjectValue(last) + ">"] else [])
  }

  /** When every row has a string value, each row gives exactly one wrapped value, at its own position. */
  lemma {:induction false} WrappedValuesAll(rs: seq<Json>)
    requires AllHaveSubjectValues(rs)
    ensures |WrappedValues(rs)| == |rs|
    ensures forall k :: 0 <= k < |rs| ==> WrappedValues(rs)[k] == "<" + SubjectValue(rs[k]) + ">"
  {
    if rs != [] {
      WrappedValuesAll(rs[..|rs| - 1]);
    }
  }

  /** The argument of the next round's query: the wrapped values joined by newlines. */
  function FrontierArgument(rs: seq<Json>): (r: string)
    ensures rs == [] ==> r == ""
    ensures rs != [] && AllHaveSubjectValues(rs) ==> "<" + SubjectValue(rs[0]) + ">" <= r
  {
    if rs != [] && AllHaveSubjectValues(rs) then
      WrappedValuesAll(rs);
      JoinLines(WrappedValues(rs))
    else
      JoinLines(WrappedValues(rs))
  }

  /** From one round's rows, the next round's (`None` when the fetch fails). */
  type Step = seq<Json> -> Option<seq<Json>>

  /** The step of the loop: query for the neighbours of the current rows' values, then filter. */
  function NextRound(dir: Direction, endpoint: string -> Reply): Step
  {
    rs => QueryRound(dir, endpoint, FrontierArgument(rs))
  }

  /**
   * The rows of the successive rounds, from the current rows `rs` on, for at
   * most `fuel` rounds: a round runs while there are rows, panics when one of
   * them has no string value, and otherwise asks `next` for the next rows.
   */
  function Walk(next: Step, rs: seq<Json>, fuel: nat): (o: Outcome<seq<seq<Json>>>)
    ensures o.Done? ==> |o.value| <= fuel
    decreases fuel
  {
    if rs == [] then Done([])
    else if fuel == 0 then OutOfFuel
    else if !AllHaveSubjectValues(rs) then Panicked
    else
      match next(rs)
      case None => FetchFailed
      case Some(rows) =>
        match Walk(next, rows, fuel - 1)
        case Done(fs) => Done([rs] + fs)
        case FetchFailed => FetchFailed
        case Panicked => Panicked
        case OutOfFuel => OutOfFuel
  }

  /** The statements of the given rounds, each followed by the separator, in order. */
  function Statements(fs: seq<seq<Json>>): string
  {
    if fs == [] then ""
    else Statements(fs[..|fs| - 1]) + DeleteSnippet(fs[|fs| - 1]) + Separator
  }

  /** The whole build from the seed `uri`: the statements of all its rounds. */
  function Path(dir: Direction, endpoint: string -> Reply, uri: string, fuel: nat): (r: Outcome<string>)
    ensures QueryRound(dir, endpoint, uri).None? ==> r == FetchFailed
    ensures QueryRound(dir, endpoint, uri) == Some([]) ==> r == Done("")
  {
    match QueryRound(dir, endpoint, uri)
    case None => FetchFailed
    case Some(results) =>
      Emit(Walk(NextRound(dir, endpoint), results, fuel))
  }

  /** The text of the rounds when the loop ends normally; failures pass through. */
  function Emit(o: Outcome<seq<seq<Json>>>): Outcome<string>
  {
    match o
    case Done(fs) => Done(Statements(fs))
    case FetchFailed => FetchFailed
    case Panicked => Panicked
    case OutOfFuel => OutOfFuel
  }

  /** `done` before the rounds of `o`; failures pass through. */
  function Extend(done: seq<seq<Json>>, o: Outcome<seq<seq<Json>>>): Outcome<seq<seq<Json>>>
  {
    match o
    case Done(fs) => Done(done + fs)
    case FetchFailed => FetchFailed
    case Panicked => Panicked
    case OutOfFuel => OutOfFuel
  }

  /**
   * The next query lists the current IRIs, one `<iri>` per line, in order;
   * provided there are some and none holds a newline.
   */
  lemma FrontierRoundTrip(rs: seq<Json>)
    requires rs != [] && AllHaveSubjectValues(rs)
    requires ValuesHaveNoNewline(rs)
    ensures var lines := SplitLines(FrontierArgument(rs));
      |lines| == |rs| && forall k :: 0 <= k < |rs| ==> lines[k] == "<" + SubjectValue(rs[k]) + ">"
  {
    var ws := WrappedValues(rs);
    WrappedValuesAll(rs);
    forall k | 0 <= k < |ws|
      ensures NoNewline(ws[k])
    {
      assert ws[k] == "<" + SubjectValue(rs[k]) + ">";
      assert NoNewline("<") && NoNewline(">");
    }
    SplitJoin(ws);
  }

  /** More fuel changes nothing once the loop has ended within the bound. */
  lemma {:induction false} WalkFuelMonotone(next: Step, rs: seq<Json>, f: nat, g: nat)
    requires f <= g
    requires Walk(next, rs, f) != OutOfFuel
    ensures Walk(next, rs, g) == Walk(next, rs, f)
    decreases f
  {
    if rs != [] && AllHaveSubjectValues(rs) && next(rs).Some? {
      WalkFuelMonotone(next, next(rs).value, f - 1, g - 1);
    }
  }

  /**
   * The rounds of a finished walk start with the first rows, each round's
   * rows give the next round's, and the walk stops exactly when a round's
   * query yields no rows; without rows to begin with there is no round.
   */
  lemma {:induction false} WalkRounds(next: Step, rs: seq<Json>, fuel: nat, fs: seq<seq<Json>>)
    requires Walk(next, rs, fuel) == Done(fs)
    ensures fs == [] <==> rs == []
    ensures fs != [] ==> fs[0] == rs && next(fs[|fs| - 1]) == Some([])
    ensures forall i :: 0 <= i < |fs| - 1 ==> next(fs[i]) == Some(fs[i + 1])
    ensures forall i :: 0 <= i < |fs| ==> fs[i] != [] && AllHaveSubjectValues(fs[i])
    decreases fuel
  {
    if rs != [] {
      var rows := next(rs).value;
      var tail := Walk(next, rows, fuel - 1).value;
      WalkRounds(next, rows, fuel - 1, tail);
      assert fs == [rs] + tail;
      forall i | 0 <= i < |fs| - 1
        ensures next(fs[i]) == Some(fs[i + 1])
      {
        if i > 0 {
          assert fs[i] == tail[i - 1] && fs[i + 1] == tail[i];
        }
      }
    }
  }

  lemma ExtendNothing(o: Outcome<seq<seq<Json>>>)
    ensures Extend([], o) == o
  {
    if o.Done? {
      assert [] + o.value == o.value;
    }
  }

  /** One round of the walk moves its rows from the rounds to come to the rounds done. */
  lemma WalkStep(next: Step, done: seq<seq<Json>>, rs: seq<Json>, rows: seq<Json>, fuel: nat)
    requires rs != [] && fuel > 0 && AllHaveSubjectValues(rs) && next(rs) == Some(rows)
    ensures Extend(done, Walk(next, rs, fuel)) == Extend(done + [rs], Walk(next, rows, fuel - 1))
  {
    match Walk(next, rows, fuel - 1)
    case Done(fs) =>
      assert (done + [rs]) + fs == done + ([rs] + fs);
    case _ =>
  }

  /**
   * The text of consecutive runs of rounds is the concatenation of their
   * texts: each round contributes its own statement and separator and
   * nothing else.
   */
  lemma {:induction false} StatementsConcat(a: seq<seq<Json>>, b: seq<seq<Json>>)
    ensures Statements(a + b) == Statements(a) + Statements(b)
    decreases |b|
  {
    if b == [] {
      assert a + b == a;
    } else {
      var init, last := b[..|b| - 1], b[|b| - 1];
      var tail := DeleteSnippet(last) + Separator;
      assert (a + b)[..|a + b| - 1] == a + init && (a + b)[|a + b| - 1] == last;
      assert Statements(a + b) == Statements(a + init) + tail;
      assert Statements(b) == Statements(init) + tail;
      StatementsConcat(a, init);
      AppendAssoc(Statements(a), Statements(init), tail);
    }
  }

  /** The text is empty exactly when there are no rounds: every round writes a statement. */
  lemma StatementsEmpty(fs: seq<seq<Json>>)
    ensures Statements(fs) == "" <==> fs == []
  {
    if fs != [] {
      assert |Statements(fs)| >= |Separator| > 0;
    }
  }

  /**
   * A round whose query gives back its own rows (a cycle in the data) runs
   * forever: whatever the bound, the walk ends with `OutOfFuel`.
   */
  lemma {:induction false} WalkCycle(next: Step, rs: seq<Json>, fuel: nat)
    requires rs != [] && AllHaveSubjectValues(rs) && next(rs) == Some(rs)
    ensures Walk(next, rs, fuel) == OutOfFuel
    decreases fuel
  {
    if fuel > 0 {
      WalkCycle(next, rs, fuel - 1);
    }
  }

  /**
   * The loop's step gives no rows exactly when its query is answered and
   * no row of the answer binds `s` to an IRI.
   */
  lemma NextRoundEmpty(dir: Direction, endpoint: string -> Reply, rs: seq<Json>)
    ensures NextRound(dir, endpoint)(rs) == Some([]) <==>
      var a := FetchSparqlResults(endpoint(QueryFor(dir, FrontierArgument(rs))));
      a.Some? && NoUriBinding(BindingsOf(a.value))
  {
    var a := FetchSparqlResults(endpoint(QueryFor(dir, FrontierArgument(rs))));
    if a.Some? {
      UriBindingsEmpty(BindingsOf(a.value));
    }
  }

  /** A failing status mid-way ends the loop as if no neighbours were found; the rounds so far are kept. */
  lemma ErrorStatusEndsLoop(dir: Direction, endpoint: string -> Reply, rs: seq<Json>, fuel: nat)
    requires rs != [] && AllHaveSubjectValues(rs) && fuel > 0
    requires endpoint(QueryFor(dir, FrontierArgument(rs))).Response?
    requires !IsSuccess(endpoint(QueryFor(dir, FrontierArgument(rs))).status)
    ensures Walk(NextRound(dir, endpoint), rs, fuel) == Done([rs])
  {
    assert NextRound(dir, endpoint)(rs) == Some([]);
    assert Walk(NextRound(dir, endpoint), [], fuel - 1) == Done([]);
    assert [rs] + [] == [rs];
  }

  /**
   * The forward query selects `?o`, but only `s` is inspected: if no row of
   * its answer binds `s`, the forward build yields the empty text.
   */
  lemma ForwardRowsWithoutSubjectYieldNothing(endpoint: string -> Reply, uri: string, fuel: nat)
    requires endpoint(QueryFor(Forward, uri)).Response?
    requires endpoint(QueryFor(Forward, uri)).body.Some?
    requires IsSuccess(endpoint(QueryFor(Forward, uri)).status)
    requires var rows := BindingsOf(endpoint(QueryFor(Forward, uri)).body.value);
      forall k :: 0 <= k < |rows| ==> Get(rows[k], "s").None?
    ensures Path(Forward, endpoint, uri, fuel) == Done("")
  {
    RowsWithoutSubjectDropped(BindingsOf(endpoint(QueryFor(Forward, uri)).body.value));
  }

  /** One query and its filtering: the fetch, then `parse_json_uris` on the answer. */
  method RunQuery(dir: Direction, endpoint: string -> Reply, arg: string) returns (rows: Option<seq<Json>>)
    ensures rows == QueryRound(dir, endpoint, arg)
  {
    var r := FetchSparqlResults(endpoint(QueryFor(dir, arg)));
    if r.None? {
      return None;
    }
    var v := ParseJsonUris(r.value);
    rows := Some(v);
  }

  /** The loop body's output: the round's statement, then the separator, pushed onto `s`. */
  method PushRound(ghost done: seq<seq<Json>>, s: string, results: seq<Json>) returns (t: string)
    requires AllHaveSubjectValues(results)
    requires s == Statements(done)
    ensures t == Statements(done + [results])
  {
    var snippet := BuildDeleteSnippet(results);
    t := s + snippet;
    t := t + Separator;
  }

  /**
   * One pass of the loop body on the current rows: the build's outcome when
   * the loop stops here (round bound reached, a panic, a failed fetch),
   * otherwise the text with this round's statement pushed and the next
   * round's rows.
   */
  method Round(next: Step, ghost done: seq<seq<Json>>, s: string, results: seq<Json>, left: nat)
    returns (stop: Option<Outcome<string>>, t: string, rows: seq<Json>)
    requires results != []
    requires s == Statements(done)
    ensures stop.Some? ==> stop.value == Emit(Extend(done, Walk(next, results, left)))
    ensures stop.None? ==> left > 0 && t == Statements(done + [results])
    ensures stop.None? ==> Extend(done, Walk(next, results, left)) == Extend(done + [results], Walk(next, rows, left - 1))
  {
    t, rows := s, results;
    if left == 0 {
      return Some(OutOfFuel), t, rows;
    }
    if !AllHaveSubjectValues(results) {
      return Some(Panicked), t, rows;
    }
    t := PushRound(done, s, results);
    var r := next(results);
    if r.None? {
      return Some(FetchFailed), t, rows;
    }
    WalkStep(next, done, results, r.value, left);
    stop, rows := None, r.value;
  }

  /**
   * The `while` loop shared by both builds: from the current rows, write each
   * round's statement and separator, then move to the rows `next` gives for
   * them (for a build, `NextRound`: the frontier query, its fetch and the
   * filter of its answer).
   */
  method Rounds(next: Step, first: seq<Json>, fuel: nat) returns (out: Outcome<string>)
    ensures out == Emit(Walk(next, first, fuel))
  {
    var s := "";
    var results := first;
    ghost var whole := Walk(next, first, fuel);
    ghost var done: seq<seq<Json>> := [];
    ExtendNothing(whole);
    var left := fuel;
    while results != []
      invariant s == Statements(done)
      invariant whole == Extend(done, Walk(next, results, left))
      decreases left
    {
      var stop, t, rows := Round(next, done, s, results, left);
      if stop.Some? {
        return stop.value;
      }
      done := done + [results];
      s, results, left := t, rows, left - 1;
    }
    assert done + [] == done;
    out := Done(s);
  }

  /** Both builds: the first query on the seed, then the rounds. */
  method BuildPath(dir: Direction, endpoint: string -> Reply, uri: string, fuel: nat) returns (out: Outcome<string>)
    ensures out == Path(dir, endpoint, uri, fuel)
    ensures QueryRound(dir, endpoint, uri) == Some([]) ==> out == Done("")
  {
    var r := RunQuery(dir, endpoint, uri);
    if r.None? {
      return FetchFailed;
    }
    out := Rounds(NextRound(dir, endpoint), r.value, fuel);
  }

  /** `build_reverse_path`: the loop over subjects of triples pointing at the current IRIs. */
  method BuildReversePath(endpoint: string -> Reply, uri: string, fuel: nat) returns (out: Outcome<string>)
    ensures out == Path(Reverse, endpoint, uri, fuel)
  {
    out := BuildPath(Reverse, endpoint, uri, fuel);
  }

  /** `build_forward_path`: the loop over objects of triples leaving the current IRIs. */
  method BuildForwardPath(endpoint: string -> Reply, uri: string, fuel: nat) returns (out: Outcome<string>)
    ensures out == Path(Forward, endpoint, uri, fuel)
  {
    out := BuildPath(Forward, endpoint, uri, fuel);
  }
}
