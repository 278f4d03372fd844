/**
 * Line structure of text: splitting at '\n' (as `str::split('\n')` does),
 * joining with "\n" (as `join("\n")` on a vector of strings does), and
 * text made of newline-terminated lines. These give the reference reading
 * of the generated SPARQL text: which lines it consists of.
 */
module Lines {

  predicate NoNewline(line: string) {
    '\n' !in line
  }

  predicate AllNoNewline(lines: seq<string>) {
    forall k :: 0 <= k < |lines| ==> NoNewline(lines[k])
  }

  /** The pieces of `s` between newlines: n newlines give n + 1 pieces, none holding a newline. */
  function SplitLines(s: string): (r: seq<string>)
    ensures |r| >= 1
    ensures AllNoNewline(r)
  {
    if s == [] then [""]
    else
      var rest := SplitLines(s[1..]);
      if s[0] == '\n' then [""] + rest
      else [[s[0]] + rest[0]] + rest[1..]
  }

  /** The strings of `xs` with "\n" between consecutive ones; the empty list gives "". */
  function JoinLines(xs: seq<string>): (r: string)
    ensures xs != [] ==> xs[0] <= r
    ensures |xs| >= 2 ==> xs[0] + "\n" <= r
  {
    if xs == [] then ""
    else if |xs| == 1 then xs[0]
    else xs[0] + "\n" + JoinLines(xs[1..])
  }

  /** Each line of `lines` followed by "\n", in order. */
  function Terminated(lines: seq<string>): string
  {
    if lines == [] then ""
    else Terminated(lines[..|lines| - 1]) + lines[|lines| - 1] + "\n"
  }

  /** One more line at the end adds that line and its newline to the text. */
  lemma TerminatedSnoc(lines: seq<string>, x: string)
    ensures Terminated(lines + [x]) == Terminated(lines) + x + "\n"
  {
    assert (lines + [x])[..|lines|] == lines;
  }

  lemma {:induction false} SplitSingleLine(a: string)
    requires NoNewline(a)
    ensures SplitLines(a) == [a]
  {
    if a != [] {
      assert a[0] in a && a == [a[0]] + a[1..];
      SplitSingleLine(a[1..]);
    }
  }

  /** A newline ends the first line exactly where it stands. */
  lemma {:induction false} SplitAfterLine(a: string, b: string)
    requires NoNewline(a)
    ensures SplitLines(a + "\n" + b) == [a] + SplitLines(b)
  {
    var s := a + "\n" + b;
    if a == [] {
      assert s[0] == '\n' && s[1..] == b;
    } else {
      assert s[0] == a[0] && s[1..] == a[1..] + "\n" + b;
      SplitAfterLine(a[1..], b);
      assert [a[0]] + a[1..] == a;
    }
  }

  lemma AppendAssoc<T>(a: seq<T>, b: seq<T>, c: seq<T>)
    ensures a + b + c == a + (b + c)
  {
  }

  /** Newline-terminated lines followed by any text split into those lines, then the text's own. */
  lemma {:induction false} SplitTerminated(lines: seq<string>, rest: string)
    requires AllNoNewline(lines)
    ensures SplitLines(Terminated(lines) + rest) == lines + SplitLines(rest)
  {
    if lines == [] {
      assert "" + rest == rest;
      assert [] + SplitLines(rest) == SplitLines(rest);
    } else {
      var init, last := lines[..|lines| - 1], lines[|lines| - 1];
      var t := Terminated(init);
      var after := last + "\n" + rest;
      assert AllNoNewline(init) by {
        forall k | 0 <= k < |init|
          ensures NoNewline(init[k])
        {
          assert init[k] == lines[k];
        }
      }
      AppendAssoc(t + last, "\n", rest);
      AppendAssoc(t, last, "\n" + rest);
      AppendAssoc(last, "\n", rest);
      assert Terminated(lines) + rest == t + after;
      SplitTerminated(init, after);
      assert NoNewline(last) by {
        assert lines[|lines| - 1] == last;
      }
      SplitAfterLine(last, rest);
      AppendAssoc(init, [last], SplitLines(rest));
      assert init + [last] == lines;
    }
  }

  /** Joining then splitting gives back the lines, when none holds a newline. */
  lemma {:induction false} SplitJoin(xs: seq<string>)
    requires xs != []
    requires AllNoNewline(xs)
    ensures SplitLines(JoinLines(xs)) == xs
  {
    if |xs| == 1 {
      SplitSingleLine(xs[0]);
    } else {
      SplitAfterLine(xs[0], JoinLines(xs[1..]));
      SplitJoin(xs[1..]);
    }
  }

  /** Splitting then joining gives back the text. */
  lemma {:induction false} JoinSplit(s: string)
    ensures JoinLines(SplitLines(s)) == s
  {
    if s != [] {
      var rest := SplitLines(s[1..]);
      JoinSplit(s[1..]);
      if s[0] == '\n' {
        assert ([""] + rest)[1..] == rest;
      } else {
        var r := [[s[0]] + rest[0]] + rest[1..];
        assert r[1..] == rest[1..];
        if |rest| > 1 {
          assert JoinLines(rest) == rest[0] + "\n" + JoinLines(rest[1..]);
        }
        assert s == [s[0]] + s[1..];
      }
    }
  }
}
