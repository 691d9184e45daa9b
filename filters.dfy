// The filter expressions written into generated indicators, and a reader
// for them. Each predicate compares one tracked entity attribute with one
// option code and is written `A{<attribute>}=="<code>"`; two predicates are
// joined by ` && `. The reader is the partner of the writer: it recovers the
// (attribute, code) pairs in the order they were written.
module Filters {
  import opened Records

  /** One equality predicate of the downstream expression language. */
  function Clause(attribute: string, code: string): string {
    "A{" + attribute + "}==\"" + code + "\""
  }

  /** Two predicates that must both hold; the first one is written first. */
  function Conjunction(first: string, second: string): string {
    first + " && " + second
  }

  /** A reader can split the clause apart again: the attribute holds no `}` and
      the code no `"`. */
  predicate Readable(attribute: string, code: string) {
    '}' !in attribute && '"' !in code
  }

  /** The text before the first `stop` and the text after it. */
  function ReadUntil(s: string, stop: char): (r: Lookup<(string, string)>)
    ensures r.Found? ==> |r.value.1| < |s|
  {
    if s == [] then Missing
    else if s[0] == stop then Found(([], s[1..]))
    else match ReadUntil(s[1..], stop)
      case Missing => Missing
      case Found((before, after)) => Found(([s[0]] + before, after))
  }

  lemma {:induction false} ReadUntilAt(before: string, stop: char, after: string)
    requires stop !in before
    ensures ReadUntil(before + [stop] + after, stop) == Found((before, after))
  {
    if before != [] {
      assert (before + [stop] + after)[1..] == before[1..] + [stop] + after;
      ReadUntilAt(before[1..], stop, after);
      assert [before[0]] + before[1..] == before;
    } else {
      assert before + [stop] + after == [stop] + after;
    }
  }

  /** Reads one predicate at the front of `s`: its attribute, its code, and the rest of `s`. */
  function ReadClause(s: string): (r: Lookup<(string, string, string)>)
    ensures r.Found? ==> |r.value.2| < |s|
  {
    if |s| < 2 || s[..2] != "A{" then Missing
    else match ReadUntil(s[2..], '}')
      case Missing => Missing
      case Found((attribute, rest)) =>
        if |rest| < 3 || rest[..3] != "==\"" then Missing
        else match ReadUntil(rest[3..], '"')
          case Missing => Missing
          case Found((code, tail)) => Found((attribute, code, tail))
  }

  /** Reads a whole filter: one or more predicates separated by ` && `. */
  function ReadFilter(s: string): Lookup<seq<(string, string)>>
    decreases |s|
  {
    match ReadClause(s)
    case Missing => Missing
    case Found((attribute, code, tail)) =>
      if tail == [] then Found([(attribute, code)])
      else if |tail| < 4 || tail[..4] != " && " then Missing
      else match ReadFilter(tail[4..])
        case Missing => Missing
        case Found(more) => Found([(attribute, code)] + more)
  }

  lemma ReadClauseAt(attribute: string, code: string, tail: string)
    requires Readable(attribute, code)
    ensures ReadClause(Clause(attribute, code) + tail) == Found((attribute, code, tail))
  {
    var s := Clause(attribute, code) + tail;
    assert s[..2] == "A{";
    assert s[2..] == attribute + ['}'] + ("==\"" + code + "\"" + tail);
    ReadUntilAt(attribute, '}', "==\"" + code + "\"" + tail);
    var rest := "==\"" + code + "\"" + tail;
    assert rest[..3] == "==\"";
    assert rest[3..] == code + ['"'] + tail;
    ReadUntilAt(code, '"', tail);
  }

  /** A single predicate reads back as itself. */
  lemma ReadSingle(attribute: string, code: string)
    requires Readable(attribute, code)
    ensures ReadFilter(Clause(attribute, code)) == Found([(attribute, code)])
  {
    ReadClauseAt(attribute, code, []);
    assert Clause(attribute, code) + [] == Clause(attribute, code);
  }

  /** A conjunction of two predicates reads back as both, in written order. */
  lemma ReadConjunction(a1: string, c1: string, a2: string, c2: string)
    requires Readable(a1, c1) && Readable(a2, c2)
    ensures ReadFilter(Conjunction(Clause(a1, c1), Clause(a2, c2))) == Found([(a1, c1), (a2, c2)])
  {
    var tail := " && " + Clause(a2, c2);
    assert Conjunction(Clause(a1, c1), Clause(a2, c2)) == Clause(a1, c1) + tail;
    ReadClauseAt(a1, c1, tail);
    assert tail != [] && tail[..4] == " && " && tail[4..] == Clause(a2, c2);
    ReadSingle(a2, c2);
    assert ReadFilter(Clause(a1, c1) + tail) == Found([(a1, c1)] + [(a2, c2)]);
    assert [(a1, c1)] + [(a2, c2)] == [(a1, c1), (a2, c2)];
  }
}
