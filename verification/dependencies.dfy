/**
 * The collaborators the pipeline runner is given (a project, an emailer, a
 * logger and a configuration flag), seen only from the outside: a project is
 * the fixed answers its calls give during one run, and every call the runner
 * makes on a collaborator is an event appended to one ordered trace.
 */
module Dependencies {

  /** The answers a project gives during one run: `hasTests()`, `runTests()`
      and `deploy()`. Each outcome is compared with the success marker. */
  datatype Project = Project(hasTests: bool, testsOutcome: string, deployOutcome: string)

  /** One observable call made by the runner on a collaborator. */
  datatype Event =
    | Info(line: string)      // the logger's info(line)
    | Error(line: string)     // the logger's error(line)
    | Sent(text: string)      // the emailer's send(text)
    | RanTests                // the project's runTests()
    | Deployed                // the project's deploy()

  /** A log line of either severity. */
  predicate IsLog(e: Event) {
    e.Info? || e.Error?
  }

  /** How many times `e` occurs in the trace `t`. */
  function Occurrences(t: seq<Event>, e: Event): (n: nat)
    ensures n <= |t|
    ensures n == 0 <==> e !in t
  {
    if t == [] then 0 else (if t[0] == e then 1 else 0) + Occurrences(t[1..], e)
  }

  /** Counting distributes over the concatenation of two trace segments. */
  lemma {:induction false} OccurrencesAppend(a: seq<Event>, b: seq<Event>, e: Event)
    ensures Occurrences(a + b, e) == Occurrences(a, e) + Occurrences(b, e)
  {
    if a == [] {
      assert a + b == b;
    } else {
      assert (a + b)[1..] == a[1..] + b;
      OccurrencesAppend(a[1..], b, e);
    }
  }

  /** An event that stands at one position of a trace and nowhere else occurs once. */
  lemma OccursOnce(a: seq<Event>, e: Event, b: seq<Event>)
    requires e !in a && e !in b
    ensures Occurrences(a + [e] + b, e) == 1
  {
    OccurrencesAppend(a + [e], b, e);
    OccurrencesAppend(a, [e], e);
  }

  /** When the only one of two distinct events present stands at one position,
      the two occur once between them. */
  lemma OneOfTwo(a: seq<Event>, x: Event, b: seq<Event>, e1: Event, e2: Event)
    requires e1 != e2 && (x == e1 || x == e2)
    requires e1 !in a && e1 !in b && e2 !in a && e2 !in b
    ensures Occurrences(a + [x] + b, e1) + Occurrences(a + [x] + b, e2) == 1
  {
    var t := a + [x] + b;
    OccursOnce(a, x, b);
    var other := if x == e1 then e2 else e1;
    assert other !in t;
  }

  /** The same for three pairwise distinct events. */
  lemma OneOfThree(a: seq<Event>, x: Event, b: seq<Event>, e1: Event, e2: Event, e3: Event)
    requires e1 != e2 && e1 != e3 && e2 != e3 && (x == e1 || x == e2 || x == e3)
    requires e1 !in a && e1 !in b && e2 !in a && e2 !in b && e3 !in a && e3 !in b
    ensures Occurrences(a + [x] + b, e1) + Occurrences(a + [x] + b, e2)
          + Occurrences(a + [x] + b, e3) == 1
  {
    var t := a + [x] + b;
    OccursOnce(a, x, b);
    var (o1, o2) := if x == e1 then (e2, e3) else if x == e2 then (e1, e3) else (e1, e2);
    assert o1 !in t && o2 !in t;
  }
}
