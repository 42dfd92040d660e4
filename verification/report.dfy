/** The feedback composer shared by every analyzer: a header line, a status
    line, the cues of the failed checks in the order the checks are declared,
    and whatever trailing lines the analyzer adds. */
module Report {
  import opened Text

  /** One form check: whether it passed, and the cue shown when it did not. */
  datatype Check = Check(passed: bool, cue: string)

  /** The value of one `update` call: the analyzer's next state and its lines. */
  datatype Outcome<S> = Outcome(state: S, lines: seq<string>)

  predicate AllPassed(checks: seq<Check>) {
    forall i | 0 <= i < |checks| :: checks[i].passed
  }

  /** How many checks failed. */
  function Failures(checks: seq<Check>): (n: nat)
    ensures n <= |checks|
    decreases |checks|
  {
    if checks == [] then 0 else (if checks[0].passed then 0 else 1) + Failures(checks[1..])
  }

  /** The cues of the failed checks, one per failure, in declaration order. */
  function Cues(checks: seq<Check>): (r: seq<string>)
    ensures |r| == Failures(checks)
    decreases |checks|
  {
    if checks == [] then []
    else (if checks[0].passed then [] else [checks[0].cue]) + Cues(checks[1..])
  }

  /** No cue at all exactly when every check passed. */
  lemma {:induction false} NoCuesIffAllPassed(checks: seq<Check>)
    ensures Cues(checks) == [] <==> AllPassed(checks)
    decreases |checks|
  {
    if checks != [] {
      NoCuesIffAllPassed(checks[1..]);
      if AllPassed(checks[1..]) && checks[0].passed {
        forall i | 0 <= i < |checks| ensures checks[i].passed {
          if i > 0 { assert checks[i] == checks[1..][i - 1]; }
        }
      }
    }
  }

  /** Every failed check contributes its cue, and every cue comes from a
      failed check. */
  lemma {:induction false} CuesOfFailures(checks: seq<Check>, m: string)
    ensures m in Cues(checks) <==> exists i | 0 <= i < |checks| :: !checks[i].passed && checks[i].cue == m
    decreases |checks|
  {
    if checks != [] {
      CuesOfFailures(checks[1..], m);
      if m in Cues(checks[1..]) {
        var i :| 0 <= i < |checks[1..]| && !checks[1..][i].passed && checks[1..][i].cue == m;
        assert checks[i + 1] == checks[1..][i];
      }
      if i :| 0 <= i < |checks| && !checks[i].passed && checks[i].cue == m {
        if i > 0 { assert checks[1..][i - 1] == checks[i]; }
      }
    }
  }

  /** Order: the cues of earlier checks precede the cues of later ones. */
  lemma {:induction false} CuesAppend(a: seq<Check>, b: seq<Check>)
    ensures Cues(a + b) == Cues(a) + Cues(b)
    decreases |a|
  {
    if a != [] {
      assert (a + b)[0] == a[0];
      assert (a + b)[1..] == a[1..] + b;
      CuesAppend(a[1..], b);
    } else {
      assert a + b == b;
    }
  }

  /** With distinct cues, a check's cue is shown exactly when it failed. */
  lemma CueShown(checks: seq<Check>, i: nat)
    requires i < |checks|
    requires forall j | 0 <= j < |checks| && j != i :: checks[j].cue != checks[i].cue
    ensures checks[i].cue in Cues(checks) <==> !checks[i].passed
  {
    CuesOfFailures(checks, checks[i].cue);
  }

  /** Header, status, cues of the failed checks, then `tail`. */
  function Lines(header: string, status: string, checks: seq<Check>, tail: seq<string>): (r: seq<string>)
    ensures |r| == 2 + Failures(checks) + |tail|
    ensures r[0] == header && r[1] == status
    ensures r[2..2 + Failures(checks)] == Cues(checks)
    ensures r[2 + Failures(checks)..] == tail
  {
    [header, status] + Cues(checks) + tail
  }

  /** The lines after the header and the status. */
  function Feedback(lines: seq<string>): seq<string> {
    if |lines| < 2 then [] else lines[2..]
  }

  /** `line` when `cond` holds, nothing otherwise: one optional `append`. */
  function When(cond: bool, line: string): seq<string> {
    if cond then [line] else []
  }

  /** Below the status come exactly the cues, in check order, then the tail. */
  lemma FeedbackOfLines(header: string, status: string, checks: seq<Check>, tail: seq<string>)
    ensures Feedback(Lines(header, status, checks, tail)) == Cues(checks) + tail
  {
    assert Lines(header, status, checks, tail)[2..] == Cues(checks) + tail;
  }

  /** The cues of a single check. */
  lemma CuesOfOne(a: Check)
    ensures Cues([a]) == When(!a.passed, a.cue)
  {
    assert [a][1..] == [];
  }

  /** The cues of two checks, spelled out in order. */
  lemma CuesOfTwo(a: Check, b: Check)
    ensures Cues([a, b]) == When(!a.passed, a.cue) + When(!b.passed, b.cue)
  {
    assert [a, b][1..] == [b];
    CuesOfOne(b);
  }

  /** The cues of three checks, spelled out in order. */
  lemma CuesOfThree(a: Check, b: Check, c: Check)
    ensures Cues([a, b, c]) == When(!a.passed, a.cue) + When(!b.passed, b.cue) + When(!c.passed, c.cue)
  {
    assert [a, b, c][1..] == [b, c];
    CuesOfTwo(b, c);
  }

  /** A cue that belongs to one check only and is not a trailing line is shown
      exactly when that check failed. */
  lemma CueShownInLines(header: string, status: string, checks: seq<Check>, tail: seq<string>, i: nat)
    requires i < |checks|
    requires checks[i].cue !in tail
    requires forall j | 0 <= j < |checks| && j != i :: checks[j].cue != checks[i].cue
    ensures checks[i].cue in Feedback(Lines(header, status, checks, tail)) <==> !checks[i].passed
  {
    var cues := Cues(checks);
    var r := Lines(header, status, checks, tail);
    assert r == [header, status] + cues + tail;
    assert r[2..] == cues + tail;
    CueShown(checks, i);
    assert checks[i].cue in cues + tail <==> checks[i].cue in cues;
  }

  /** A closing line distinct from every cue is shown exactly when all checks
      passed, and it is then the only feedback line. */
  lemma ClosingShownInLines(header: string, status: string, checks: seq<Check>, line: string)
    requires forall j | 0 <= j < |checks| :: checks[j].cue != line
    ensures line in Feedback(Lines(header, status, checks, Closing(checks, line))) <==> AllPassed(checks)
    ensures AllPassed(checks) ==> Feedback(Lines(header, status, checks, Closing(checks, line))) == [line]
  {
    var cues := Cues(checks);
    var tail := Closing(checks, line);
    var r := Lines(header, status, checks, tail);
    assert r == [header, status] + cues + tail;
    assert r[2..] == cues + tail;
    CuesOfFailures(checks, line);
    NoCuesIffAllPassed(checks);
    assert line !in cues;
  }

  /** The closing line of a coach: present exactly when every check passed. */
  function Closing(checks: seq<Check>, line: string): (r: seq<string>)
    ensures r == [line] <==> AllPassed(checks)
    ensures r == [] <==> !AllPassed(checks)
  {
    if AllPassed(checks) then [line] else []
  }

  /** With a closing line, the feedback of two checks spelled out in order. */
  lemma ClosingOfTwo(header: string, status: string, a: Check, b: Check, line: string)
    ensures Feedback(Lines(header, status, [a, b], Closing([a, b], line)))
         == When(!a.passed, a.cue) + When(!b.passed, b.cue) + When(a.passed && b.passed, line)
  {
    FeedbackOfLines(header, status, [a, b], Closing([a, b], line));
    CuesOfTwo(a, b);
    assert a.passed && b.passed ==> AllPassed([a, b]);
  }

  /** With a closing line, the feedback of three checks spelled out in order. */
  lemma ClosingOfThree(header: string, status: string, a: Check, b: Check, c: Check, line: string)
    ensures Feedback(Lines(header, status, [a, b, c], Closing([a, b, c], line)))
         == When(!a.passed, a.cue) + When(!b.passed, b.cue) + When(!c.passed, c.cue) + When(a.passed && b.passed && c.passed, line)
  {
    FeedbackOfLines(header, status, [a, b, c], Closing([a, b, c], line));
    CuesOfThree(a, b, c);
    assert a.passed && b.passed && c.passed ==> AllPassed([a, b, c]);
  }

  /** The closing line of a pose rater: present exactly when the score
      reaches the acclaim threshold. */
  const AcclaimScore := 90

  function Acclaim(score: nat, line: string): (r: seq<string>)
    ensures r == [line] <==> score >= AcclaimScore
    ensures r == [] <==> score < AcclaimScore
  {
    if score >= AcclaimScore then [line] else []
  }

  /** `f"Reps: {self.reps}"` */
  function RepsLine(reps: nat): string {
    "Reps: " + Decimal(reps)
  }

  /** `f"Reps: {self.reps} | Phase: {self.state}"` */
  function StatusLine(reps: nat, phase: string): string {
    "Reps: " + Decimal(reps) + " | Phase: " + phase
  }

  /** `f"Score: {score}/100"` */
  function ScoreLine(score: nat): string {
    "Score: " + Decimal(score) + "/100"
  }

  /** Rendered status lines tell counts apart. */
  lemma StatusLineInjective(m: nat, n: nat, phase: string)
    ensures StatusLine(m, phase) == StatusLine(n, phase) ==> m == n
  {
    var t := " | Phase: " + phase;
    assert StatusLine(m, phase) == "Reps: " + (Decimal(m) + t);
    assert StatusLine(n, phase) == "Reps: " + (Decimal(n) + t);
    if StatusLine(m, phase) == StatusLine(n, phase) {
      assert Decimal(m) + t == StatusLine(m, phase)[6..];
      assert Decimal(n) + t == StatusLine(n, phase)[6..];
      DigitsPrefix(Decimal(m), Decimal(n), t, t);
      DecimalInjective(m, n);
    }
  }

  /** Two numerals followed by text that starts with a non-digit are equal
      when the whole strings are. */
  lemma {:induction false} DigitsPrefix(d1: string, d2: string, t1: string, t2: string)
    requires AllDigits(d1) && AllDigits(d2)
    requires |t1| > 0 && !IsDigit(t1[0]) && |t2| > 0 && !IsDigit(t2[0])
    requires d1 + t1 == d2 + t2
    ensures d1 == d2
  {
    var s := d1 + t1;
    assert forall i | 0 <= i < |d1| :: IsDigit(s[i]);
    assert !IsDigit(s[|d1|]);
    assert forall i | 0 <= i < |d2| :: IsDigit(s[i]);
    assert !IsDigit(s[|d2|]);
    assert |d1| == |d2|;
    assert d1 == (d1 + t1)[..|d1|];
    assert d2 == (d2 + t2)[..|d2|];
  }
}
