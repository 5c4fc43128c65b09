/** The problem page's code editor: the language switch, the line-number gutter, and the
    state machine that submits code and follows the submission's progress events.

    The subscription hook calls `onData` only while `currentSubmissionId` is set, and the
    server has already filtered the events to that submission. */
module CodeEditor {
  import opened Common
  import opened Judge

  datatype CodeLanguage = CPP | PYTHON

  /** The starter program of each language (`code_templates`, after `dedent`). */
  function Template(l: CodeLanguage): string {
    match l
    case CPP => CppTemplate
    case PYTHON => PythonTemplate
  }

  const CppTemplate: string :=
    "#include <iostream>\nusing namespace std;\nint main() {\n    int t;\n    cin >> t;\n"
    + "    while (t--) {\n        // Your code here\n    }\n    return 0;\n}"

  const PythonTemplate: string :=
    "def solve():\n    # Your code here\n    pass\nif __name__ == \"__main__\":\n"
    + "    t = int(input())\n    for _ in range(t):\n        solve()"

  // ---------------------------------------------------------------------------------
  // Line numbers
  // ---------------------------------------------------------------------------------

  /** `code.split('\n')`. */
  function Lines(s: string): (r: seq<string>)
    ensures |r| >= 1
  {
    if s == [] then [""]
    else
      var rest := Lines(s[1..]);
      if s[0] == '\n' then [""] + rest else [[s[0]] + rest[0]] + rest[1..]
  }

  /** The pieces joined back with '\n' (`Array.prototype.join`). */
  function JoinLines(lines: seq<string>): string
    requires |lines| >= 1
  {
    if |lines| == 1 then lines[0] else lines[0] + "\n" + JoinLines(lines[1..])
  }

  function CountNewlines(s: string): nat {
    if s == [] then 0 else (if s[0] == '\n' then 1 else 0) + CountNewlines(s[1..])
  }

  /** Splitting on '\n' and joining back gives the code again, and there is one piece more
      than there are newlines, none of which contains a newline. */
  lemma {:induction false} LinesRoundTrip(s: string)
    ensures JoinLines(Lines(s)) == s
    ensures |Lines(s)| == CountNewlines(s) + 1
    ensures forall i :: 0 <= i < |Lines(s)| ==> '\n' !in Lines(s)[i]
  {
    if s != [] {
      var rest := Lines(s[1..]);
      LinesRoundTrip(s[1..]);
      if s[0] == '\n' {
        assert Lines(s) == [""] + rest;
        assert Lines(s)[1..] == rest;
        assert s == [s[0]] + s[1..];
      } else {
        var first := [s[0]] + rest[0];
        assert Lines(s) == [first] + rest[1..];
        if |rest| == 1 {
          assert s == [s[0]] + s[1..];
        } else {
          assert JoinLines(rest) == rest[0] + "\n" + JoinLines(rest[1..]);
          assert Lines(s)[1..] == rest[1..];
          assert s == [s[0]] + s[1..];
        }
        forall i | 0 <= i < |Lines(s)| ensures '\n' !in Lines(s)[i] {
          if i == 0 {
            assert '\n' !in rest[0];
          } else {
            assert Lines(s)[i] == rest[i];
          }
        }
      }
    }
  }

  /** `lineNumbers`: 1, 2, ..., one per line of the code. */
  function LineNumbers(code: string): (r: seq<nat>)
    ensures |r| == CountNewlines(code) + 1
    ensures forall i :: 0 <= i < |r| ==> r[i] == i + 1
  {
    LinesRoundTrip(code);
    seq(|Lines(code)|, i => i + 1)
  }

  // ---------------------------------------------------------------------------------
  // Progress state machine
  // ---------------------------------------------------------------------------------

  datatype Toast = SuccessToast(text: string) | ErrorToast(text: string)

  /** The part of the editor's state that submissions and events change. */
  datatype Watch = Watch(isLoading: bool, progress: real, currentSubmissionId: Option<nat>)

  /** `((testCaseIndex + 1) / totalTestCases) * 100`, in exact arithmetic. */
  function Progress(testCaseIndex: int, totalTestCases: int): real
    requires totalTestCases > 0
  {
    ((testCaseIndex + 1) as real / totalTestCases as real) * 100.0
  }

  /** The progress bar of an in-range event lies in (0, 100], and is full exactly on the
      event for the last index. */
  lemma ProgressInRange(idx: int, total: int)
    requires 0 <= idx < total
    ensures 0.0 < Progress(idx, total) <= 100.0
    ensures Progress(idx, total) == 100.0 <==> idx == total - 1
  {
    var q := (idx + 1) as real / total as real;
    assert q * total as real == (idx + 1) as real;
    RealScale(1.0, q, total as real);
  }

  /** Whether an event is the one the editor treats as the end of the run. */
  predicate IsFinal(e: SubmissionEvent) {
    e.testCaseIndex == e.totalTestCases - 1
  }

  /** `onData` of the subscription: a disabled subscription delivers nothing; otherwise the
      progress bar moves, and the event for the last index ends the run. */
  function Receive(w: Watch, e: SubmissionEvent): (r: Watch)
    requires e.totalTestCases > 0
    ensures w.currentSubmissionId.None? ==> r == w
    ensures w.currentSubmissionId.Some? ==> r.progress == Progress(e.testCaseIndex, e.totalTestCases)
    // the subscription stays on the same submission until the final event switches it off
    ensures r.currentSubmissionId.None? <==> w.currentSubmissionId.None? || IsFinal(e)
    ensures r.currentSubmissionId.Some? ==> r.currentSubmissionId == w.currentSubmissionId
    // an event never starts loading, and stops it only when it ends the run
    ensures r.isLoading ==> w.isLoading
    ensures w.isLoading && !r.isLoading ==> w.currentSubmissionId.Some? && IsFinal(e)
  {
    if w.currentSubmissionId.None? then w
    else
      var w' := w.(progress := Progress(e.testCaseIndex, e.totalTestCases));
      if IsFinal(e) then w'.(isLoading := false, currentSubmissionId := None) else w'
  }

  /** The toast that `onData` shows for an event. */
  function ReceiveToasts(w: Watch, e: SubmissionEvent): (r: seq<Toast>)
    ensures |r| <= 1
    // a toast comes exactly with the event that ends a run being followed
    ensures r != [] <==> w.currentSubmissionId.Some? && IsFinal(e)
    ensures r != [] ==> (r[0].SuccessToast? <==> e.result.status.id == 3)
  {
    if w.currentSubmissionId.None? || !IsFinal(e) then []
    else if e.result.status.id == 3 then [SuccessToast("All test cases passed!")]
    else [ErrorToast("Failed: " + e.result.status.description)]
  }

  /** Events processed one after another. */
  function Run(w: Watch, events: seq<SubmissionEvent>): (r: Watch)
    requires forall k :: 0 <= k < |events| ==> events[k].totalTestCases > 0
    // no sequence of events switches the editor to another submission or starts loading
    ensures r.currentSubmissionId.Some? ==> r.currentSubmissionId == w.currentSubmissionId
    ensures r.isLoading ==> w.isLoading
    decreases |events|
  {
    if events == [] then w else Run(Receive(w, events[0]), events[1..])
  }

  function RunToasts(w: Watch, events: seq<SubmissionEvent>): seq<Toast>
    requires forall k :: 0 <= k < |events| ==> events[k].totalTestCases > 0
    decreases |events|
  {
    if events == [] then [] else ReceiveToasts(w, events[0]) + RunToasts(Receive(w, events[0]), events[1..])
  }

  predicate HasFinal(events: seq<SubmissionEvent>) {
    exists k :: 0 <= k < |events| && IsFinal(events[k])
  }

  /** Whatever order the events arrive in, a run that is following a submission stops
      loading exactly when the event for index total-1 has arrived: every other event,
      and every event after it, leaves the loading flag as it was. */
  lemma {:induction false} StopsOnlyOnFinalIndex(w: Watch, events: seq<SubmissionEvent>)
    requires w.isLoading && w.currentSubmissionId.Some?
    requires forall k :: 0 <= k < |events| ==> events[k].totalTestCases > 0
    ensures Run(w, events).isLoading == !HasFinal(events)
    ensures Run(w, events).currentSubmissionId.None? == HasFinal(events)
    decreases |events|
  {
    if events != [] {
      var w1 := Receive(w, events[0]);
      if IsFinal(events[0]) {
        assert HasFinal(events);
        StaysIdle(w1, events[1..]);
      } else {
        StopsOnlyOnFinalIndex(w1, events[1..]);
        assert HasFinal(events) == HasFinal(events[1..]) by {
          if HasFinal(events) {
            var k :| 0 <= k < |events| && IsFinal(events[k]);
            assert IsFinal(events[1..][k - 1]);
          }
          if HasFinal(events[1..]) {
            var k :| 0 <= k < |events[1..]| && IsFinal(events[1..][k]);
            assert IsFinal(events[k + 1]);
          }
        }
      }
    }
  }

  /** Once the subscription is disabled, later events change nothing. */
  lemma {:induction false} StaysIdle(w: Watch, events: seq<SubmissionEvent>)
    requires w.currentSubmissionId.None?
    requires forall k :: 0 <= k < |events| ==> events[k].totalTestCases > 0
    ensures Run(w, events) == w && RunToasts(w, events) == []
    decreases |events|
  {
    if events != [] {
      StaysIdle(Receive(w, events[0]), events[1..]);
    }
  }

  class Editor {
    var code: string
    var currentLanguage: CodeLanguage
    var progress: real
    var isLoading: bool
    var currentSubmissionId: Option<nat>
    /** The toasts shown so far. */
    var toasts: seq<Toast>

    function State(): Watch
      reads this
    {
      Watch(isLoading, progress, currentSubmissionId)
    }

    constructor ()
      ensures code == Template(CPP) && currentLanguage == CPP
      ensures State() == Watch(false, 0.0, None) && toasts == []
    {
      code, currentLanguage := Template(CPP), CPP;
      progress, isLoading, currentSubmissionId := 0.0, false, None;
      toasts := [];
    }

    /** The language selector: switching language replaces the code by the template. */
    method ChangeLanguage(l: CodeLanguage)
      modifies this
      ensures currentLanguage == l && code == Template(l)
      ensures State() == old(State()) && toasts == old(toasts)
    {
      currentLanguage := l;
      code := Template(l);
    }

    /** The editor itself. */
    method EditCode(text: string)
      modifies this
      ensures code == text && currentLanguage == old(currentLanguage)
      ensures State() == old(State()) && toasts == old(toasts)
    {
      code := text;
    }

    /** `handleSubmit`: set the loading flag and reset the progress bar, then await the
        `submit` mutation, whose outcome is `submitted`. */
    method HandleSubmit(submitted: Result<SubmitResponse>)
      modifies this
      ensures code == old(code) && currentLanguage == old(currentLanguage) && progress == 0.0
      ensures submitted.Ok? ==>
        isLoading && currentSubmissionId == Some(submitted.value.submissionId) && toasts == old(toasts)
      ensures submitted.Err? ==>
        !isLoading && currentSubmissionId == old(currentSubmissionId)
        && toasts == old(toasts) + [ErrorToast("Error submitting code")]
    {
      isLoading := true;
      progress := 0.0;
      if submitted.Ok? {
        currentSubmissionId := Some(submitted.value.submissionId);
      } else {
        toasts := toasts + [ErrorToast("Error submitting code")];
        isLoading := false;
      }
    }

    /** `onData`, for an event that reaches the editor. */
    method OnData(e: SubmissionEvent)
      requires e.totalTestCases > 0
      modifies this
      ensures State() == Receive(old(State()), e)
      ensures toasts == old(toasts) + ReceiveToasts(old(State()), e)
      ensures code == old(code) && currentLanguage == old(currentLanguage)
    {
      if currentSubmissionId.None? {
        return;
      }
      progress := ((e.testCaseIndex + 1) as real / e.totalTestCases as real) * 100.0;
      if e.testCaseIndex == e.totalTestCases - 1 {
        isLoading := false;
        currentSubmissionId := None;
        if e.result.status.id == 3 {
          toasts := toasts + [SuccessToast("All test cases passed!")];
        } else {
          toasts := toasts + [ErrorToast("Failed: " + e.result.status.description)];
        }
      }
    }

    /** `onError` of the subscription. */
    method OnError()
      modifies this
      ensures !isLoading && currentSubmissionId.None? && progress == old(progress)
      ensures toasts == old(toasts) + [ErrorToast("Error receiving updates")]
      ensures code == old(code) && currentLanguage == old(currentLanguage)
    {
      toasts := toasts + [ErrorToast("Error receiving updates")];
      isLoading := false;
      currentSubmissionId := None;
    }
  }

  // ---------------------------------------------------------------------------------
  // The completion signal, as written and as intended
  // ---------------------------------------------------------------------------------

  function Accepted(e: SubmissionEvent): bool {
    e.result.status.id == 3
  }

  function EventAt(idx: int, total: int, statusId: int, description: string): SubmissionEvent {
    SubmissionEvent(7, idx, total, Judge0Response("", "", "", None, Judge0Status(statusId, description)))
  }

  /** As written: two test cases; test case 1 is accepted and finishes first, test case 0
      is a wrong answer and finishes second. The first event already ends the run with
      "All test cases passed!", and the wrong answer is never shown. */
  lemma PrematureSuccess()
    ensures var w := Watch(true, 0.0, Some(7));
      var events := [EventAt(1, 2, 3, "Accepted"), EventAt(0, 2, 4, "Wrong Answer")];
      && !Receive(w, events[0]).isLoading
      && RunToasts(w, events) == [SuccessToast("All test cases passed!")]
      && !Accepted(events[1])
  {
    var w := Watch(true, 0.0, Some(7));
    var events := [EventAt(1, 2, 3, "Accepted"), EventAt(0, 2, 4, "Wrong Answer")];
    var w1 := Receive(w, events[0]);
    assert w1.currentSubmissionId.None?;
    StaysIdle(w1, events[1..]);
    assert RunToasts(w, events) == ReceiveToasts(w, events[0]) + RunToasts(w1, events[1..]);
  }

  /** As intended: count the completed test cases and decide from all of them. */
  datatype Tally = Tally(seen: set<int>, allAccepted: bool)

  function Count(t: Tally, e: SubmissionEvent): Tally {
    Tally(t.seen + {e.testCaseIndex}, t.allAccepted && Accepted(e))
  }

  function CountAll(t: Tally, events: seq<SubmissionEvent>): Tally
    decreases |events|
  {
    if events == [] then t else CountAll(Count(t, events[0]), events[1..])
  }

  /** The run is over when every one of the n test cases has reported. */
  predicate Finished(t: Tally, n: nat) {
    |t.seen| == n
  }

  /** The events of one submission, each test-case index below n exactly once. */
  predicate OnePerIndex(events: seq<SubmissionEvent>, n: nat) {
    && |events| == n
    && (forall k :: 0 <= k < n ==> 0 <= events[k].testCaseIndex < n)
    && (forall j, k :: 0 <= j < k < n ==> events[j].testCaseIndex != events[k].testCaseIndex)
  }

  function IndicesOf(events: seq<SubmissionEvent>): set<int> {
    set k | 0 <= k < |events| :: events[k].testCaseIndex
  }

  lemma {:induction false} CountAllTallies(t: Tally, events: seq<SubmissionEvent>)
    ensures CountAll(t, events).seen == t.seen + IndicesOf(events)
    ensures CountAll(t, events).allAccepted ==
      (t.allAccepted && forall k :: 0 <= k < |events| ==> Accepted(events[k]))
    decreases |events|
  {
    if events != [] {
      CountAllTallies(Count(t, events[0]), events[1..]);
      assert IndicesOf(events) == {events[0].testCaseIndex} + IndicesOf(events[1..]) by {
        forall x | x in IndicesOf(events) ensures x in {events[0].testCaseIndex} + IndicesOf(events[1..]) {
          var k :| 0 <= k < |events| && events[k].testCaseIndex == x;
          if k > 0 { assert events[1..][k - 1].testCaseIndex == x; }
        }
        forall x | x in IndicesOf(events[1..]) ensures x in IndicesOf(events) {
          var k :| 0 <= k < |events[1..]| && events[1..][k].testCaseIndex == x;
          assert events[k + 1].testCaseIndex == x;
        }
      }
      if forall k :: 0 <= k < |events[1..]| ==> Accepted(events[1..][k]) {
        forall k | 0 <= k < |events| ensures Accepted(events[0]) ==> Accepted(events[k]) {
          if k > 0 { assert Accepted(events[1..][k - 1]) == Accepted(events[k]); }
        }
      } else {
        var k :| 0 <= k < |events[1..]| && !Accepted(events[1..][k]);
        assert !Accepted(events[k + 1]);
      }
    }
  }

  /** Distinct indices: a prefix of length m has seen exactly m of them. */
  lemma {:induction false} DistinctIndicesCount(events: seq<SubmissionEvent>)
    requires forall j, k :: 0 <= j < k < |events| ==> events[j].testCaseIndex != events[k].testCaseIndex
    ensures |IndicesOf(events)| == |events|
  {
    if events != [] {
      var last := |events| - 1;
      var init := events[..last];
      DistinctIndicesCount(init);
      assert IndicesOf(events) == IndicesOf(init) + {events[last].testCaseIndex} by {
        forall x | x in IndicesOf(events) ensures x in IndicesOf(init) + {events[last].testCaseIndex} {
          var k :| 0 <= k < |events| && events[k].testCaseIndex == x;
          if k < last { assert init[k].testCaseIndex == x; }
        }
        forall x | x in IndicesOf(init) ensures x in IndicesOf(events) {
          var k :| 0 <= k < |init| && init[k].testCaseIndex == x;
          assert events[k].testCaseIndex == x;
        }
      }
      assert events[last].testCaseIndex !in IndicesOf(init) by {
        forall k | 0 <= k < |init| ensures init[k].testCaseIndex != events[last].testCaseIndex {
          assert init[k] == events[k];
        }
      }
    }
  }

  /** The counting consumer finishes exactly when the last outstanding event has arrived,
      whatever the order, and reports success exactly when every test case was accepted. */
  lemma CountingIsOrderIndependent(events: seq<SubmissionEvent>, n: nat, m: nat)
    requires OnePerIndex(events, n) && m <= n
    ensures Finished(CountAll(Tally({}, true), events[..m]), n) <==> m == n
    ensures m == n ==>
      (CountAll(Tally({}, true), events).allAccepted <==> forall k :: 0 <= k < n ==> Accepted(events[k]))
  {
    var prefix := events[..m];
    CountAllTallies(Tally({}, true), prefix);
    DistinctIndicesCount(prefix);
    assert |CountAll(Tally({}, true), prefix).seen| == m;
    if m == n {
      assert prefix == events;
    }
  }

  /** The events that the judge emits for one submission, in any completion order, carry
      every test-case index exactly once, so the counting consumer applies to them. */
  lemma DispatchIsOnePerIndex(submissionId: nat, order: seq<nat>, outcomes: seq<JudgeOutcome>)
    requires IsPermutation(order, |outcomes|)
    ensures OnePerIndex(DispatchEvents(submissionId, order, outcomes), |outcomes|)
  {
    var events := DispatchEvents(submissionId, order, outcomes);
    forall j, k | 0 <= j < k < |outcomes| ensures events[j].testCaseIndex != events[k].testCaseIndex {
      assert events[j].testCaseIndex == order[j] && events[k].testCaseIndex == order[k];
    }
  }
}
