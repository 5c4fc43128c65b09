/** The judging router: the Judge0 status mapping, the language table, submission intake,
    the per-test-case completions of the dispatch fan-out, and the process-wide event bus
    that streams progress to subscribers.

    The concurrent `forEach` fan-out is modelled sequentially: the completions of a
    submission's test cases arrive in an arbitrary order (`order`, a permutation of the
    test-case indices) and are processed one at a time. The HTTP call to Judge0 is an
    oracle: `outcomes[i]` is what the call for test case `i` produced. */
module Judge {
  import opened Common
  import opened Store

  // ---------------------------------------------------------------------------------
  // Status mapping and language table
  // ---------------------------------------------------------------------------------

  /** mapJudge0StatusToSubmissionStatus: codes 3..8 are terminal verdicts, every other
      code (queued, processing, the other runtime errors, internal errors, -1) is PENDING. */
  function MapStatus(judge0Status: int): (v: Verdict)
    ensures v != PENDING <==> 3 <= judge0Status <= 8
  {
    if judge0Status == 3 then ACCEPTED
    else if judge0Status == 4 then WRONG_ANSWER
    else if judge0Status == 5 then TIME_LIMIT_EXCEEDED
    else if judge0Status == 6 then COMPILATION_ERROR
    else if judge0Status == 7 then RUNTIME_ERROR
    else if judge0Status == 8 then MEMORY_LIMIT_EXCEEDED
    else PENDING
  }

  /** The Judge0 status id that the mapping assigns to each terminal verdict. */
  function Judge0Code(v: Verdict): (code: int)
    requires v != PENDING
  {
    match v
    case ACCEPTED => 3
    case WRONG_ANSWER => 4
    case TIME_LIMIT_EXCEEDED => 5
    case COMPILATION_ERROR => 6
    case RUNTIME_ERROR => 7
    case MEMORY_LIMIT_EXCEEDED => 8
  }

  /** The mapping is a bijection between the codes 3..8 and the six terminal verdicts. */
  lemma MapStatusIsBijective(v: Verdict, code: int)
    ensures v != PENDING ==> MapStatus(Judge0Code(v)) == v
    ensures MapStatus(code) != PENDING ==> Judge0Code(MapStatus(code)) == code
  {
  }

  /** languageMap: the Judge0 language id of each Language. */
  function LanguageId(l: Language): (id: nat)
    ensures id == 0 <==> l == NONE
    ensures l != NONE ==> 46 <= id <= 85
  {
    match l
    case C => 50
    case CPP => 54
    case JAVA => 62
    case PYTHON => 71
    case RUST => 74
    case GO => 60
    case JAVASCRIPT => 63
    case TYPESCRIPT => 75
    case CSHARP => 51
    case RUBY => 73
    case HASKELL => 61
    case LUA => 64
    case PASCAL => 67
    case KOTLIN => 78
    case SWIFT => 83
    case PHP => 68
    case PERL => 85
    case BASH => 46
    case SCALA => 81
    case D => 55
    case FSHARP => 59
    case ERLANG => 58
    case ELIXIR => 57
    case OCAML => 65
    case R => 80
    case NIM => 69
    case SQL => 82
    case COBOL => 77
    case FORTH => 66
    case FORTAN => 56
    case LISP => 70
    case NONE => 0
  }

  /** The reverse reading of the language table. */
  function LanguageOf(id: int): Option<Language> {
    if id == 50 then Some(C)
    else if id == 54 then Some(CPP)
    else if id == 62 then Some(JAVA)
    else if id == 71 then Some(PYTHON)
    else if id == 74 then Some(RUST)
    else if id == 60 then Some(GO)
    else if id == 63 then Some(JAVASCRIPT)
    else if id == 75 then Some(TYPESCRIPT)
    else if id == 51 then Some(CSHARP)
    else if id == 73 then Some(RUBY)
    else if id == 61 then Some(HASKELL)
    else if id == 64 then Some(LUA)
    else if id == 67 then Some(PASCAL)
    else if id == 78 then Some(KOTLIN)
    else if id == 83 then Some(SWIFT)
    else if id == 68 then Some(PHP)
    else if id == 85 then Some(PERL)
    else if id == 46 then Some(BASH)
    else if id == 81 then Some(SCALA)
    else if id == 55 then Some(D)
    else if id == 59 then Some(FSHARP)
    else if id == 58 then Some(ERLANG)
    else if id == 57 then Some(ELIXIR)
    else if id == 65 then Some(OCAML)
    else if id == 80 then Some(R)
    else if id == 69 then Some(NIM)
    else if id == 82 then Some(SQL)
    else if id == 77 then Some(COBOL)
    else if id == 66 then Some(FORTH)
    else if id == 56 then Some(FORTAN)
    else if id == 70 then Some(LISP)
    else if id == 0 then Some(NONE)
    else None
  }

  lemma LanguageOfId(l: Language)
    ensures LanguageOf(LanguageId(l)) == Some(l)
  {
    match l
    case _ =>
  }

  /** No two languages share a Judge0 id. */
  lemma LanguageIdsDistinct(a: Language, b: Language)
    ensures LanguageId(a) == LanguageId(b) ==> a == b
  {
    LanguageOfId(a);
    LanguageOfId(b);
  }

  // ---------------------------------------------------------------------------------
  // Judge0 responses, failures and progress events
  // ---------------------------------------------------------------------------------

  datatype Judge0Status = Judge0Status(id: int, description: string)

  /** The parsed body of a Judge0 response; `message` is null for most runs. */
  datatype Judge0Response = Judge0Response(
    token: string,
    stderr: string,
    compileOutput: string,
    message: Option<string>,
    status: Judge0Status)

  /** What the `catch` of a completion can receive: the error thrown for a non-ok HTTP
      status, an Error thrown by fetch, the body parser or the row update, or a thrown
      value that is not an Error. */
  datatype Failure = HttpError(httpStatus: nat) | Thrown(message: string) | ThrownNonError

  /** The result of one call to Judge0 together with the row update that follows it. */
  datatype JudgeOutcome = Responded(response: Judge0Response) | Failed(failure: Failure)

  /** One `submission-update` event. */
  datatype SubmissionEvent = SubmissionEvent(
    submissionId: nat,
    testCaseIndex: int,
    totalTestCases: int,
    result: Judge0Response)

  function DigitChar(d: nat): char
    requires d < 10
  {
    "0123456789"[d]
  }

  /** Decimal rendering of a status number inside a template literal. */
  function NatToString(n: nat): (s: string)
    ensures |s| >= 1
    decreases n
  {
    if n < 10 then [DigitChar(n)] else NatToString(n / 10) + [DigitChar(n % 10)]
  }

  /** `error instanceof Error ? error.message : "Unknown error"`. */
  function FailureMessage(f: Failure): string {
    match f
    case HttpError(status) => "HTTP error! status: " + NatToString(status)
    case Thrown(message) => message
    case ThrownNonError => "Unknown error"
  }

  /** The pseudo-response that stands for a failed test case. */
  function ErrorResponse(message: string): Judge0Response {
    Judge0Response("", message, "", Some(message), Judge0Status(-1, "Error"))
  }

  /** The row after a completion: a response writes the mapped verdict and the message;
      a failure leaves the row as it was. */
  function CompletedRow(row: SubmissionTestCase, outcome: JudgeOutcome): SubmissionTestCase {
    match outcome
    case Responded(response) =>
      row.(status := MapStatus(response.status.id), actualOutput := response.message.GetOr(""))
    case Failed(_) => row
  }

  /** The event that a completion emits. */
  function CompletionEvent(submissionId: nat, idx: nat, total: nat, outcome: JudgeOutcome): SubmissionEvent {
    var result := match outcome
      case Responded(response) => response
      case Failed(f) => ErrorResponse(FailureMessage(f));
    SubmissionEvent(submissionId, idx, total, result)
  }

  /** What one completion persists and what it publishes agree: a response is written to the
      row with the verdict its status id maps to; a failure is published with status -1 and
      the failure text as stderr and message, and is never persisted, so the row keeps
      whatever verdict it had (PENDING for a fresh placeholder). */
  lemma CompletionAgreesWithEvent(sid: nat, idx: nat, total: nat, row: SubmissionTestCase, outcome: JudgeOutcome)
    ensures var e := CompletionEvent(sid, idx, total, outcome);
      && e.submissionId == sid && e.testCaseIndex == idx && e.totalTestCases == total
      && (outcome.Responded? ==>
            CompletedRow(row, outcome).status == MapStatus(e.result.status.id)
            && CompletedRow(row, outcome).actualOutput == e.result.message.GetOr(""))
      && (outcome.Failed? ==>
            && CompletedRow(row, outcome) == row
            && e.result.status == Judge0Status(-1, "Error")
            && e.result.stderr == FailureMessage(outcome.failure)
            && e.result.message == Some(FailureMessage(outcome.failure))
            && MapStatus(e.result.status.id) == PENDING)
  {
  }

  // ---------------------------------------------------------------------------------
  // The event bus `ee` and its subscriptions
  // ---------------------------------------------------------------------------------

  /** A registered `submission-update` listener: the filtering closure that one
      `onSubmissionUpdate` subscription installed, identified by `handle`. */
  datatype Listener = Listener(handle: nat, submissionId: nat)

  /** What one subscription has forwarded to its client with `emit.next`. */
  datatype Stream = Stream(submissionId: nat, received: seq<SubmissionEvent>)

  predicate Registered(ls: seq<Listener>, h: nat) {
    exists i :: 0 <= i < |ls| && ls[i].handle == h
  }

  predicate UniqueHandles(ls: seq<Listener>) {
    forall i, j :: 0 <= i < j < |ls| ==> ls[i].handle != ls[j].handle
  }

  /** Every event that a stream received carries the stream's submission id. */
  predicate OnlyOwnEvents(s: Stream) {
    forall k :: 0 <= k < |s.received| ==> s.received[k].submissionId == s.submissionId
  }

  /** The streams after `ee.emit` of `e`: each registered listener whose submission id
      matches forwards the event once; every other stream is untouched. */
  function Deliver(streams: map<nat, Stream>, ls: seq<Listener>, e: SubmissionEvent): map<nat, Stream> {
    map h | h in streams ::
      if Registered(ls, h) && streams[h].submissionId == e.submissionId
      then streams[h].(received := streams[h].received + [e])
      else streams[h]
  }

  /** Delivery keeps every stream limited to its own submission's events. */
  lemma DeliverKeepsOwnEvents(streams: map<nat, Stream>, ls: seq<Listener>, e: SubmissionEvent)
    requires forall h :: h in streams ==> OnlyOwnEvents(streams[h])
    ensures forall h :: h in Deliver(streams, ls, e) ==> OnlyOwnEvents(Deliver(streams, ls, e)[h])
  {
    forall h | h in Deliver(streams, ls, e)
      ensures OnlyOwnEvents(Deliver(streams, ls, e)[h])
    {
      var s := streams[h];
      if Registered(ls, h) && s.submissionId == e.submissionId {
        var r := s.received + [e];
        assert forall k :: 0 <= k < |s.received| ==> r[k] == s.received[k];
      }
    }
  }

  /** Removing the listeners with one handle keeps the others' handles distinct. */
  lemma {:induction false} FilterKeepsUniqueHandles(ls: seq<Listener>, h: nat)
    requires UniqueHandles(ls)
    ensures UniqueHandles(Filter(ls, (l: Listener) => l.handle != h))
  {
    var p := (l: Listener) => l.handle != h;
    if ls != [] {
      FilterKeepsUniqueHandles(ls[1..], h);
      if p(ls[0]) {
        var rest := Filter(ls[1..], p);
        assert Filter(ls, p) == [ls[0]] + rest;
        forall k | 0 <= k < |rest| ensures rest[k].handle != ls[0].handle {
          assert rest[k] in ls[1..];
        }
      }
    }
  }

  /** Extending a prefix of a listener list by one listener registers exactly its handle
      more, which, the handles being distinct, the prefix did not register. */
  lemma RegisteredStep(ls: seq<Listener>, i: nat)
    requires i < |ls| && UniqueHandles(ls)
    ensures !Registered(ls[..i], ls[i].handle)
    ensures forall h :: Registered(ls[..i + 1], h) <==> Registered(ls[..i], h) || h == ls[i].handle
  {
    forall h | Registered(ls[..i + 1], h) ensures Registered(ls[..i], h) || h == ls[i].handle {
      var j :| 0 <= j < i + 1 && ls[..i + 1][j].handle == h;
      if j < i { assert ls[..i][j].handle == h; }
    }
    forall h | Registered(ls[..i], h) ensures Registered(ls[..i + 1], h) {
      var j :| 0 <= j < i && ls[..i][j].handle == h;
      assert ls[..i + 1][j].handle == h;
    }
    assert ls[..i + 1][i].handle == ls[i].handle;
  }

  class EventBus {
    /** The listener list of the `submission-update` event, in registration order. */
    var listeners: seq<Listener>
    /** Every subscription ever opened, by handle, with what it has forwarded. */
    var streams: map<nat, Stream>
    var nextHandle: nat
    /** Every event ever emitted, in emission order. */
    ghost var published: seq<SubmissionEvent>

    ghost predicate Valid()
      reads this
    {
      && (forall i :: 0 <= i < |listeners| ==>
            listeners[i].handle in streams
            && streams[listeners[i].handle].submissionId == listeners[i].submissionId)
      && UniqueHandles(listeners)
      && (forall h :: h in streams ==> h < nextHandle)
      && (forall h :: h in streams ==> OnlyOwnEvents(streams[h]))
    }

    constructor ()
      ensures Valid()
      ensures listeners == [] && streams == map[] && nextHandle == 0 && published == []
    {
      listeners, streams, nextHandle, published := [], map[], 0, [];
    }

    /** `onSubmissionUpdate`: open a stream for `submissionId` and register its filtering
        listener with `ee.on`. */
    method Subscribe(submissionId: nat) returns (h: nat)
      requires Valid()
      modifies this
      ensures Valid()
      ensures h == old(nextHandle) && h !in old(streams) && nextHandle == h + 1
      ensures listeners == old(listeners) + [Listener(h, submissionId)]
      ensures streams == old(streams)[h := Stream(submissionId, [])]
      ensures published == old(published)
    {
      h := nextHandle;
      listeners := listeners + [Listener(h, submissionId)];
      streams := streams[h := Stream(submissionId, [])];
      nextHandle := nextHandle + 1;
    }

    /** The teardown returned by a subscription: `ee.off` of its listener. The stream keeps
        what it has already forwarded. */
    method Unsubscribe(h: nat)
      requires Valid()
      modifies this
      ensures Valid()
      ensures !Registered(listeners, h)
      ensures listeners == Filter(old(listeners), (l: Listener) => l.handle != h)
      ensures forall g :: g != h && Registered(old(listeners), g) ==> Registered(listeners, g)
      ensures streams == old(streams) && nextHandle == old(nextHandle) && published == old(published)
    {
      var p := (l: Listener) => l.handle != h;
      ghost var before := listeners;
      listeners := Filter(listeners, p);
      FilterKeepsUniqueHandles(before, h);
      forall g | g != h && Registered(before, g) ensures Registered(listeners, g) {
        var i :| 0 <= i < |before| && before[i].handle == g;
        assert p(before[i]);
        assert before[i] in listeners;
      }
      assert !Registered(listeners, h) by {
        forall i | 0 <= i < |listeners| ensures listeners[i].handle != h {
          assert p(listeners[i]);
        }
      }
    }

    /** `ee.emit('submission-update', e)`: call every registered listener in order; each
        forwards `e` when its submission id matches. */
    method Emit(e: SubmissionEvent)
      requires Valid()
      modifies this
      ensures Valid()
      ensures listeners == old(listeners) && nextHandle == old(nextHandle)
      ensures streams == Deliver(old(streams), listeners, e)
      ensures published == old(published) + [e]
    {
      var snapshot := listeners;
      ghost var before := streams;
      var i := 0;
      while i < |snapshot|
        invariant 0 <= i <= |snapshot|
        invariant listeners == snapshot && nextHandle == old(nextHandle) && published == old(published)
        invariant streams.Keys == before.Keys
        invariant forall h :: h in streams ==>
          streams[h] == (if Registered(snapshot[..i], h) && before[h].submissionId == e.submissionId
                         then before[h].(received := before[h].received + [e])
                         else before[h])
      {
        var l := snapshot[i];
        RegisteredStep(snapshot, i);
        if l.submissionId == e.submissionId {
          streams := streams[l.handle := streams[l.handle].(received := streams[l.handle].received + [e])];
        }
        i := i + 1;
      }
      assert snapshot[..i] == snapshot;
      DeliverKeepsOwnEvents(before, snapshot, e);
      assert streams == Deliver(before, snapshot, e);
      published := published + [e];
    }
  }

  // ---------------------------------------------------------------------------------
  // Submission intake
  // ---------------------------------------------------------------------------------

  datatype SubmitResponse = SubmitResponse(submissionId: nat, totalTestCases: nat)

  /** The placeholder rows created with a submission, the intake invariant: exactly as many
      rows as the problem has test cases, row i belongs to test case i, and every row starts
      PENDING with no output. */
  function Placeholders(testCases: seq<TestCase>): (r: seq<SubmissionTestCase>)
    ensures |r| == |testCases|
    ensures forall i :: 0 <= i < |testCases| ==>
      && r[i].testCaseId == testCases[i].id && r[i].input == testCases[i].input
      && r[i].expectedOutput == testCases[i].expectedOutput
      && r[i].actualOutput == "" && r[i].status == PENDING
  {
    seq(|testCases|, i requires 0 <= i < |testCases| =>
      SubmissionTestCase(testCases[i].id, testCases[i].input, testCases[i].expectedOutput, "", PENDING))
  }

  /** `submit`: look the problem up by slug, reject it when missing or without test cases,
      otherwise create a PENDING submission with one PENDING placeholder row per test case.
      The dispatch that it starts without waiting is `Dispatch` below. */
  method Submit(db: Database, language: Language, code: string, problemSlug: string, sessionUser: Option<UserId>)
    returns (r: Result<SubmitResponse>)
    requires db.Valid()
    modifies db
    ensures db.Valid()
    ensures SlugIndex(old(db.problems), problemSlug).None? ==>
      r == Err(NotFound, "Problem not found") && db.State() == old(db.State())
    ensures SlugIndex(old(db.problems), problemSlug).Some? ==>
      var p := old(db.problems)[SlugIndex(old(db.problems), problemSlug).value];
      if |p.testCases| == 0 then
        r == Err(NotFound, "No test cases found") && db.State() == old(db.State())
      else
        && r == Ok(SubmitResponse(old(db.nextId), |p.testCases|))
        && old(db.nextId) !in old(db.submissions)
        && db.State() == WithSubmission(old(db.State()),
             Submission(code, language, PENDING, p.id, sessionUser.GetOr(""), Placeholders(p.testCases)))
  {
    var k := SlugIndex(db.problems, problemSlug);
    if k.None? {
      return Err(NotFound, "Problem not found");
    }
    var problem := db.problems[k.value];
    if |problem.testCases| == 0 {
      return Err(NotFound, "No test cases found");
    }
    var id := db.nextId;
    db.submissions := db.submissions[id := Submission(code, language, PENDING, problem.id, sessionUser.GetOr(""), Placeholders(problem.testCases))];
    db.nextId := db.nextId + 1;
    r := Ok(SubmitResponse(id, |problem.testCases|));
  }

  // ---------------------------------------------------------------------------------
  // Dispatch: one completion per test case, in any order
  // ---------------------------------------------------------------------------------

  /** `order` lists every index below n exactly once. */
  predicate IsPermutation(order: seq<nat>, n: nat) {
    && |order| == n
    && (forall k :: 0 <= k < n ==> order[k] < n)
    && (forall i :: 0 <= i < n ==> i in order)
    && (forall j, k :: 0 <= j < k < n ==> order[j] != order[k])
  }

  /** The rows once every completion has been applied: row i holds outcome i. */
  function JudgedRows(rows: seq<SubmissionTestCase>, outcomes: seq<JudgeOutcome>): seq<SubmissionTestCase>
    requires |outcomes| == |rows|
  {
    seq(|rows|, i requires 0 <= i < |rows| => CompletedRow(rows[i], outcomes[i]))
  }

  /** The rows once the completions for the indices in `done` have been applied. */
  function PartlyJudged(rows: seq<SubmissionTestCase>, outcomes: seq<JudgeOutcome>, done: seq<nat>): seq<SubmissionTestCase>
    requires |outcomes| == |rows|
  {
    seq(|rows|, i requires 0 <= i < |rows| =>
      if i in done then CompletedRow(rows[i], outcomes[i]) else rows[i])
  }

  /** The events that a whole dispatch emits, in completion order. */
  function DispatchEvents(submissionId: nat, order: seq<nat>, outcomes: seq<JudgeOutcome>): seq<SubmissionEvent>
    requires forall k :: 0 <= k < |order| ==> order[k] < |outcomes|
  {
    seq(|order|, k requires 0 <= k < |order| =>
      CompletionEvent(submissionId, order[k], |order|, outcomes[order[k]]))
  }

  /** The body of one fire-and-forget task of the fan-out, for test case `idx`. */
  method Complete(db: Database, ee: EventBus, submissionId: nat, idx: nat, total: nat, outcome: JudgeOutcome)
    requires db.Valid() && ee.Valid()
    requires submissionId in db.submissions
    modifies db, ee
    ensures db.Valid() && ee.Valid()
    ensures var rows := old(db.submissions[submissionId].testCases);
      db.State() == old(db.State()).(submissions := old(db.submissions)[submissionId :=
        old(db.submissions[submissionId]).(testCases :=
          if idx < |rows| then rows[idx := CompletedRow(rows[idx], outcome)] else rows)])
    ensures ee.listeners == old(ee.listeners) && ee.nextHandle == old(ee.nextHandle)
    ensures ee.streams == Deliver(old(ee.streams), ee.listeners, CompletionEvent(submissionId, idx, total, outcome))
    ensures ee.published == old(ee.published) + [CompletionEvent(submissionId, idx, total, outcome)]
  {
    ghost var sub0 := db.submissions[submissionId];
    assert sub0.(testCases := sub0.testCases) == sub0;
    assert db.submissions[submissionId := sub0] == db.submissions;
    match outcome {
      case Responded(response) =>
        var sub := db.submissions[submissionId];
        if idx < |sub.testCases| {
          var row := sub.testCases[idx];
          var updated := row.(status := MapStatus(response.status.id), actualOutput := response.message.GetOr(""));
          db.submissions := db.submissions[submissionId := sub.(testCases := sub.testCases[idx := updated])];
        }
        ee.Emit(SubmissionEvent(submissionId, idx, total, response));
      case Failed(f) =>
        assert idx < |sub0.testCases| ==> sub0.testCases[idx := sub0.testCases[idx]] == sub0.testCases;
        var message := FailureMessage(f);
        ee.Emit(SubmissionEvent(submissionId, idx, total, ErrorResponse(message)));
    }
  }

  /** Applying one more completion, for an index not yet done, extends `done` by it. */
  lemma PartlyJudgedStep(rows: seq<SubmissionTestCase>, outcomes: seq<JudgeOutcome>, done: seq<nat>, idx: nat)
    requires |outcomes| == |rows| && idx < |rows| && idx !in done
    ensures PartlyJudged(rows, outcomes, done)[idx] == rows[idx]
    ensures PartlyJudged(rows, outcomes, done)[idx := CompletedRow(rows[idx], outcomes[idx])]
         == PartlyJudged(rows, outcomes, done + [idx])
  {
  }

  /** Once every index is done, every row holds its own completion. */
  lemma AllJudged(rows: seq<SubmissionTestCase>, outcomes: seq<JudgeOutcome>, order: seq<nat>)
    requires |outcomes| == |rows| && IsPermutation(order, |rows|)
    ensures PartlyJudged(rows, outcomes, order) ==
      JudgedRows(rows, outcomes)
  {
  }

  /** `now` is `before` with `events` forwarded to every stream that `ls` registers for
      `submissionId`, and nothing forwarded to any other stream. */
  ghost predicate StreamsFollow(before: map<nat, Stream>, now: map<nat, Stream>, ls: seq<Listener>,
                                submissionId: nat, events: seq<SubmissionEvent>) {
    && now.Keys == before.Keys
    && forall h :: h in now ==>
         now[h].submissionId == before[h].submissionId
         && now[h].received == before[h].received +
              (if Registered(ls, h) && before[h].submissionId == submissionId then events else [])
  }

  /** One more emitted event of a dispatch extends, by that event, the streams that follow
      the submission, and leaves the others alone. */
  lemma StreamsStep(before: map<nat, Stream>, mid: map<nat, Stream>, ls: seq<Listener>,
                    submissionId: nat, events: seq<SubmissionEvent>, k: nat)
    requires k < |events| && events[k].submissionId == submissionId
    requires StreamsFollow(before, mid, ls, submissionId, events[..k])
    ensures StreamsFollow(before, Deliver(mid, ls, events[k]), ls, submissionId, events[..k + 1])
  {
    assert events[..k + 1] == events[..k] + [events[k]];
  }

  /** The whole fan-out of one submission: the completions arrive in the order `order`.
      Afterwards every row holds its own completion, whatever the order, and every stream
      subscribed to this submission has received exactly the dispatch's events. */
  method Dispatch(db: Database, ee: EventBus, submissionId: nat, order: seq<nat>, outcomes: seq<JudgeOutcome>)
    requires db.Valid() && ee.Valid()
    requires submissionId in db.submissions
    requires |outcomes| == |db.submissions[submissionId].testCases|
    requires IsPermutation(order, |outcomes|)
    modifies db, ee
    ensures db.Valid() && ee.Valid()
    ensures var rows := old(db.submissions[submissionId].testCases);
      db.State() == old(db.State()).(submissions := old(db.submissions)[submissionId :=
        old(db.submissions[submissionId]).(testCases :=
          JudgedRows(rows, outcomes))])
    ensures ee.listeners == old(ee.listeners) && ee.nextHandle == old(ee.nextHandle)
    ensures ee.published == old(ee.published) + DispatchEvents(submissionId, order, outcomes)
    ensures StreamsFollow(old(ee.streams), ee.streams, ee.listeners, submissionId,
                          DispatchEvents(submissionId, order, outcomes))
  {
    ghost var t0 := db.State();
    ghost var sub := db.submissions[submissionId];
    ghost var pub0 := ee.published;
    ghost var before := ee.streams;
    ghost var events := DispatchEvents(submissionId, order, outcomes);
    var n := |order|;
    var k := 0;
    assert PartlyJudged(sub.testCases, outcomes, order[..0]) == sub.testCases;
    assert sub.(testCases := sub.testCases) == sub;
    assert t0.submissions[submissionId := sub] == t0.submissions;
    assert StreamsFollow(before, ee.streams, ee.listeners, submissionId, events[..0]);
    while k < n
      invariant 0 <= k <= n
      invariant db.Valid() && ee.Valid()
      invariant Progress(db.State(), t0, sub, submissionId, order, outcomes, k)
      invariant ee.listeners == old(ee.listeners) && ee.nextHandle == old(ee.nextHandle)
      invariant ee.published == pub0 + events[..k]
      invariant StreamsFollow(before, ee.streams, ee.listeners, submissionId, events[..k])
    {
      CompleteNext(db, ee, submissionId, order, outcomes, k, t0, sub, pub0, before);
      k := k + 1;
    }
    assert order[..n] == order;
    assert events[..n] == events;
    AllJudged(sub.testCases, outcomes, order);
  }

  /** The tables once the completions of the first `k` indices of `order` are applied to the
      submission `sub`, which `t0` holds under `submissionId`. */
  ghost predicate Progress(t: Tables, t0: Tables, sub: Submission, submissionId: nat,
                           order: seq<nat>, outcomes: seq<JudgeOutcome>, k: nat)
    requires |outcomes| == |sub.testCases| && k <= |order|
  {
    t == t0.(submissions := t0.submissions[submissionId :=
      sub.(testCases := PartlyJudged(sub.testCases, outcomes, order[..k]))])
  }

  /** One step of the fan-out: the completion of `order[k]`. */
  method CompleteNext(db: Database, ee: EventBus, submissionId: nat, order: seq<nat>, outcomes: seq<JudgeOutcome>,
                      k: nat, ghost t0: Tables, ghost sub: Submission, ghost pub0: seq<SubmissionEvent>,
                      ghost before: map<nat, Stream>)
    requires db.Valid() && ee.Valid()
    requires |outcomes| == |sub.testCases| && IsPermutation(order, |outcomes|) && k < |order|
    requires Progress(db.State(), t0, sub, submissionId, order, outcomes, k)
    requires ee.published == pub0 + DispatchEvents(submissionId, order, outcomes)[..k]
    requires StreamsFollow(before, ee.streams, ee.listeners, submissionId, DispatchEvents(submissionId, order, outcomes)[..k])
    modifies db, ee
    ensures db.Valid() && ee.Valid()
    ensures Progress(db.State(), t0, sub, submissionId, order, outcomes, k + 1)
    ensures ee.listeners == old(ee.listeners) && ee.nextHandle == old(ee.nextHandle)
    ensures ee.published == pub0 + DispatchEvents(submissionId, order, outcomes)[..k + 1]
    ensures StreamsFollow(before, ee.streams, ee.listeners, submissionId, DispatchEvents(submissionId, order, outcomes)[..k + 1])
  {
    ghost var events := DispatchEvents(submissionId, order, outcomes);
    ghost var rows := sub.testCases;
    var idx := order[k];
    assert idx !in order[..k];
    PartlyJudgedStep(rows, outcomes, order[..k], idx);
    assert order[..k + 1] == order[..k] + [idx];
    StreamsStep(before, ee.streams, ee.listeners, submissionId, events, k);
    Complete(db, ee, submissionId, idx, |order|, outcomes[idx]);
    assert events[..k + 1] == events[..k] + [events[k]];
  }

  /** The positions in `events` of the events for test case `idx`. */
  function PositionsOf(events: seq<SubmissionEvent>, idx: int): set<nat> {
    set k: nat | k < |events| && events[k].testCaseIndex == idx
  }

  /** Each test-case index gets exactly one event: the dispatch of n test cases emits n
      events for this submission, each carrying the total n, and every index below n
      occurs at exactly one position. */
  lemma EachIndexExactlyOnce(submissionId: nat, order: seq<nat>, outcomes: seq<JudgeOutcome>)
    requires IsPermutation(order, |outcomes|)
    ensures var events := DispatchEvents(submissionId, order, outcomes);
      && |events| == |outcomes|
      && (forall k :: 0 <= k < |events| ==>
            events[k].submissionId == submissionId && events[k].totalTestCases == |outcomes|
            && 0 <= events[k].testCaseIndex < |outcomes|)
      && (forall idx :: 0 <= idx < |outcomes| ==> |PositionsOf(events, idx)| == 1)
  {
    var events := DispatchEvents(submissionId, order, outcomes);
    var n := |outcomes|;
    forall idx | 0 <= idx < n
      ensures |PositionsOf(events, idx)| == 1
    {
      assert idx in order;
      var k0 :| 0 <= k0 < n && order[k0] == idx;
      assert PositionsOf(events, idx) == {k0} by {
        forall k | k in PositionsOf(events, idx) ensures k == k0 {
          assert order[k] == idx;
        }
        assert events[k0].testCaseIndex == idx;
      }
    }
  }

  // ---------------------------------------------------------------------------------
  // The whole procedure, and the status of the submission itself
  // ---------------------------------------------------------------------------------

  /** Every submission still has the status it was created with. */
  ghost predicate AllPending(t: Tables) {
    forall id :: id in t.submissions ==> t.submissions[id].status == PENDING
  }

  /** The submission that a successful `submit` leaves behind once its fan-out is over. */
  function JudgedSubmission(p: Problem, language: Language, code: string, sessionUser: Option<UserId>,
                            outcomes: seq<JudgeOutcome>): Submission
    requires |outcomes| == |p.testCases|
  {
    Submission(code, language, PENDING, p.id, sessionUser.GetOr(""), JudgedRows(Placeholders(p.testCases), outcomes))
  }

  /** The whole `submit` procedure: the intake, then the fan-out, whose completions arrive in
      the order `order` with `outcomes[i]` the outcome of test case i. The submission's own
      status is never written after it is created, so it stays PENDING. */
  method SubmitAndJudge(db: Database, ee: EventBus, language: Language, code: string, problemSlug: string,
                        sessionUser: Option<UserId>, order: seq<nat>, outcomes: seq<JudgeOutcome>)
    returns (r: Result<SubmitResponse>)
    requires db.Valid() && ee.Valid()
    requires SlugIndex(db.problems, problemSlug).Some? ==>
      |outcomes| == |db.problems[SlugIndex(db.problems, problemSlug).value].testCases|
    requires IsPermutation(order, |outcomes|)
    modifies db, ee
    ensures db.Valid() && ee.Valid()
    ensures r.Err? ==> db.State() == old(db.State()) && ee.published == old(ee.published)
    ensures r.Err? ==> r.code == NotFound
    ensures SlugIndex(old(db.problems), problemSlug).None? ==> r == Err(NotFound, "Problem not found")
    ensures SlugIndex(old(db.problems), problemSlug).Some? ==>
      if |old(db.problems)[SlugIndex(old(db.problems), problemSlug).value].testCases| == 0
      then r == Err(NotFound, "No test cases found")
      else r.Ok?
    ensures r.Ok? ==> SlugIndex(old(db.problems), problemSlug).Some?
    ensures r.Ok? ==>
      var p := old(db.problems)[SlugIndex(old(db.problems), problemSlug).value];
      && r.value == SubmitResponse(old(db.nextId), |outcomes|)
      && db.State() == WithSubmission(old(db.State()), JudgedSubmission(p, language, code, sessionUser, outcomes))
      && ee.published == old(ee.published) + DispatchEvents(old(db.nextId), order, outcomes)
    ensures AllPending(old(db.State())) ==> AllPending(db.State())
  {
    r := Submit(db, language, code, problemSlug, sessionUser);
    if r.Ok? {
      ghost var p := old(db.problems)[SlugIndex(old(db.problems), problemSlug).value];
      ghost var placed := db.submissions[r.value.submissionId];
      Dispatch(db, ee, r.value.submissionId, order, outcomes);
      ReplaceNewest(old(db.State()), placed, JudgedSubmission(p, language, code, sessionUser, outcomes));
    }
  }

  /** The verdict of a whole submission: ACCEPTED when every row is, otherwise the verdict
      of the first row that is not. */
  function OverallVerdict(rows: seq<SubmissionTestCase>): (v: Verdict)
    ensures v == ACCEPTED <==> forall i :: 0 <= i < |rows| ==> rows[i].status == ACCEPTED
    ensures v != ACCEPTED ==> exists i :: 0 <= i < |rows| && rows[i].status == v
  {
    match FirstIndex(rows, (row: SubmissionTestCase) => row.status != ACCEPTED)
    case None => ACCEPTED
    case Some(i) => rows[i].status
  }

  /** A judged placeholder row is ACCEPTED exactly when Judge0 answered with status 3. */
  predicate AcceptedOutcome(outcome: JudgeOutcome) {
    outcome.Responded? && outcome.response.status.id == 3
  }

  /** Once settled, a judged submission is ACCEPTED exactly when Judge0 accepted every one of
      its test cases. */
  lemma SettledVerdict(p: Problem, language: Language, code: string, sessionUser: Option<UserId>,
                       outcomes: seq<JudgeOutcome>)
    requires |outcomes| == |p.testCases|
    ensures OverallVerdict(JudgedSubmission(p, language, code, sessionUser, outcomes).testCases) == ACCEPTED
      <==> forall i :: 0 <= i < |outcomes| ==> AcceptedOutcome(outcomes[i])
  {
    var rows := JudgedRows(Placeholders(p.testCases), outcomes);
    assert forall i :: 0 <= i < |outcomes| ==> (rows[i].status == ACCEPTED <==> AcceptedOutcome(outcomes[i]));
  }

  /** The procedure with the step it lacks: once the fan-out is over, the submission takes
      the overall verdict of its rows, so it is ACCEPTED exactly when every test case was. */
  method SubmitJudgeAndSettle(db: Database, ee: EventBus, language: Language, code: string, problemSlug: string,
                              sessionUser: Option<UserId>, order: seq<nat>, outcomes: seq<JudgeOutcome>)
    returns (r: Result<SubmitResponse>)
    requires db.Valid() && ee.Valid()
    requires SlugIndex(db.problems, problemSlug).Some? ==>
      |outcomes| == |db.problems[SlugIndex(db.problems, problemSlug).value].testCases|
    requires IsPermutation(order, |outcomes|)
    modifies db, ee
    ensures db.Valid() && ee.Valid()
    ensures r.Err? ==> db.State() == old(db.State()) && ee.published == old(ee.published)
    ensures r.Err? ==> r.code == NotFound
    ensures SlugIndex(old(db.problems), problemSlug).None? ==> r == Err(NotFound, "Problem not found")
    ensures SlugIndex(old(db.problems), problemSlug).Some? ==>
      if |old(db.problems)[SlugIndex(old(db.problems), problemSlug).value].testCases| == 0
      then r == Err(NotFound, "No test cases found")
      else r.Ok?
    ensures r.Ok? ==> SlugIndex(old(db.problems), problemSlug).Some?
    ensures r.Ok? ==>
      var p := old(db.problems)[SlugIndex(old(db.problems), problemSlug).value];
      var s := JudgedSubmission(p, language, code, sessionUser, outcomes);
      && r.value == SubmitResponse(old(db.nextId), |outcomes|)
      && db.State() == WithSubmission(old(db.State()), s.(status := OverallVerdict(s.testCases)))
      && ee.published == old(ee.published) + DispatchEvents(old(db.nextId), order, outcomes)
      && (db.submissions[r.value.submissionId].status == ACCEPTED <==>
            forall i :: 0 <= i < |outcomes| ==> AcceptedOutcome(outcomes[i]))
  {
    r := SubmitAndJudge(db, ee, language, code, problemSlug, sessionUser, order, outcomes);
    if r.Ok? {
      ghost var p := old(db.problems)[SlugIndex(old(db.problems), problemSlug).value];
      ghost var s := JudgedSubmission(p, language, code, sessionUser, outcomes);
      SettledVerdict(p, language, code, sessionUser, outcomes);
      Settle(db, r.value.submissionId);
      ReplaceNewest(old(db.State()), s, s.(status := OverallVerdict(s.testCases)));
    }
  }

  /** The tables `t` with the submission `s` stored under the next id. */
  function WithSubmission(t: Tables, s: Submission): Tables {
    t.(submissions := t.submissions[t.nextId := s], nextId := t.nextId + 1)
  }

  /** Rewriting the submission just stored is storing the rewritten one. */
  lemma ReplaceNewest(t: Tables, s: Submission, s': Submission)
    ensures var u := WithSubmission(t, s);
      u.(submissions := u.submissions[t.nextId := s']) == WithSubmission(t, s')
  {
    assert t.submissions[t.nextId := s][t.nextId := s'] == t.submissions[t.nextId := s'];
  }

  /** The submission `id` takes the overall verdict of its rows; nothing else changes. */
  method Settle(db: Database, id: nat)
    requires db.Valid() && id in db.submissions
    modifies db
    ensures db.Valid()
    ensures db.State() == old(db.State()).(submissions := old(db.submissions)[id :=
      old(db.submissions[id]).(status := OverallVerdict(old(db.submissions[id].testCases)))])
  {
    var s := db.submissions[id];
    db.submissions := db.submissions[id := s.(status := OverallVerdict(s.testCases))];
  }
}
