/** The form that edits an existing problem: its fields, its tag list and its list of test
    cases, which are sent together to the `update` procedure. */
module EditProblem {
  import opened Common
  import TagList
  import AddTestDialog
  import ProblemRouter

  /** The fields of the form. */
  datatype FormValues = FormValues(
    title: string,
    slug: string,
    statement: string,
    inputDescription: string,
    outputDescription: string,
    difficulty: int)

  /** The form's own schema, checked before `onSubmit` runs. */
  predicate FormSchemaOk(v: FormValues) {
    && 1 <= |v.title| <= 100
    && 1 <= |v.slug| <= 100
    && |v.statement| >= 1
    && |v.inputDescription| >= 1
    && |v.outputDescription| >= 1
    && 1 <= v.difficulty <= 100
  }

  /** A test case as the form holds it: stored ones keep their ids, new ones get the id the
      add dialog chose. */
  datatype ClientTestCase = ClientTestCase(id: string, input: string, expectedOutput: string, problemId: nat)

  /** The request `onSubmit` sends. */
  datatype UpdateRequest = UpdateRequest(id: nat, values: FormValues, tags: seq<string>, testCases: seq<ClientTestCase>)

  /** The test `tc.id !== id` of `testCases.filter(...)`. */
  function HasOtherId(id: string): ClientTestCase -> bool {
    (tc: ClientTestCase) => tc.id != id
  }

  /** The test cases after `removeTestCase(id)`: every one with that id goes, the others
      stay in order. */
  function WithoutTestCase(tcs: seq<ClientTestCase>, id: string): (r: seq<ClientTestCase>)
    ensures forall i :: 0 <= i < |r| ==> r[i].id != id && r[i] in tcs
    ensures forall i :: 0 <= i < |tcs| && tcs[i].id != id ==> tcs[i] in r
    ensures |r| <= |tcs|
  {
    Filter(tcs, HasOtherId(id))
  }

  /** Removing from a concatenation removes from each part: the test cases that stay keep
      their order. */
  lemma WithoutTestCaseAppend(a: seq<ClientTestCase>, b: seq<ClientTestCase>, id: string)
    ensures WithoutTestCase(a + b, id) == WithoutTestCase(a, id) + WithoutTestCase(b, id)
  {
    FilterAppend(a, b, HasOtherId(id));
  }

  /** On a single test case, removal drops it exactly when it has the removed id. Together
      with `WithoutTestCaseAppend` this fixes the whole result, element by element. */
  lemma WithoutTestCaseSingle(tc: ClientTestCase, id: string)
    ensures WithoutTestCase([tc], id) == if tc.id == id then [] else [tc]
  {
    assert [tc][1..] == [];
  }

  /** The test case `handleAddTestCase` stores for a test case from the dialog. */
  function Attached(n: AddTestDialog.NewTestCase, problemId: nat): ClientTestCase {
    ClientTestCase(n.id, n.input, n.expectedOutput, problemId)
  }

  /** What the `update` procedure receives: the form fields and tags as the problem input,
      and each test case with its id. */
  function ServerProblem(r: UpdateRequest): ProblemRouter.ProblemInput {
    ProblemRouter.ProblemInput(r.values.title, r.values.slug, r.values.statement,
      r.values.inputDescription, r.values.outputDescription, r.values.difficulty, r.tags)
  }

  function ServerTestCases(tcs: seq<ClientTestCase>): (r: seq<ProblemRouter.TestCaseInput>)
    ensures |r| == |tcs|
    ensures forall i :: 0 <= i < |tcs| ==>
      r[i] == ProblemRouter.TestCaseInput(Some(tcs[i].id), tcs[i].input, tcs[i].expectedOutput)
  {
    seq(|tcs|, i requires 0 <= i < |tcs| =>
      ProblemRouter.TestCaseInput(Some(tcs[i].id), tcs[i].input, tcs[i].expectedOutput))
  }

  /** The form's schema and the server's agree except on two bounds: the form lets the
      difficulty reach 100 where the server stops at 10 (the slider keeps it within 1 to 10),
      and the form limits the slug to 100 characters where the server does not. */
  lemma SchemasAgree(r: UpdateRequest)
    ensures FormSchemaOk(r.values) && r.values.difficulty <= 10 ==> ProblemRouter.ProblemFieldsOk(ServerProblem(r))
    ensures ProblemRouter.ProblemFieldsOk(ServerProblem(r)) && |r.values.slug| <= 100 ==> FormSchemaOk(r.values)
  {
  }

  /** Every test case that reaches the form through the dialog has both texts, so the server
      accepts the list. */
  lemma DialogTestCasesAreAccepted(tcs: seq<ClientTestCase>)
    requires forall i :: 0 <= i < |tcs| ==> tcs[i].input != "" && tcs[i].expectedOutput != ""
    ensures ProblemRouter.TestCasesOk(ServerTestCases(tcs))
  {
  }

  class EditForm {
    const problemId: nat
    var values: FormValues
    var tags: seq<string>
    var newTag: string
    var testCases: seq<ClientTestCase>
    /** The update requests sent, oldest first. */
    var sent: seq<UpdateRequest>

    /** The form starts from the stored problem. */
    constructor (problemId: nat, values: FormValues, tags: seq<string>, testCases: seq<ClientTestCase>)
      ensures this.problemId == problemId && this.values == values && this.tags == tags
      ensures this.testCases == testCases && newTag == "" && sent == []
    {
      this.problemId := problemId;
      this.values := values;
      this.tags := tags;
      newTag := "";
      this.testCases := testCases;
      sent := [];
    }

    /** Typing in one of the form's inputs. */
    method SetValues(v: FormValues)
      modifies this
      ensures values == v
      ensures tags == old(tags) && newTag == old(newTag) && testCases == old(testCases) && sent == old(sent)
    {
      values := v;
    }

    /** Typing in the new-tag box. */
    method SetNewTag(s: string)
      modifies this
      ensures newTag == s
      ensures values == old(values) && tags == old(tags) && testCases == old(testCases) && sent == old(sent)
    {
      newTag := s;
    }

    /** `addTag`: a non-empty, absent tag is appended and the box cleared; otherwise nothing
        changes, the box included. */
    method AddTag()
      modifies this
      ensures tags == TagList.AddedTag(old(tags), old(newTag))
      ensures newTag == if TagList.Adds(old(tags), old(newTag)) then "" else old(newTag)
      ensures values == old(values) && testCases == old(testCases) && sent == old(sent)
    {
      if newTag != "" && newTag !in tags {
        tags := tags + [newTag];
        newTag := "";
      }
    }

    /** `removeTag(t)`. */
    method RemoveTag(t: string)
      modifies this
      ensures tags == TagList.WithoutTag(old(tags), t)
      ensures values == old(values) && newTag == old(newTag) && testCases == old(testCases) && sent == old(sent)
    {
      tags := Filter(tags, TagList.IsNot(t));
    }

    /** `removeTestCase(id)`. */
    method RemoveTestCase(id: string)
      modifies this
      ensures testCases == WithoutTestCase(old(testCases), id)
      ensures values == old(values) && tags == old(tags) && newTag == old(newTag) && sent == old(sent)
    {
      testCases := Filter(testCases, HasOtherId(id));
    }

    /** `handleAddTestCase`: the dialog's test case goes at the end, tagged with this
        problem's id. */
    method HandleAddTestCase(n: AddTestDialog.NewTestCase)
      modifies this
      ensures testCases == old(testCases) + [Attached(n, problemId)]
      ensures values == old(values) && tags == old(tags) && newTag == old(newTag) && sent == old(sent)
    {
      testCases := testCases + [ClientTestCase(n.id, n.input, n.expectedOutput, problemId)];
    }

    /** `form.handleSubmit(onSubmit)`: when the fields pass the form's schema, the request
        carries the problem id, the fields, and the current tags and test cases unchanged. */
    method Submit()
      modifies this
      ensures FormSchemaOk(values) ==> sent == old(sent) + [UpdateRequest(problemId, values, tags, testCases)]
      ensures !FormSchemaOk(values) ==> sent == old(sent)
      ensures values == old(values) && tags == old(tags) && newTag == old(newTag) && testCases == old(testCases)
    {
      if FormSchemaOk(values) {
        sent := sent + [UpdateRequest(problemId, values, tags, testCases)];
      }
    }

    /** A test case from the dialog given an id that no test case of the form has, instead
        of the dialog's millisecond id. */
    method HandleAddTestCaseFresh(input: string, expectedOutput: string)
      modifies this
      ensures testCases == old(testCases) + [ClientTestCase(FreshId(old(testCases)), input, expectedOutput, problemId)]
      ensures values == old(values) && tags == old(tags) && newTag == old(newTag) && sent == old(sent)
    {
      testCases := testCases + [ClientTestCase(FreshId(testCases), input, expectedOutput, problemId)];
    }
  }

  // ---------------------------------------------------------------------------------
  // Test case ids
  // ---------------------------------------------------------------------------------

  /** As written: the dialog names a test case after the millisecond part of the clock, so
      two test cases added a whole number of seconds apart share an id, and removing the
      second one removes the first as well. */
  lemma SameMillisecondRemovesBoth(tcs: seq<ClientTestCase>, problemId: nat,
                                   in1: string, out1: string, in2: string, out2: string,
                                   clockMs: nat, seconds: nat)
    requires in1 != "" && out1 != "" && in2 != "" && out2 != ""
    ensures var first := AddTestDialog.Accepted(in1, out1, clockMs).value;
      var second := AddTestDialog.Accepted(in2, out2, clockMs + 1000 * seconds).value;
      var both := tcs + [Attached(first, problemId)] + [Attached(second, problemId)];
      && first.id == second.id
      && WithoutTestCase(both, second.id) == WithoutTestCase(tcs, second.id)
  {
    var first := AddTestDialog.Accepted(in1, out1, clockMs).value;
    var second := AddTestDialog.Accepted(in2, out2, clockMs + 1000 * seconds).value;
    AddTestDialog.IdsRepeatEverySecond(clockMs, seconds);
    var pair := [Attached(first, problemId), Attached(second, problemId)];
    assert tcs + [Attached(first, problemId)] + [Attached(second, problemId)] == tcs + pair;
    FilterAppend(tcs, pair, HasOtherId(second.id));
    assert Filter(pair, HasOtherId(second.id)) == [] by {
      assert pair[1..][1..] == [];
    }
  }

  /** A string of `n` copies of 't'. */
  function Repeat(n: nat): (s: string)
    ensures |s| == n
  {
    if n == 0 then "" else Repeat(n - 1) + "t"
  }

  function MaxIdLength(tcs: seq<ClientTestCase>): (m: nat)
    ensures forall i :: 0 <= i < |tcs| ==> |tcs[i].id| <= m
  {
    if tcs == [] then 0
    else
      var rest := MaxIdLength(tcs[1..]);
      assert forall i :: 1 <= i < |tcs| ==> tcs[i] == tcs[1..][i - 1];
      if |tcs[0].id| > rest then |tcs[0].id| else rest
  }

  /** An id longer than every id in the list, so different from all of them. */
  function FreshId(tcs: seq<ClientTestCase>): (id: string)
    ensures forall i :: 0 <= i < |tcs| ==> tcs[i].id != id
  {
    Repeat(MaxIdLength(tcs) + 1)
  }

  /** Corrected: with a fresh id, removing the test case just added gives back the list it
      was added to. */
  lemma {:induction false} FreshAddThenRemoveRestores(tcs: seq<ClientTestCase>, input: string, expectedOutput: string, problemId: nat)
    ensures var id := FreshId(tcs);
      WithoutTestCase(tcs + [ClientTestCase(id, input, expectedOutput, problemId)], id) == tcs
  {
    var id := FreshId(tcs);
    var added := [ClientTestCase(id, input, expectedOutput, problemId)];
    FilterAppend(tcs, added, HasOtherId(id));
    FilterKeepsAll(tcs, HasOtherId(id));
    assert Filter(added, HasOtherId(id)) == [] by {
      assert added[1..] == [];
    }
  }
}
