/** The `problem` router: creating and updating problems (administrators only), looking
    problems up by slug, and the paginated administrator listing. The session user of a
    protected procedure is a parameter. */
module ProblemRouter {
  import opened Common
  import opened Store
  import Pagination

  /** The fields that `create` and `update` both take. */
  datatype ProblemInput = ProblemInput(
    title: string,
    slug: string,
    statement: string,
    inputDescription: string,
    outputDescription: string,
    difficulty: int,
    tags: seq<string>)

  /** A test case sent with `update`; its id, when present, is not used. */
  datatype TestCaseInput = TestCaseInput(id: Option<string>, input: string, expectedOutput: string)

  /** The length and range bounds of the problem fields in the input schemas. */
  predicate ProblemFieldsOk(p: ProblemInput) {
    && 1 <= |p.title| <= 100
    && |p.slug| >= 1
    && |p.statement| >= 1
    && |p.inputDescription| >= 1
    && |p.outputDescription| >= 1
    && 1 <= p.difficulty <= 10
  }

  predicate TestCaseOk(tc: TestCaseInput) {
    |tc.input| >= 1 && |tc.expectedOutput| >= 1
  }

  predicate TestCasesOk(tcs: seq<TestCaseInput>) {
    forall i :: 0 <= i < |tcs| ==> TestCaseOk(tcs[i])
  }

  function SeqSet(s: seq<string>): set<string> {
    set x | x in s
  }

  /** The problem that `create` inserts, with the next generated id and no test cases. */
  function NewProblem(id: nat, author: UserId, input: ProblemInput): Problem {
    Problem(id, input.title, input.slug, input.statement, input.inputDescription, input.outputDescription,
            input.difficulty, author, input.tags, [])
  }

  /** The tag upsert loop: every tag name of the input exists afterwards, and no other tag
      is created. */
  method UpsertTags(db: Database, names: seq<string>)
    requires db.Valid()
    modifies db
    ensures db.Valid()
    ensures db.State() == old(db.State()).(tags := old(db.tags) + SeqSet(names))
  {
    var i := 0;
    while i < |names|
      invariant 0 <= i <= |names|
      invariant db.Valid()
      invariant db.State() == old(db.State()).(tags := old(db.tags) + SeqSet(names[..i]))
    {
      assert SeqSet(names[..i + 1]) == SeqSet(names[..i]) + {names[i]} by {
        assert names[..i + 1] == names[..i] + [names[i]];
      }
      db.tags := db.tags + {names[i]};
      i := i + 1;
    }
    assert names[..i] == names;
  }

  /** After a problem with a fresh slug is appended, looking that slug up finds it. */
  lemma AppendedSlugIsFound(problems: seq<Problem>, p: Problem)
    requires SlugIndex(problems, p.slug).None?
    ensures SlugIndex(problems + [p], p.slug) == Some(|problems|)
  {
    assert (problems + [p])[|problems|].slug == p.slug;
    forall i | 0 <= i < |problems| ensures (problems + [p])[i].slug != p.slug {
      assert (problems + [p])[i] == problems[i];
    }
  }

  /** `create`: the input schema, then the administrator check, then slug uniqueness; on
      success the input's tags are upserted and the problem is inserted with them. */
  method Create(db: Database, sessionUser: UserId, input: ProblemInput) returns (r: Result<Problem>)
    requires db.Valid()
    modifies db
    ensures db.Valid()
    ensures !ProblemFieldsOk(input) ==> r == Err(BadRequest, InvalidInput) && db.State() == old(db.State())
    ensures ProblemFieldsOk(input) && !IsAdmin(old(db.users), sessionUser) ==>
      r == Err(Forbidden, "Only administrators can create problems") && db.State() == old(db.State())
    ensures ProblemFieldsOk(input) && IsAdmin(old(db.users), sessionUser) && SlugIndex(old(db.problems), input.slug).Some? ==>
      r == Err(BadRequest, "A problem with this slug already exists") && db.State() == old(db.State())
    ensures ProblemFieldsOk(input) && IsAdmin(old(db.users), sessionUser) && SlugIndex(old(db.problems), input.slug).None? ==>
      r.Ok?
    ensures r.Ok? ==>
      && ProblemFieldsOk(input) && IsAdmin(old(db.users), sessionUser) && SlugIndex(old(db.problems), input.slug).None?
      && r.value == NewProblem(old(db.nextId), sessionUser, input)
      && db.State() == old(db.State()).(tags := old(db.tags) + SeqSet(input.tags),
                                        problems := old(db.problems) + [r.value],
                                        nextId := old(db.nextId) + 1)
      && SlugIndex(db.problems, input.slug) == Some(|old(db.problems)|)
  {
    if !ProblemFieldsOk(input) {
      return Err(BadRequest, InvalidInput);
    }
    if !IsAdmin(db.users, sessionUser) {
      return Err(Forbidden, "Only administrators can create problems");
    }
    if SlugIndex(db.problems, input.slug).Some? {
      return Err(BadRequest, "A problem with this slug already exists");
    }
    var p := InsertProblem(db, sessionUser, input);
    r := Ok(p);
  }

  /** The transaction of `create`: upsert the tags, then insert the problem under the next
      id. */
  method InsertProblem(db: Database, author: UserId, input: ProblemInput) returns (p: Problem)
    requires db.Valid() && SlugIndex(db.problems, input.slug).None?
    modifies db
    ensures db.Valid()
    ensures p == NewProblem(old(db.nextId), author, input)
    ensures db.State() == old(db.State()).(tags := old(db.tags) + SeqSet(input.tags),
                                           problems := old(db.problems) + [p],
                                           nextId := old(db.nextId) + 1)
    ensures SlugIndex(db.problems, input.slug) == Some(|old(db.problems)|)
  {
    UpsertTags(db, input.tags);
    p := NewProblem(db.nextId, author, input);
    AppendedSlugIsFound(db.problems, p);
    AppendKeepsWellFormed(db.State(), p);
    db.problems, db.nextId := db.problems + [p], db.nextId + 1;
  }

  /** Appending a problem with the next id and a slug no problem has keeps the tables well
      formed. */
  lemma AppendKeepsWellFormed(t: Tables, p: Problem)
    requires WellFormed(t) && p.id == t.nextId && SlugIndex(t.problems, p.slug).None?
    ensures WellFormed(t.(problems := t.problems + [p], nextId := t.nextId + 1))
  {
    var ps := t.problems + [p];
    assert forall i :: 0 <= i < |t.problems| ==> ps[i] == t.problems[i];
  }

  /** The test cases that `update` creates, with consecutive fresh ids, in input order. */
  function FreshTestCases(tcs: seq<TestCaseInput>, firstId: nat): (r: seq<TestCase>)
    ensures |r| == |tcs|
    ensures forall i :: 0 <= i < |tcs| ==>
      r[i].input == tcs[i].input && r[i].expectedOutput == tcs[i].expectedOutput && r[i].id == firstId + i
  {
    seq(|tcs|, i requires 0 <= i < |tcs| => TestCase(firstId + i, tcs[i].input, tcs[i].expectedOutput))
  }

  /** The problem after `update`: every field from the input, tags and test cases replaced
      wholesale, id and author kept. */
  function UpdatedProblem(before: Problem, input: ProblemInput, testCases: seq<TestCaseInput>, firstId: nat): Problem {
    before.(title := input.title, slug := input.slug, statement := input.statement,
          inputDescription := input.inputDescription, outputDescription := input.outputDescription,
          difficulty := input.difficulty, tags := input.tags,
          testCases := FreshTestCases(testCases, firstId))
  }

  /** Replacing one problem by another with the same id and a slug that no other problem
      has keeps the tables well formed. */
  lemma ReplaceKeepsWellFormed(t: Tables, k: nat, p: Problem, t': Tables)
    requires WellFormed(t) && k < |t.problems|
    requires p.id == t.problems[k].id && t'.nextId >= t.nextId
    requires forall j :: 0 <= j < |t.problems| && j != k ==> t.problems[j].slug != p.slug
    requires t' == t.(problems := t.problems[k := p], nextId := t'.nextId, tags := t'.tags)
    ensures WellFormed(t')
  {
  }

  /** `update`: the input schema, the administrator check, the problem must exist, and a
      changed slug must be free; then, in one transaction, the old test cases and tag links
      are deleted, the tags upserted, and the problem rewritten with the input's tags and
      newly created test cases. */
  method Update(db: Database, sessionUser: UserId, id: nat, input: ProblemInput, testCases: seq<TestCaseInput>)
    returns (r: Result<Problem>)
    requires db.Valid()
    modifies db
    ensures db.Valid()
    ensures !(ProblemFieldsOk(input) && TestCasesOk(testCases)) ==>
      r == Err(BadRequest, InvalidInput) && db.State() == old(db.State())
    ensures ProblemFieldsOk(input) && TestCasesOk(testCases) && !IsAdmin(old(db.users), sessionUser) ==>
      r == Err(Forbidden, "Only administrators can update problems") && db.State() == old(db.State())
    ensures (ProblemFieldsOk(input) && TestCasesOk(testCases) && IsAdmin(old(db.users), sessionUser)
             && ProblemIndex(old(db.problems), id).None?) ==>
      r == Err(NotFound, "Problem not found") && db.State() == old(db.State())
    ensures r.Err? ==> db.State() == old(db.State())
    ensures r.Ok? ==>
      && ProblemFieldsOk(input) && TestCasesOk(testCases) && IsAdmin(old(db.users), sessionUser)
      && ProblemIndex(old(db.problems), id).Some?
      && var k := ProblemIndex(old(db.problems), id).value;
         var before := old(db.problems)[k];
         && (input.slug != before.slug ==> SlugIndex(old(db.problems), input.slug).None?)
         && r.value == UpdatedProblem(before, input, testCases, old(db.nextId))
         && db.State() == old(db.State()).(tags := old(db.tags) + SeqSet(input.tags),
                                           problems := old(db.problems)[k := r.value],
                                           nextId := old(db.nextId) + |testCases|)
    ensures (ProblemFieldsOk(input) && TestCasesOk(testCases) && IsAdmin(old(db.users), sessionUser)
             && ProblemIndex(old(db.problems), id).Some?
             && input.slug != old(db.problems)[ProblemIndex(old(db.problems), id).value].slug
             && SlugIndex(old(db.problems), input.slug).Some?) ==>
      r == Err(BadRequest, "A problem with this slug already exists")
    ensures (ProblemFieldsOk(input) && TestCasesOk(testCases) && IsAdmin(old(db.users), sessionUser)
             && ProblemIndex(old(db.problems), id).Some?
             && (input.slug == old(db.problems)[ProblemIndex(old(db.problems), id).value].slug
                 || SlugIndex(old(db.problems), input.slug).None?)) ==>
      r.Ok?
  {
    if !(ProblemFieldsOk(input) && TestCasesOk(testCases)) {
      return Err(BadRequest, InvalidInput);
    }
    if !IsAdmin(db.users, sessionUser) {
      return Err(Forbidden, "Only administrators can update problems");
    }
    var k := ProblemIndex(db.problems, id);
    if k.None? {
      return Err(NotFound, "Problem not found");
    }
    var existing := db.problems[k.value];
    if input.slug != existing.slug && SlugIndex(db.problems, input.slug).Some? {
      return Err(BadRequest, "A problem with this slug already exists");
    }
    SlugFreeForUpdate(db.State(), k.value, input.slug);
    r := RewriteProblem(db, k.value, input, testCases);
  }

  /** The slug an update may give a problem: unchanged, or one that no problem has. Either
      way no other problem has it. */
  lemma SlugFreeForUpdate(t: Tables, k: nat, slug: string)
    requires WellFormed(t) && k < |t.problems|
    requires slug != t.problems[k].slug ==> SlugIndex(t.problems, slug).None?
    ensures forall j :: 0 <= j < |t.problems| && j != k ==> t.problems[j].slug != slug
  {
  }

  /** The transaction of `update`: delete the test cases and tag links, upsert the tags,
      and rewrite problem k with the input's fields, tags and newly created test cases. */
  method RewriteProblem(db: Database, k: nat, input: ProblemInput, testCases: seq<TestCaseInput>)
    returns (r: Result<Problem>)
    requires db.Valid() && k < |db.problems|
    requires forall j :: 0 <= j < |db.problems| && j != k ==> db.problems[j].slug != input.slug
    modifies db
    ensures db.Valid()
    ensures r == Ok(UpdatedProblem(old(db.problems)[k], input, testCases, old(db.nextId)))
    ensures db.State() == old(db.State()).(tags := old(db.tags) + SeqSet(input.tags),
                                           problems := old(db.problems)[k := r.value],
                                           nextId := old(db.nextId) + |testCases|)
  {
    var existing := db.problems[k];
    UpsertTags(db, input.tags);
    ghost var t1 := db.State();
    var created := CreateTestCases(db, testCases);
    var updated := existing.(title := input.title, slug := input.slug, statement := input.statement,
                             inputDescription := input.inputDescription, outputDescription := input.outputDescription,
                             difficulty := input.difficulty, tags := input.tags, testCases := created);
    ReplaceKeepsWellFormed(t1.(nextId := db.nextId), k, updated,
                           t1.(problems := t1.problems[k := updated], nextId := db.nextId));
    db.problems := db.problems[k := updated];
    r := Ok(updated);
  }

  /** The test case inserts of `update`: one new row per input test case, in input order,
      each under the next id. */
  method CreateTestCases(db: Database, testCases: seq<TestCaseInput>) returns (created: seq<TestCase>)
    requires db.Valid()
    modifies db
    ensures db.Valid()
    ensures created == FreshTestCases(testCases, old(db.nextId))
    ensures db.State() == old(db.State()).(nextId := old(db.nextId) + |testCases|)
  {
    ghost var t0 := db.State();
    var firstId := db.nextId;
    created := [];
    var i := 0;
    while i < |testCases|
      invariant 0 <= i <= |testCases|
      invariant db.Valid()
      invariant db.State() == t0.(nextId := firstId + i)
      invariant created == FreshTestCases(testCases[..i], firstId)
    {
      created := created + [TestCase(db.nextId, testCases[i].input, testCases[i].expectedOutput)];
      db.nextId := db.nextId + 1;
      i := i + 1;
    }
    assert testCases[..i] == testCases;
  }

  /** After a successful update, the problem's test cases are the input's, in input order,
      with pairwise distinct ids, none below the counter's value before the update; its tags
      are the input's names. */
  lemma UpdateReplacesTestCases(before: Problem, input: ProblemInput, testCases: seq<TestCaseInput>, firstId: nat)
    ensures var p := UpdatedProblem(before, input, testCases, firstId);
      && p.id == before.id && p.authorId == before.authorId && p.tags == input.tags
      && |p.testCases| == |testCases|
      && (forall i :: 0 <= i < |testCases| ==>
            p.testCases[i].input == testCases[i].input
            && p.testCases[i].expectedOutput == testCases[i].expectedOutput
            && p.testCases[i].id >= firstId)
      && (forall i, j :: 0 <= i < j < |testCases| ==> p.testCases[i].id != p.testCases[j].id)
  {
  }

  /** `getBySlug`: the problem with that slug, with at most its first test case. */
  function GetBySlug(t: Tables, slug: string): (r: Result<Problem>)
    ensures |slug| == 0 ==> r == Err(BadRequest, InvalidInput)
    ensures |slug| > 0 ==>
      (r.Err? <==> forall i :: 0 <= i < |t.problems| ==> t.problems[i].slug != slug)
    ensures r.Err? && |slug| > 0 ==> r.code == NotFound
    ensures r.Ok? ==>
      && r.value.slug == slug
      && (exists i :: 0 <= i < |t.problems| && t.problems[i] == r.value.(testCases := t.problems[i].testCases)
            && r.value.testCases <= t.problems[i].testCases
            && |r.value.testCases| == (if |t.problems[i].testCases| == 0 then 0 else 1))
  {
    if |slug| == 0 then Err(BadRequest, InvalidInput)
    else
      match SlugIndex(t.problems, slug)
      case None => Err(NotFound, "Problem with slug \"" + slug + "\" not found")
      case Some(k) =>
        var p := t.problems[k];
        var r := p.(testCases := if |p.testCases| == 0 then [] else p.testCases[..1]);
        assert t.problems[k] == r.(testCases := p.testCases);
        Ok(r)
  }

  /** The number of ACCEPTED submissions of a problem (`_count` of its submissions where the
      status is ACCEPTED). */
  function SolvedCount(submissions: map<nat, Submission>, problemId: nat): (r: nat)
    ensures r == 0 <==> forall id :: id in submissions && submissions[id].problemId == problemId ==>
      submissions[id].status != ACCEPTED
    ensures r <= |submissions|
  {
    var solved := SolvedIds(submissions, problemId);
    assert solved <= submissions.Keys;
    SubsetCard(solved, submissions.Keys);
    if solved == {} then
      assert forall id :: (id in submissions && submissions[id].problemId == problemId
                           && submissions[id].status == ACCEPTED) ==> id in solved;
      |solved|
    else
      var id :| id in solved;
      |solved|
  }

  /** A subset is no larger than the set that holds it. */
  lemma {:induction false} SubsetCard(a: set<nat>, b: set<nat>)
    requires a <= b
    ensures |a| <= |b|
    decreases |b|
  {
    if a != {} {
      var x :| x in a;
      SubsetCard(a - {x}, b - {x});
    }
  }

  function SolvedIds(submissions: map<nat, Submission>, problemId: nat): set<nat> {
    set id | id in submissions && submissions[id].problemId == problemId && submissions[id].status == ACCEPTED
  }

  datatype ProblemSummary = ProblemSummary(id: nat, name: string, slug: string, tags: seq<string>, solved: nat)

  function Summary(t: Tables, p: Problem): ProblemSummary {
    ProblemSummary(p.id, p.title, p.slug, p.tags, SolvedCount(t.submissions, p.id))
  }

  predicate SlugsOk(slugs: seq<string>) {
    |slugs| >= 1 && forall i :: 0 <= i < |slugs| ==> |slugs[i]| >= 1
  }

  /** `getBySlugs`: the problems whose slug is listed, in creation order, each with its
      number of accepted submissions; NOT_FOUND when none matches. */
  function GetBySlugs(t: Tables, slugs: seq<string>): (r: Result<seq<ProblemSummary>>)
    ensures !SlugsOk(slugs) ==> r == Err(BadRequest, InvalidInput)
    ensures SlugsOk(slugs) ==>
      (r == Err(NotFound, "No problems found with the provided slugs") <==>
         forall i :: 0 <= i < |t.problems| ==> t.problems[i].slug !in slugs)
    ensures r.Ok? ==> forall i :: 0 <= i < |r.value| ==> r.value[i].slug in slugs
    ensures r.Ok? ==> forall i :: 0 <= i < |t.problems| && t.problems[i].slug in slugs ==>
      Summary(t, t.problems[i]) in r.value
    ensures SlugsOk(slugs) && (exists i :: 0 <= i < |t.problems| && t.problems[i].slug in slugs) ==> r.Ok?
    // each matching problem once, in creation (table) order
    ensures r.Ok? ==> r.value == Summaries(t, Filter(t.problems, SlugListed(slugs)))
  {
    if !SlugsOk(slugs) then Err(BadRequest, InvalidInput)
    else
      var matches := Filter(t.problems, SlugListed(slugs));
      if |matches| == 0 then
        Err(NotFound, "No problems found with the provided slugs")
      else
        assert matches[0] in t.problems && matches[0].slug in slugs;
        SummariesCover(t, slugs);
        Ok(Summaries(t, matches))
  }

  /** The test `slugs.includes(p.slug)` of the query. */
  function SlugListed(slugs: seq<string>): Problem -> bool {
    (p: Problem) => p.slug in slugs
  }

  function Summaries(t: Tables, ps: seq<Problem>): (r: seq<ProblemSummary>)
    ensures |r| == |ps| && forall i :: 0 <= i < |ps| ==> r[i] == Summary(t, ps[i])
  {
    seq(|ps|, i requires 0 <= i < |ps| => Summary(t, ps[i]))
  }

  /** Every listed problem's summary is among the summaries of the matches. */
  lemma SummariesCover(t: Tables, slugs: seq<string>)
    ensures var summaries := Summaries(t, Filter(t.problems, SlugListed(slugs)));
      forall i :: 0 <= i < |t.problems| && t.problems[i].slug in slugs ==> Summary(t, t.problems[i]) in summaries
  {
    var matches := Filter(t.problems, SlugListed(slugs));
    var summaries := Summaries(t, matches);
    forall i | 0 <= i < |t.problems| && t.problems[i].slug in slugs
      ensures Summary(t, t.problems[i]) in summaries
    {
      assert SlugListed(slugs)(t.problems[i]);
      assert t.problems[i] in matches;
      var j :| 0 <= j < |matches| && matches[j] == t.problems[i];
      assert summaries[j] == Summary(t, t.problems[i]);
    }
  }

  /** As the procedures are written, a submission never leaves PENDING, so every problem
      shows zero solutions. */
  lemma NothingIsEverSolved(t: Tables, problemId: nat)
    requires forall id :: id in t.submissions ==> t.submissions[id].status == PENDING
    ensures SolvedCount(t.submissions, problemId) == 0
  {
    assert SolvedIds(t.submissions, problemId) == {};
  }

  /** A new submission counts towards its problem's solutions exactly when its status is
      ACCEPTED. */
  lemma SolvedCountAdd(submissions: map<nat, Submission>, id: nat, s: Submission, problemId: nat)
    requires id !in submissions
    ensures SolvedCount(submissions[id := s], problemId) ==
      SolvedCount(submissions, problemId) + (if s.problemId == problemId && s.status == ACCEPTED then 1 else 0)
  {
    var before := SolvedIds(submissions, problemId);
    var m := submissions[id := s];
    var after := SolvedIds(m, problemId);
    assert id !in before;
    if s.problemId == problemId && s.status == ACCEPTED {
      forall k ensures k in after <==> k in before + {id} {
        if k != id && k in m { assert m[k] == submissions[k]; }
      }
      assert after == before + {id};
    } else {
      forall k ensures k in after <==> k in before {
        if k != id && k in m { assert m[k] == submissions[k]; }
      }
      assert after == before;
    }
  }

  // ---------------------------------------------------------------------------------
  // Administrator listing
  // ---------------------------------------------------------------------------------

  /** One row of the listing. */
  datatype ProblemRow = ProblemRow(id: nat, title: string, difficulty: int, slug: string, submissions: nat,
                                   author: string, tags: seq<string>)

  /** `author.name ?? author.username ?? "Unknown"`. */
  function AuthorLabel(users: seq<User>, authorId: UserId): string {
    match UserIndex(users, authorId)
    case None => "Unknown"
    case Some(k) => users[k].name.GetOr(users[k].username.GetOr("Unknown"))
  }

  /** `_count` of a problem's submissions, whatever their status. */
  function SubmissionCount(submissions: map<nat, Submission>, problemId: nat): (r: nat)
    ensures r == 0 <==> forall id :: id in submissions ==> submissions[id].problemId != problemId
    ensures SolvedCount(submissions, problemId) <= r <= |submissions|
  {
    var all := SubmissionIds(submissions, problemId);
    SubsetCard(SolvedIds(submissions, problemId), all);
    SubsetCard(all, submissions.Keys);
    if all == {} then
      assert forall id :: id in submissions && submissions[id].problemId == problemId ==> id in all;
      |all|
    else
      var id :| id in all;
      |all|
  }

  function SubmissionIds(submissions: map<nat, Submission>, problemId: nat): set<nat> {
    set id | id in submissions && submissions[id].problemId == problemId
  }

  /** Every new submission of a problem adds one to its submission count, and a submission
      of another problem adds nothing; with the count 0 of an empty table, this fixes the
      count as the number of the problem's submissions. */
  lemma SubmissionCountAdd(submissions: map<nat, Submission>, id: nat, s: Submission, problemId: nat)
    requires id !in submissions
    ensures SubmissionCount(map[], problemId) == 0
    ensures SubmissionCount(submissions[id := s], problemId) ==
      SubmissionCount(submissions, problemId) + (if s.problemId == problemId then 1 else 0)
  {
    var before := SubmissionIds(submissions, problemId);
    var m := submissions[id := s];
    var after := SubmissionIds(m, problemId);
    assert id !in before;
    if s.problemId == problemId {
      forall k ensures k in after <==> k in before + {id} {
        if k != id && k in m { assert m[k] == submissions[k]; }
      }
      assert after == before + {id};
    } else {
      forall k ensures k in after <==> k in before {
        if k != id && k in m { assert m[k] == submissions[k]; }
      }
      assert after == before;
    }
  }

  /** The row of a problem in the listing: its own fields as stored, the number of its
      submissions, which is at least the number of accepted ones, and the author's label. */
  function Row(t: Tables, p: Problem): (r: ProblemRow)
    ensures r.id == p.id && r.title == p.title && r.difficulty == p.difficulty && r.slug == p.slug && r.tags == p.tags
    ensures r.submissions == SubmissionCount(t.submissions, p.id) && r.author == AuthorLabel(t.users, p.authorId)
    ensures SolvedCount(t.submissions, p.id) <= r.submissions
    ensures r.submissions == 0 <==> forall id :: id in t.submissions ==> t.submissions[id].problemId != p.id
  {
    ProblemRow(p.id, p.title, p.difficulty, p.slug, SubmissionCount(t.submissions, p.id),
               AuthorLabel(t.users, p.authorId), p.tags)
  }

  datatype AdminPage = AdminPage(problems: seq<ProblemRow>, total: nat, pageCount: int, page: int, perPage: int)

  /** The problems on page `page` of size `perPage`: skip `(page - 1) * perPage`, take
      `perPage`. */
  function PageSlice(problems: seq<Problem>, page: int, perPage: int): (r: seq<Problem>)
    requires page >= 1 && perPage >= 1
    ensures var skip := (page - 1) * perPage;
      && |r| == (if skip >= |problems| then 0 else if skip + perPage <= |problems| then perPage else |problems| - skip)
      && forall i :: 0 <= i < |r| ==> skip + i < |problems| && r[i] == problems[skip + i]
  {
    var skip := (page - 1) * perPage;
    if skip >= |problems| then []
    else problems[skip..if skip + perPage <= |problems| then skip + perPage else |problems|]
  }

  /** A number field of the query input: left out, so that the schema's default applies;
      NaN, which `Number` gives for text that is not a number and `z.number()` refuses; or
      a number. */
  datatype NumberParam = Absent | NaN | Value(n: int)

  /** The value of a number field that is not NaN, with `default` for a missing one. */
  function NumberOrDefault(p: NumberParam, default: int): int
    requires !p.NaN?
  {
    if p.Value? then p.n else default
  }

  /** `adminList`: the input schema (page at least 1, perPage between 1 and 100, with
      defaults 1 and 10), the administrator check, then one page of rows together with the
      total and the page count. */
  function AdminList(t: Tables, sessionUser: UserId, pageParam: NumberParam, perPageParam: NumberParam): (r: Result<AdminPage>)
    ensures pageParam.NaN? || perPageParam.NaN? ==> r == Err(BadRequest, InvalidInput)
    ensures !pageParam.NaN? && !perPageParam.NaN? ==>
      var page := NumberOrDefault(pageParam, 1);
      var perPage := NumberOrDefault(perPageParam, 10);
      && (!(page >= 1 && 1 <= perPage <= 100) ==> r == Err(BadRequest, InvalidInput))
      && (page >= 1 && 1 <= perPage <= 100 && IsAdmin(t.users, sessionUser) ==> r.Ok?)
      && (page >= 1 && 1 <= perPage <= 100 && !IsAdmin(t.users, sessionUser) ==>
            r == Err(Forbidden, "Only administrators can access this resource"))
      && (r.Ok? ==>
            && r.value.total == |t.problems| && r.value.page == page && r.value.perPage == perPage
            && |r.value.problems| <= perPage
            && (r.value.pageCount - 1) * perPage < |t.problems| <= r.value.pageCount * perPage
            && |r.value.problems| == |PageSlice(t.problems, page, perPage)|
            && forall i :: 0 <= i < |r.value.problems| ==>
                 r.value.problems[i] == Row(t, PageSlice(t.problems, page, perPage)[i]))
  {
    if pageParam.NaN? || perPageParam.NaN? then Err(BadRequest, InvalidInput)
    else
      var page := NumberOrDefault(pageParam, 1);
      var perPage := NumberOrDefault(perPageParam, 10);
      if !(page >= 1 && 1 <= perPage <= 100) then Err(BadRequest, InvalidInput)
      else if !IsAdmin(t.users, sessionUser) then Err(Forbidden, "Only administrators can access this resource")
      else
        var slice := PageSlice(t.problems, page, perPage);
        var pageCount := Pagination.CeilDiv(|t.problems|, perPage);
        Pagination.TotalPagesFits(|t.problems|, perPage);
        Ok(AdminPage(seq(|slice|, i requires 0 <= i < |slice| => Row(t, slice[i])), |t.problems|, pageCount, page, perPage))
  }

  /** Concatenating the slices of pages 1 to n gives the first n * perPage problems. */
  function Pages(problems: seq<Problem>, n: nat, perPage: int): seq<Problem>
    requires perPage >= 1
  {
    if n == 0 then [] else Pages(problems, n - 1, perPage) + PageSlice(problems, n, perPage)
  }

  lemma {:induction false} PagesArePrefix(problems: seq<Problem>, n: nat, perPage: int)
    requires perPage >= 1
    ensures Pages(problems, n, perPage) == problems[..if n * perPage <= |problems| then n * perPage else |problems|]
  {
    if n > 0 {
      PagesArePrefix(problems, n - 1, perPage);
      assert (n - 1) * perPage + perPage == n * perPage;
    }
  }

  lemma MulMonotone(a: int, b: int, c: int)
    requires a >= b && c >= 0
    ensures a * c >= b * c
  {
  }

  /** The pages 1 to pageCount list every problem exactly once and in order, and every page
      past the last is empty. */
  lemma PagesPartition(problems: seq<Problem>, perPage: int, page: int)
    requires 1 <= perPage
    ensures var pageCount := Pagination.CeilDiv(|problems|, perPage);
      && pageCount >= 0
      && Pages(problems, pageCount, perPage) == problems
      && (page > pageCount ==> PageSlice(problems, page, perPage) == [])
  {
    var pageCount := Pagination.CeilDiv(|problems|, perPage);
    Pagination.TotalPagesFits(|problems|, perPage);
    PagesArePrefix(problems, pageCount, perPage);
    assert problems[..|problems|] == problems;
    if page > pageCount {
      MulMonotone(page - 1, pageCount, perPage);
    }
  }

  /** `getTestCases`: administrators only; the test cases of the problem in creation order
      (none for an unknown id). */
  function GetTestCases(t: Tables, sessionUser: UserId, problemId: nat): (r: Result<seq<TestCase>>)
    ensures !IsAdmin(t.users, sessionUser) <==> r == Err(Forbidden, "Only administrators can view all test cases")
    ensures IsAdmin(t.users, sessionUser) ==> r.Ok?
    ensures r.Ok? && ProblemIndex(t.problems, problemId).None? ==> r.value == []
    ensures r.Ok? && ProblemIndex(t.problems, problemId).Some? ==>
      r.value == t.problems[ProblemIndex(t.problems, problemId).value].testCases
  {
    if !IsAdmin(t.users, sessionUser) then Err(Forbidden, "Only administrators can view all test cases")
    else
      match ProblemIndex(t.problems, problemId)
      case None => Ok([])
      case Some(k) => Ok(t.problems[k].testCases)
  }
}
