/** The relational store that the tRPC routers read and write through Prisma, abstracted
    as tables held in one object. Identifiers that the database generates (problem,
    test case and submission ids) are drawn from a counter, `nextId`. */
module Store {
  import opened Common

  type UserId = string

  datatype Role = USER | ADMIN

  datatype User = User(
    id: UserId,
    username: Option<string>,
    name: Option<string>,
    email: Option<string>,
    biography: Option<string>,
    country: Option<string>,
    institution: Option<string>,
    role: Role)

  /** One row of the follows table: `followerId` follows `followingId`. */
  datatype Follow = Follow(followerId: UserId, followingId: UserId)

  datatype TestCase = TestCase(id: nat, input: string, expectedOutput: string)

  datatype Problem = Problem(
    id: nat,
    title: string,
    slug: string,
    statement: string,
    inputDescription: string,
    outputDescription: string,
    difficulty: int,
    authorId: UserId,
    tags: seq<string>,          // names of the linked tags, in link order
    testCases: seq<TestCase>)

  /** The SubmissionStatus enumeration. */
  datatype Verdict =
    | PENDING
    | ACCEPTED
    | WRONG_ANSWER
    | TIME_LIMIT_EXCEEDED
    | COMPILATION_ERROR
    | RUNTIME_ERROR
    | MEMORY_LIMIT_EXCEEDED

  /** The Language enumeration (its spelling, FORTAN included, is the schema's). */
  datatype Language =
    | C | CPP | JAVA | PYTHON | RUST | GO | JAVASCRIPT | TYPESCRIPT | CSHARP | RUBY
    | HASKELL | LUA | PASCAL | KOTLIN | SWIFT | PHP | PERL | BASH | SCALA | D | FSHARP
    | ERLANG | ELIXIR | OCAML | R | NIM | SQL | COBOL | FORTH | FORTAN | LISP | NONE

  /** One SubmissionTestCase row. */
  datatype SubmissionTestCase = SubmissionTestCase(
    testCaseId: nat,
    input: string,
    expectedOutput: string,
    actualOutput: string,
    status: Verdict)

  datatype Submission = Submission(
    code: string,
    language: Language,
    status: Verdict,
    problemId: nat,
    userId: UserId,
    testCases: seq<SubmissionTestCase>)

  /** A snapshot of every table, so that an operation can state its whole effect at once. */
  datatype Tables = Tables(
    users: seq<User>,
    follows: set<Follow>,
    tags: set<string>,
    problems: seq<Problem>,
    submissions: map<nat, Submission>,
    nextId: nat)

  /** Ids unique, usernames unique, slugs unique, generated ids below the counter. */
  ghost predicate WellFormed(t: Tables) {
    && (forall i, j :: 0 <= i < j < |t.users| ==> t.users[i].id != t.users[j].id)
    && (forall i, j :: 0 <= i < j < |t.users| && t.users[i].username.Some? ==>
          t.users[i].username != t.users[j].username)
    && (forall i :: 0 <= i < |t.problems| ==> t.problems[i].id < t.nextId)
    && (forall i, j :: 0 <= i < j < |t.problems| ==> t.problems[i].id != t.problems[j].id)
    && (forall i, j :: 0 <= i < j < |t.problems| ==> t.problems[i].slug != t.problems[j].slug)
    && (forall id :: id in t.submissions ==> id < t.nextId)
  }

  class Database {
    var users: seq<User>
    var follows: set<Follow>
    var tags: set<string>
    var problems: seq<Problem>
    var submissions: map<nat, Submission>
    var nextId: nat

    function State(): Tables
      reads this
    {
      Tables(users, follows, tags, problems, submissions, nextId)
    }

    ghost predicate Valid()
      reads this
    {
      WellFormed(State())
    }

    constructor Empty()
      ensures Valid()
      ensures State() == Tables([], {}, {}, [], map[], 0)
    {
      users, follows, tags, problems, submissions, nextId := [], {}, {}, [], map[], 0;
    }
  }

  /** `findUnique({ where: { id } })` on the users table. */
  function UserIndex(users: seq<User>, id: UserId): Option<nat> {
    FirstIndex(users, (u: User) => u.id == id)
  }

  /** `findUnique({ where: { username } })` on the users table. */
  function UsernameIndex(users: seq<User>, username: string): Option<nat> {
    FirstIndex(users, (u: User) => u.username == Some(username))
  }

  /** `findUnique({ where: { slug } })` on the problems table. */
  function SlugIndex(problems: seq<Problem>, slug: string): Option<nat> {
    FirstIndex(problems, (p: Problem) => p.slug == slug)
  }

  /** `findUnique({ where: { id } })` on the problems table. */
  function ProblemIndex(problems: seq<Problem>, id: nat): Option<nat> {
    FirstIndex(problems, (p: Problem) => p.id == id)
  }

  /** `user?.role === Role.ADMIN` after looking the session user up. */
  predicate IsAdmin(users: seq<User>, id: UserId) {
    var k := UserIndex(users, id);
    k.Some? && users[k.value].role == ADMIN
  }
}
