/** The admin problem list: the colour of a difficulty badge, the query parameters that
    drive the listing, and the filter controls that rewrite them. */
module AdminProblems {
  import opened Common
  import opened SearchParams

  datatype BadgeVariant = Default | Destructive | Outline | Secondary

  /** `getDifficultyColor`: three bands, split at 300 and 600. */
  function DifficultyColor(difficulty: int): (v: BadgeVariant)
    ensures v == Secondary <==> difficulty <= 300
    ensures v == Default <==> 300 < difficulty <= 600
    ensures v == Destructive <==> 600 < difficulty
  {
    if difficulty <= 300 then Secondary
    else if difficulty <= 600 then Default
    else Destructive
  }

  /** The bands in increasing order of difficulty. */
  function Band(v: BadgeVariant): nat {
    match v
    case Secondary => 0
    case Default => 1
    case Destructive => 2
    case Outline => 3
  }

  /** A harder problem never gets a lower band. */
  lemma DifficultyColorMonotone(a: int, b: int)
    requires a <= b
    ensures Band(DifficultyColor(a)) <= Band(DifficultyColor(b))
  {
  }

  /** The outline variant is declared but never chosen. */
  lemma OutlineNeverChosen(d: int)
    ensures DifficultyColor(d) != Outline
  {
  }

  /** Every difficulty the server accepts (1 to 10) falls in the lowest band. */
  lemma AcceptedDifficultiesAreSecondary(d: int)
    requires 1 <= d <= 10
    ensures DifficultyColor(d) == Secondary
  {
  }

  /** The listing query read from the URL, each missing parameter replaced by its default. */
  datatype ListQuery = ListQuery(page: string, perPage: string, sortBy: string, sortOrder: string, search: string)

  function QueryOf(ps: Params): (q: ListQuery)
    ensures q.page == Get(ps, "page").GetOr("1")
    ensures q.perPage == Get(ps, "perPage").GetOr("10")
    ensures q.sortBy == Get(ps, "sortBy").GetOr("createdAt")
    ensures q.sortOrder == Get(ps, "sortOrder").GetOr("desc")
    ensures q.search == Get(ps, "search").GetOr("")
  {
    ListQuery(
      Get(ps, "page").GetOr("1"),
      Get(ps, "perPage").GetOr("10"),
      Get(ps, "sortBy").GetOr("createdAt"),
      Get(ps, "sortOrder").GetOr("desc"),
      Get(ps, "search").GetOr(""))
  }

  /** An empty query string lists the first page of ten, newest first, unfiltered. */
  lemma EmptyQueryDefaults()
    ensures QueryOf([]) == ListQuery("1", "10", "createdAt", "desc", "")
  {
  }

  /** `handleFilterChange(key, value, shouldResetPage)`: copy the current parameters, set
      `key` to `value`, and unless told not to, go back to page 1; the result is the query
      of the URL that is navigated to. */
  method HandleFilterChange(current: Params, key: string, value: string, shouldResetPage: bool)
    returns (pushed: Params)
    ensures Get(pushed, key) == Some(if shouldResetPage && key == "page" then "1" else value)
    ensures shouldResetPage ==> Get(pushed, "page") == Some("1")
    ensures !shouldResetPage && key != "page" ==> Get(pushed, "page") == Get(current, "page")
    ensures forall other :: other != key && other != "page" ==> Get(pushed, other) == Get(current, other)
  {
    var params := current;
    params := Set(params, key, value);
    if shouldResetPage {
      params := Set(params, "page", "1");
    }
    pushed := params;
    forall other | other != key && other != "page"
      ensures Get(pushed, other) == Get(current, other)
    {
      GetSet(current, key, value, other);
      GetSet(Set(current, key, value), "page", "1", other);
    }
    GetSet(current, key, value, "page");
    GetSet(current, key, value, key);
    GetSet(Set(current, key, value), "page", "1", key);
    GetSet(Set(current, key, value), "page", "1", "page");
  }
}
