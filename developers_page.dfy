/** The public developers page: one fetch of the `developers` table and the
    choice among the loading, error, grid and empty views. */
module DevelopersPage {
  import opened Common
  import opened Records

  const LoadError: string := "Failed to load developers. Please try again later."

  /** The page's state as the views read it. */
  datatype PageState = PageState(developers: seq<DeveloperRow>, loading: bool, error: Option<string>)

  predicate ShowsLoading(s: PageState) {
    s.loading
  }

  predicate ShowsError(s: PageState) {
    s.error.Some?
  }

  predicate ShowsGrid(s: PageState) {
    !s.loading && s.error.None? && |s.developers| > 0
  }

  predicate ShowsEmpty(s: PageState) {
    !s.loading && s.error.None? && |s.developers| == 0
  }

  /** The "ready to hire" section below the grid. */
  predicate ShowsCallToAction(s: PageState) {
    !s.loading && s.error.None? && |s.developers| > 0
  }

  /** The page never shows an error while loading: a fetch clears the error
      before it starts. */
  predicate Consistent(s: PageState) {
    s.loading ==> s.error.None?
  }

  /** In every state the page reaches exactly one of the four views is
      shown, and the call to action appears exactly with the grid. */
  lemma ExactlyOneView(s: PageState)
    requires Consistent(s)
    ensures ShowsLoading(s) || ShowsError(s) || ShowsGrid(s) || ShowsEmpty(s)
    ensures ShowsLoading(s) ==> !ShowsError(s) && !ShowsGrid(s) && !ShowsEmpty(s)
    ensures ShowsError(s) ==> !ShowsGrid(s) && !ShowsEmpty(s)
    ensures !(ShowsGrid(s) && ShowsEmpty(s))
    ensures ShowsCallToAction(s) <==> ShowsGrid(s)
  {
  }

  /** The state after the query answers with `result`: a success installs
      the rows (or `[]`), a failure sets the message and keeps the old list;
      loading is over either way. */
  function Settled(s: PageState, result: FetchResult): (r: PageState)
    ensures !r.loading
    ensures result.Fetched? ==> r.developers == RowsOrEmpty(result.data) && r.error == s.error
    ensures result.FetchFailed? ==> r.developers == s.developers && r.error == Some(LoadError)
  {
    match result
    case Fetched(data) => PageState(RowsOrEmpty(data), false, s.error)
    case FetchFailed => PageState(s.developers, false, Some(LoadError))
  }

  /** After a fetch the page shows the grid for a non-empty answer, the
      empty state for an empty or `null` one, and the error for a failure. */
  lemma ViewAfterFetch(rows: seq<DeveloperRow>, result: FetchResult)
    ensures var r := Settled(PageState(rows, true, None), result);
      Consistent(r) &&
      (result.FetchFailed? ==> ShowsError(r) && !ShowsLoading(r)) &&
      (result.Fetched? && |RowsOrEmpty(result.data)| > 0 ==> ShowsGrid(r) && !ShowsError(r)) &&
      (result.Fetched? && |RowsOrEmpty(result.data)| == 0 ==> ShowsEmpty(r) && !ShowsError(r))
  {
  }

  class Developers {
    var developers: seq<DeveloperRow>
    var loading: bool
    var error: Option<string>

    function State(): PageState
      reads this
    {
      PageState(developers, loading, error)
    }

    ghost predicate Valid()
      reads this
    {
      Consistent(State())
    }

    /** The page as first rendered: no rows, loading, no error. */
    constructor()
      ensures State() == PageState([], true, None)
      ensures Valid()
    {
      developers := [];
      loading := true;
      error := None;
    }

    /** The start of `fetchDevelopers`: loading on, error cleared, the old
        rows kept until the answer arrives. */
    method StartFetch()
      modifies this
      ensures State() == PageState(old(developers), true, None)
      ensures Valid()
    {
      loading := true;
      error := None;
    }

    /** The rest of `fetchDevelopers`, once the query has answered. */
    method CompleteFetch(result: FetchResult)
      modifies this
      ensures State() == Settled(old(State()), result)
      ensures Valid()
    {
      match result {
        case Fetched(data) =>
          developers := RowsOrEmpty(data);
        case FetchFailed =>
          error := Some(LoadError);
      }
      loading := false;
    }

    /** `fetchDevelopers` as one step; the "Try Again" button runs it too. */
    method FetchDevelopers(result: FetchResult)
      modifies this
      ensures State() == Settled(PageState(old(developers), true, None), result)
      ensures Valid()
    {
      StartFetch();
      CompleteFetch(result);
    }
  }
}
