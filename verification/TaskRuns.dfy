/** The task page's loop over Habitat's paged list: it must rebuild the whole run history. */
module TaskRuns {
  import opened Durations
  import opened Paging

  const PAGE_SIZE := 200
  const MAX_PAGES := 1000

  datatype Outcome = Runs(runs: seq<Row>) | PageLimitError | StalledError | HttpError

  /** The page-limit error is thrown exactly when the history has more rows than that. */
  function Expected(all: seq<Row>): Outcome {
    if |all| <= MAX_PAGES * PAGE_SIZE then Runs(all) else PageLimitError
  }

  /** Rows fetched when `pages` pages have been read. */
  function Fetched(all: seq<Row>, pages: nat): seq<Row> {
    all[..Clamp(pages * PAGE_SIZE, |all|)]
  }

  lemma PageExtends(r: Response, all: seq<Row>, page: nat)
    requires page >= 1 && IsPage(r, all, (page - 1) * PAGE_SIZE, PAGE_SIZE)
    ensures Fetched(all, page) == Fetched(all, page - 1) + r.items
    ensures r.hasMore <==> page * PAGE_SIZE < |all|
    ensures r.hasMore ==> |r.items| == PAGE_SIZE
  {
    var a, b := Clamp((page - 1) * PAGE_SIZE, |all|), Clamp(page * PAGE_SIZE, |all|);
    assert all[..b] == all[..a] + all[a..b];
  }

  /** What the request for one page answers: the next rows of everything, so the rows read so far
      stay a prefix; no page that promises more is empty. */
  lemma PageContinues(queues: seq<Queue>, page: nat)
    requires DbOk(queues) && 1 <= page <= MAX_PAGES
    ensures var all, r := Everything(queues, false), Respond(queues, Offset(page, PAGE_SIZE), PAGE_SIZE, false);
            && r.Page?
            && Fetched(all, page) == Fetched(all, page - 1) + r.items
            && (r.hasMore <==> page * PAGE_SIZE < |all|)
            && (r.hasMore ==> |r.items| == PAGE_SIZE)
  {
    var start := Offset(page, PAGE_SIZE);
    assert start == (page - 1) * PAGE_SIZE;
    PageOfEverything(queues, start, PAGE_SIZE, false);
    PageExtends(Respond(queues, start, PAGE_SIZE, false), Everything(queues, false), page);
  }

  /** fetchRunsForTask against a fixed database whose list handler is HandleTasks. */
  method FetchRunsForTask(id: string, queues: seq<Queue>) returns (r: Outcome)
    requires DbOk(queues)
    ensures id == "" ==> r == Runs([])
    ensures id != "" ==> r == Expected(Everything(queues, false))
  {
    if id == "" {
      return Runs([]);
    }
    ghost var all := Everything(queues, false);
    var currentPage := 1;
    var hasMore := true;
    var results: seq<Row> := [];
    while hasMore
      invariant 1 <= currentPage <= MAX_PAGES + 1
      invariant results == Fetched(all, currentPage - 1)
      invariant hasMore <==> currentPage == 1 || (currentPage - 1) * PAGE_SIZE < |all|
      decreases MAX_PAGES + 1 - currentPage, hasMore
    {
      if currentPage > MAX_PAGES {
        return PageLimitError;
      }
      var pageResult := HandleTasks(queues, currentPage, PAGE_SIZE, false);
      PageContinues(queues, currentPage);
      if pageResult.Crash? {
        return HttpError;
      }
      results := results + pageResult.items;
      hasMore := pageResult.hasMore;
      if hasMore && |pageResult.items| == 0 {
        return StalledError;
      }
      currentPage := currentPage + 1;
    }
    r := Runs(results);
  }
}
