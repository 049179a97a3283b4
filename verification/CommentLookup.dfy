/** The paged, bounded search for the comment that carries a step's marker. */
module CommentLookup {

  import opened Text
  import opened Workflow
  import opened Markers
  import opened Protocol
  import opened Validation

  const PAGE_SIZE: nat := 50
  const MAX_PAGES: nat := 3

  datatype JiraComment = JiraComment(id: string, created: string, body: Node)

  /** Jira's answer to one request: no answer at all, or a page, whose fields may be missing. */
  datatype Response = Failure | Page(comments: Option<seq<JiraComment>>, total: Option<int>)

  /** Jira as the search sees it: the answer to request number `page`, which asks for the comments
      from position `startAt` on, newest first. */
  type Server = (nat, nat) -> Response

  datatype FoundComment = FoundComment(commentId: string, issueKey: string, created: string)

  ghost predicate Carries(comment: JiraComment, marker: string) {
    Includes(ExtractAdfPlainText(comment.body), marker)
  }

  /** `haystack.includes(needle)`, by trying every position. */
  method IncludesText(haystack: string, needle: string) returns (found: bool)
    ensures found <==> Includes(haystack, needle)
  {
    for i := 0 to |haystack| + 1
      invariant forall j :: 0 <= j < i ==> !OccursAt(haystack, needle, j)
    {
      if OccursAt(haystack, needle, i) {
        return true;
      }
    }
    return false;
  }

  /** The first comment of a list that carries the marker. */
  ghost function FirstMatch(comments: seq<JiraComment>, marker: string): Option<JiraComment> {
    if |comments| == 0 then None
    else if Carries(comments[0], marker) then Some(comments[0])
    else FirstMatch(comments[1..], marker)
  }

  method FindMatch(comments: seq<JiraComment>, marker: string) returns (matching: Option<JiraComment>)
    ensures matching == FirstMatch(comments, marker)
  {
    var i := 0;
    assert comments[0..] == comments;
    while i < |comments|
      invariant 0 <= i <= |comments|
      invariant FirstMatch(comments, marker) == FirstMatch(comments[i..], marker)
    {
      var carries := IncludesText(ExtractAdfPlainText(comments[i].body), marker);
      if carries {
        return Some(comments[i]);
      }
      assert comments[i..][1..] == comments[i + 1..];
      i := i + 1;
    }
    return None;
  }

  function CommentsOf(r: Response): seq<JiraComment> {
    if r.Page? && r.comments.Some? then r.comments.value else []
  }

  /** Whether the search stops after page `r`, having seen `seen` comments. */
  predicate LastPage(r: Response, seen: nat)
    requires r.Page?
  {
    |CommentsOf(r)| < PAGE_SIZE || seen >= (if r.total.Some? then r.total.value else seen)
  }

  /** What the search finds from request number `page` on. */
  ghost function Search(server: Server, marker: string, page: nat, startAt: nat): Option<JiraComment>
    decreases MAX_PAGES - page
  {
    if page >= MAX_PAGES then None
    else
      var r := server(page, startAt);
      if r.Failure? then None
      else
        var found := FirstMatch(CommentsOf(r), marker);
        var seen := startAt + |CommentsOf(r)|;
        if found.Some? then found
        else if LastPage(r, seen) then None
        else Search(server, marker, page + 1, seen)
  }

  /** The comments of a page up to `n` do not carry the marker. */
  ghost predicate NoneCarries(comments: seq<JiraComment>, n: nat, marker: string) {
    n <= |comments| && forall j :: 0 <= j < n ==> !Carries(comments[j], marker)
  }

  lemma {:induction false} FirstMatchIsFirst(comments: seq<JiraComment>, marker: string) returns (at: nat)
    ensures NoneCarries(comments, at, marker)
    ensures FirstMatch(comments, marker).None? ==> at == |comments|
    ensures FirstMatch(comments, marker).Some? ==>
      at < |comments| && Carries(comments[at], marker) && FirstMatch(comments, marker).value == comments[at]
  {
    hide Carries;
    at := 0;
    if |comments| > 0 && !Carries(comments[0], marker) {
      var n := FirstMatchIsFirst(comments[1..], marker);
      at := n + 1;
      forall j | 0 <= j < at ensures !Carries(comments[j], marker) {
        assert j > 0 ==> comments[j] == comments[1..][j - 1];
      }
    }
  }

  /** Another request follows the answer `r`, which began at position `startAt`: a full page
      without a match, before the announced total is reached. */
  ghost predicate GoesOn(r: Response, startAt: nat, marker: string) {
    && r.Page?
    && NoneCarries(CommentsOf(r), |CommentsOf(r)|, marker)
    && |CommentsOf(r)| >= 50
    && r.total.Some? && startAt + |CommentsOf(r)| < r.total.value
  }

  /** The answer `r` is the last one: the first match of its page is found, at position `at`, and
      nothing is found if the request failed or the page shows no match. */
  ghost predicate Concludes(r: Response, startAt: nat, marker: string, at: nat, found: Option<JiraComment>) {
    && (r.Failure? ==> found.None?)
    && (r.Page? ==>
          && NoneCarries(CommentsOf(r), at, marker)
          && (found.None? ==> at == |CommentsOf(r)|)
          && (found.Some? ==>
                at < |CommentsOf(r)| && Carries(CommentsOf(r)[at], marker) && found.value == CommentsOf(r)[at]))
  }

  /** What one answer means to the search: it goes on behind the page, or it ends. */
  lemma OneAnswer(server: Server, marker: string, page: nat, startAt: nat, at: nat, found: Option<JiraComment>)
    ensures page >= 3 ==> Search(server, marker, page, startAt).None?
    ensures var r := server(page, startAt);
      page < 3 ==>
        && (GoesOn(r, startAt, marker) ==>
              Search(server, marker, page, startAt) ==
              Search(server, marker, page + 1, startAt + |CommentsOf(r)|))
        && (!GoesOn(r, startAt, marker) && Concludes(r, startAt, marker, at, found) ==>
              Search(server, marker, page, startAt) == found)
  {
    hide Carries;
    var r := server(page, startAt);
    if r.Page? {
      var first := FirstMatchIsFirst(CommentsOf(r), marker);
      if Concludes(r, startAt, marker, at, found) {
        assert !(first < at) && !(at < first);
      }
    }
  }

  /** One answer read with the first match of its page. */
  lemma AnswerDecides(r: Response, startAt: nat, marker: string) returns (at: nat)
    ensures var found := FirstMatch(CommentsOf(r), marker);
      && Concludes(r, startAt, marker, at, if r.Page? then found else None)
      && (r.Page? && found.Some? ==> at < |CommentsOf(r)| && CommentsOf(r)[at] == found.value)
      && (r.Page? && found.None? ==> at == |CommentsOf(r)|)
      && (GoesOn(r, startAt, marker) <==>
            r.Page? && found.None? && !LastPage(r, startAt + |CommentsOf(r)|))
  {
    hide Carries;
    at := FirstMatchIsFirst(CommentsOf(r), marker);
  }

  /** Request number `k` is answered so that the search goes on, and request number `k + 1` starts
      where that page ended. */
  ghost predicate Follows(server: Server, marker: string, starts: seq<nat>, k: nat)
    requires k + 1 < |starts|
  {
    && GoesOn(server(k, starts[k]), starts[k], marker)
    && starts[k + 1] == starts[k] + |CommentsOf(server(k, starts[k]))|
  }

  lemma FollowsOn(server: Server, marker: string, starts: seq<nat>, startAt: nat)
    requires GoesOn(server(|starts|, startAt), startAt, marker)
    ensures var next := startAt + |CommentsOf(server(|starts|, startAt))|;
      Follows(server, marker, starts + [startAt] + [next], |starts|)
  {
    hide GoesOn;
  }

  lemma OneMoreRequest(server: Server, marker: string, starts: seq<nat>, next: nat)
    requires forall k: nat :: k + 1 < |starts| ==> Follows(server, marker, starts, k)
    requires |starts| > 0 ==> Follows(server, marker, starts + [next], |starts| - 1)
    ensures forall k: nat :: k < |starts| ==> Follows(server, marker, starts + [next], k)
  {
    hide GoesOn;
    forall k: nat | k < |starts| ensures Follows(server, marker, starts + [next], k) {
      if k + 1 < |starts| {
        assert Follows(server, marker, starts, k);
      }
    }
  }

  /** The search never fails: an unready or failing Jira reads as "not found". The first request
      asks from the start, each further one from where the page before it ended. Another request
      follows exactly after a full page without a match before the announced total is reached, up
      to three in all, and the last answer decides: a failed request finds nothing. */
  method FindCommentByExecutionStepMarker(ready: bool, issueKey: string, executionStepId: string, server: Server)
    returns (found: Option<FoundComment>, requests: nat, ghost starts: seq<nat>, ghost at: nat)
    ensures requests == |starts| <= 3
    ensures requests == 0 <==> !ready || issueKey == "" || executionStepId == ""
    ensures requests == 0 ==> found.None?
    ensures requests > 0 ==> starts[0] == 0
    ensures forall k: nat :: k + 1 < |starts| ==>
      Follows(server, BuildExecutionStepMarker(executionStepId), starts, k)
    ensures requests > 0 ==>
      var marker, startAt := BuildExecutionStepMarker(executionStepId), starts[requests - 1];
      var last := server(requests - 1, startAt);
      var comment := if last.Page? && at < |CommentsOf(last)| then Some(CommentsOf(last)[at]) else None;
      && (requests == 3 || !GoesOn(last, startAt, marker))
      && Concludes(last, startAt, marker, at, comment)
      && found ==
         if comment.None? then None else Some(FoundComment(comment.value.id, issueKey, comment.value.created))
    ensures requests > 0 ==>
      match Search(server, BuildExecutionStepMarker(executionStepId), 0, 0)
      case None => found.None?
      case Some(comment) => found == Some(FoundComment(comment.id, issueKey, comment.created))
  {
    hide Carries, FirstMatch, Search, GoesOn, Concludes, Follows;
    requests, starts, at := 0, [], 0;
    if !ready || issueKey == "" || executionStepId == "" {
      return None, requests, starts, at;
    }
    var marker := BuildExecutionStepMarker(executionStepId);
    var startAt: nat, page: nat := 0, 0;
    while page < MAX_PAGES
      invariant page <= MAX_PAGES && requests == page == |starts|
      invariant Search(server, marker, 0, 0) == Search(server, marker, page, startAt)
      invariant (starts + [startAt])[0] == 0
      invariant forall k: nat :: k + 1 < |starts| ==> Follows(server, marker, starts, k)
      invariant page > 0 ==> Follows(server, marker, starts + [startAt], page - 1)
      invariant page > 0 ==>
        var last := server(page - 1, starts[page - 1]);
        last.Page? && at == |CommentsOf(last)| && Concludes(last, starts[page - 1], marker, at, None)
    {
      var response := server(page, startAt);
      OneMoreRequest(server, marker, starts, startAt);
      if GoesOn(response, startAt, marker) {
        FollowsOn(server, marker, starts, startAt);
      }
      requests, starts := requests + 1, starts + [startAt];
      at := AnswerDecides(response, startAt, marker);
      OneAnswer(server, marker, page, startAt, at,
        if response.Page? then FirstMatch(CommentsOf(response), marker) else None);
      if response.Failure? {
        return None, requests, starts, at;
      }
      var comments := CommentsOf(response);
      var matching := FindMatch(comments, marker);
      if matching.Some? {
        return Some(FoundComment(matching.value.id, issueKey, matching.value.created)), requests, starts, at;
      }
      startAt := startAt + |comments|;
      var total := if response.total.Some? then response.total.value else startAt;
      if |comments| < PAGE_SIZE || startAt >= total {
        return None, requests, starts, at;
      }
      page := page + 1;
    }
    OneAnswer(server, marker, page, startAt, at, None);
    return None, requests, starts, at;
  }

  /** Where request number `page` starts if all the pages before it were full. */
  function Offset(page: nat): nat {
    50 * page
  }

  // ----- a list that does not change -----

  /** The page that an honest server cuts out of `list`. */
  function HonestPage(list: seq<JiraComment>, startAt: nat): Response {
    Page(Some(list[Min(startAt, |list|)..Min(startAt + PAGE_SIZE, |list|)]), Some(|list|))
  }

  lemma {:induction false} FirstMatchOfParts(xs: seq<JiraComment>, ys: seq<JiraComment>, marker: string)
    ensures FirstMatch(xs + ys, marker) ==
      if FirstMatch(xs, marker).Some? then FirstMatch(xs, marker) else FirstMatch(ys, marker)
  {
    if |xs| == 0 {
      assert xs + ys == ys;
    } else {
      assert (xs + ys)[1..] == xs[1..] + ys;
      FirstMatchOfParts(xs[1..], ys, marker);
    }
  }

  lemma SplitSlice(list: seq<JiraComment>, from: nat, mid: nat, to: nat)
    requires from <= mid <= to <= |list|
    ensures list[from..to] == list[from..mid] + list[mid..to]
  {
  }

  /** One request on an unchanging list. */
  lemma OneRequest(server: Server, list: seq<JiraComment>, marker: string, page: nat)
    requires forall p: nat, startAt: nat :: server(p, startAt) == HonestPage(list, startAt)
    requires page < MAX_PAGES
    ensures var here := list[Min(Offset(page), |list|)..Min(Offset(page + 1), |list|)];
      Search(server, marker, page, Offset(page)) ==
        if FirstMatch(here, marker).Some? then FirstMatch(here, marker)
        else if |list| <= Offset(page + 1) then None
        else Search(server, marker, page + 1, Offset(page + 1))
  {
    hide FirstMatch;
    assert server(page, Offset(page)) == HonestPage(list, Offset(page));
    assert Offset(page) + PAGE_SIZE == Offset(page + 1);
  }

  lemma {:induction false} SearchOfUnchangingList(server: Server, list: seq<JiraComment>, marker: string, page: nat)
    requires forall p: nat, startAt: nat :: server(p, startAt) == HonestPage(list, startAt)
    requires page <= MAX_PAGES
    ensures Search(server, marker, page, Offset(page)) ==
      FirstMatch(list[Min(Offset(page), |list|)..Min(Offset(MAX_PAGES), |list|)], marker)
    decreases MAX_PAGES - page
  {
    hide Carries;
    if page < MAX_PAGES {
      var from, to, end := Min(Offset(page), |list|), Min(Offset(page + 1), |list|), Min(Offset(MAX_PAGES), |list|);
      OneRequest(server, list, marker, page);
      SearchOfUnchangingList(server, list, marker, page + 1);
      SplitSlice(list, from, to, end);
      FirstMatchOfParts(list[from..to], list[to..end], marker);
    }
  }

  /** On an unchanging list the paged search is a linear scan of the newest 150 comments. */
  lemma PagedSearchIsLinearScan(server: Server, list: seq<JiraComment>, marker: string)
    requires forall page: nat, startAt: nat :: server(page, startAt) == HonestPage(list, startAt)
    ensures Search(server, marker, 0, 0) == FirstMatch(list[..Min(150, |list|)], marker)
  {
    SearchOfUnchangingList(server, list, marker, 0);
    assert list[0..Min(150, |list|)] == list[..Min(150, |list|)];
  }

  // ----- comments that arrive between the requests -----

  /** `lists[k]` is the issue's comment list at request `k`: comments are only ever put in front. */
  ghost predicate Growing(lists: seq<seq<JiraComment>>) {
    && |lists| == MAX_PAGES
    && forall k :: 0 < k < MAX_PAGES ==>
         |lists[k - 1]| <= |lists[k]| && lists[k - 1] == lists[k][|lists[k]| - |lists[k - 1]|..]
  }

  ghost predicate HonestWhileGrowing(server: Server, lists: seq<seq<JiraComment>>) {
    && Growing(lists)
    && forall page: nat, startAt: nat :: page < MAX_PAGES ==> server(page, startAt) == HonestPage(lists[page], startAt)
  }

  /** How many comments arrived before request `k`. */
  function Arrived(lists: seq<seq<JiraComment>>, k: nat): int
    requires k < |lists| && 0 < |lists|
  {
    |lists[k]| - |lists[0]|
  }

  lemma FirstMatchFinds(comments: seq<JiraComment>, marker: string, i: nat)
    requires i < |comments| && Carries(comments[i], marker)
    ensures FirstMatch(comments, marker).Some?
  {
    if i > 0 {
      FirstMatchFinds(comments[1..], marker, i - 1);
    }
  }

  lemma {:induction false} FirstMatchCarries(comments: seq<JiraComment>, marker: string)
    ensures FirstMatch(comments, marker).Some? ==>
      FirstMatch(comments, marker).value in comments && Carries(FirstMatch(comments, marker).value, marker)
  {
    if |comments| > 0 {
      FirstMatchCarries(comments[1..], marker);
    }
  }

  /** Where the comment at position `p` of the first list has moved by request `k`. */
  lemma Shifted(lists: seq<seq<JiraComment>>, p: nat, k: nat)
    requires Growing(lists) && p < |lists[0]| && k < MAX_PAGES
    ensures 0 <= Arrived(lists, k) && p + Arrived(lists, k) < |lists[k]|
    ensures lists[k][p + Arrived(lists, k)] == lists[0][p]
    ensures k > 0 ==> Arrived(lists, k - 1) <= Arrived(lists, k)
  {
    if k > 0 {
      Shifted(lists, p, k - 1);
      var arrived := |lists[k]| - |lists[k - 1]|;
      assert lists[k - 1][p + Arrived(lists, k - 1)] == lists[k][arrived..][p + Arrived(lists, k - 1)];
    }
  }

  /** Some request meets the comment: it has not yet been pushed past the page asked for. */
  ghost predicate Met(lists: seq<seq<JiraComment>>, p: nat, page: nat)
    requires |lists| == MAX_PAGES
  {
    exists k: nat :: page <= k < MAX_PAGES && p + Arrived(lists, k) < Offset(k + 1)
  }

  /** The page asked for at request `k` shows the comment at position `at` of that list. */
  lemma PageShows(server: Server, lists: seq<seq<JiraComment>>, k: nat, at: nat)
    requires HonestWhileGrowing(server, lists) && k < MAX_PAGES
    requires Offset(k) <= at < Offset(k + 1) && at < |lists[k]|
    ensures var here := CommentsOf(server(k, Offset(k)));
      at - Offset(k) < |here| && here[at - Offset(k)] == lists[k][at]
  {
  }

  /** A page that ends before position `at` of a longer list is full, so the search goes on. */
  lemma SearchGoesOn(server: Server, lists: seq<seq<JiraComment>>, marker: string, k: nat, at: nat)
    requires HonestWhileGrowing(server, lists) && k < MAX_PAGES
    requires Offset(k + 1) <= at < |lists[k]|
    requires FirstMatch(CommentsOf(server(k, Offset(k))), marker).None?
    ensures Search(server, marker, k, Offset(k)) == Search(server, marker, k + 1, Offset(k + 1))
  {
    assert |CommentsOf(server(k, Offset(k)))| == PAGE_SIZE;
  }

  /** A page that shows the comment ends the search. */
  lemma SearchFinds(server: Server, lists: seq<seq<JiraComment>>, marker: string, k: nat, at: nat)
    requires HonestWhileGrowing(server, lists) && k < MAX_PAGES
    requires Offset(k) <= at < Offset(k + 1) && at < |lists[k]| && Carries(lists[k][at], marker)
    ensures Search(server, marker, k, Offset(k)).Some?
  {
    hide Carries;
    PageShows(server, lists, k, at);
    FirstMatchFinds(CommentsOf(server(k, Offset(k))), marker, at - Offset(k));
  }

  lemma {:induction false} SearchMeets(server: Server, lists: seq<seq<JiraComment>>, marker: string, p: nat, page: nat)
    requires HonestWhileGrowing(server, lists)
    requires p < |lists[0]| && Carries(lists[0][p], marker)
    requires page < MAX_PAGES && Offset(page) <= p + Arrived(lists, page) && Met(lists, p, page)
    ensures Search(server, marker, page, Offset(page)).Some?
    decreases MAX_PAGES - page
  {
    Shifted(lists, p, page);
    var at := p + Arrived(lists, page);
    if at < Offset(page + 1) {
      SearchFinds(server, lists, marker, page, at);
    } else if FirstMatch(CommentsOf(server(page, Offset(page))), marker).None? {
      SearchGoesOn(server, lists, marker, page, at);
      assert Met(lists, p, page + 1);
      Shifted(lists, p, page + 1);
      SearchMeets(server, lists, marker, p, page + 1);
    }
  }

  /** Nothing is skipped: a matching comment whose original position plus the number of comments
      that arrived meanwhile is below 150 makes the search succeed. */
  lemma ArrivalsHideNothing(server: Server, lists: seq<seq<JiraComment>>, marker: string, p: nat)
    requires HonestWhileGrowing(server, lists)
    requires p < |lists[0]| && Carries(lists[0][p], marker)
    requires p + Arrived(lists, 2) < 150
    ensures Search(server, marker, 0, 0).Some?
  {
    SearchMeets(server, lists, marker, p, 0);
  }

  /** No comment of any list but the one at position `p` of the first list carries the marker. */
  ghost predicate SoleMatch(lists: seq<seq<JiraComment>>, marker: string, p: nat)
    requires Growing(lists)
  {
    && p < |lists[0]|
    && Carries(lists[0][p], marker)
    && forall k: nat, q: nat :: k < MAX_PAGES && q < |lists[k]| && Carries(lists[k][q], marker) ==>
         q == p + Arrived(lists, k)
  }

  /** The page on which the search finds something shows the only match. */
  lemma PageMeets(server: Server, lists: seq<seq<JiraComment>>, marker: string, p: nat, k: nat)
    requires HonestWhileGrowing(server, lists) && SoleMatch(lists, marker, p) && k < MAX_PAGES
    requires FirstMatch(CommentsOf(server(k, Offset(k))), marker).Some?
    ensures p + Arrived(lists, k) < Offset(k + 1)
  {
    var here := CommentsOf(server(k, Offset(k)));
    FirstMatchCarries(here, marker);
    var q :| 0 <= q < |here| && here[q] == FirstMatch(here, marker).value;
    assert lists[k][Offset(k) + q] == here[q];
  }

  lemma {:induction false} SearchMeetsOnly(server: Server, lists: seq<seq<JiraComment>>, marker: string, p: nat,
                                           page: nat)
    requires HonestWhileGrowing(server, lists) && SoleMatch(lists, marker, p) && page < MAX_PAGES
    requires Search(server, marker, page, Offset(page)).Some?
    ensures Met(lists, p, page)
    decreases MAX_PAGES - page
  {
    var here := CommentsOf(server(page, Offset(page)));
    if FirstMatch(here, marker).Some? {
      PageMeets(server, lists, marker, p, page);
    } else {
      assert |here| == PAGE_SIZE;
      assert Offset(page) + PAGE_SIZE == Offset(page + 1);
      SearchMeetsOnly(server, lists, marker, p, page + 1);
    }
  }

  /** The exact reach of the search for a comment that is the only match: it is found if and only
      if at one of the three requests it lies before the end of the page asked for. */
  lemma ReachOfSearch(server: Server, lists: seq<seq<JiraComment>>, marker: string, p: nat)
    requires HonestWhileGrowing(server, lists) && SoleMatch(lists, marker, p)
    ensures Search(server, marker, 0, 0).Some? <==>
      p < 50 || p + Arrived(lists, 1) < 100 || p + Arrived(lists, 2) < 150
  {
    assert Met(lists, p, 0) <==> p < 50 || p + Arrived(lists, 1) < 100 || p + Arrived(lists, 2) < 150 by {
      assert p + Arrived(lists, 0) == p;
    }
    if Met(lists, p, 0) {
      SearchMeets(server, lists, marker, p, 0);
    }
    if Search(server, marker, 0, 0).Some? {
      SearchMeetsOnly(server, lists, marker, p, 0);
    }
  }

  // ----- what a positive answer proves -----

  /** Whatever Jira answers, a comment is found only on one of the pages and only if it carries
      the marker. */
  lemma {:induction false} SearchIsSound(server: Server, marker: string, page: nat, startAt: nat) returns (at: nat,
                                         seen: nat)
    requires Search(server, marker, page, startAt).Some?
    ensures page <= at < MAX_PAGES
    ensures Search(server, marker, page, startAt).value in CommentsOf(server(at, seen))
    ensures Carries(Search(server, marker, page, startAt).value, marker)
    decreases MAX_PAGES - page
  {
    var r := server(page, startAt);
    FirstMatchCarries(CommentsOf(r), marker);
    if FirstMatch(CommentsOf(r), marker).Some? {
      at, seen := page, startAt;
    } else {
      at, seen := SearchIsSound(server, marker, page + 1, startAt + |CommentsOf(r)|);
    }
  }

  /** Comments are either written by GovFlow, for a step in `posted`, or by people, and nobody's
      own text contains the marker of step `id`. */
  ghost predicate Provenance(comment: JiraComment, posted: set<string>, id: string) {
    || !Carries(comment, BuildExecutionStepMarker(id))
    || exists text, executionId, author ::
        && author in posted
        && IsValidUuid(author) && IsValidUuid(executionId)
        && !Includes(Trim(text), BuildExecutionStepMarker(id))
        && comment.body == BuildJiraCommentBody(BuildGovFlowJiraComment(text, executionId, author))
  }

  /** A step's comment is found only if that step posted it. */
  lemma FoundMeansPosted(server: Server, posted: set<string>, id: string)
    requires IsValidUuid(id)
    requires forall page: nat, startAt: nat, comment | comment in CommentsOf(server(page, startAt)) ::
      Provenance(comment, posted, id)
    requires Search(server, BuildExecutionStepMarker(id), 0, 0).Some?
    ensures id in posted
  {
    var at, seen := SearchIsSound(server, BuildExecutionStepMarker(id), 0, 0);
    var comment := Search(server, BuildExecutionStepMarker(id), 0, 0).value;
    assert Provenance(comment, posted, id);
    var text, executionId, author :|
      && author in posted
      && IsValidUuid(author) && IsValidUuid(executionId)
      && !Includes(Trim(text), BuildExecutionStepMarker(id))
      && comment.body == BuildJiraCommentBody(BuildGovFlowJiraComment(text, executionId, author));
    UuidsAreFlat(id);
    UuidsAreFlat(author);
    UuidsAreFlat(executionId);
    MarkerIdentifiesStep(text, executionId, author, id);
  }

  /** Assumption (B) of the protocol holds if recovery asks this search, and the only comments in
      Jira that carry the marker of a step were posted by that step's own request. */
  lemma LookupsAreSound(c: Config, s: State, a: nat, server: Server, others: set<string>)
    requires c.Valid() && InRange(c, s) && RecoveryAt(s, a) && s.actors[a].rpc.LookUp? && s.actors[a].rpc.todo != []
    requires var i := s.actors[a].rpc.todo[0];
      var posted := set j | 0 <= j < |c.steps| && Count(s.ledger.effects, j) > 0 :: c.steps[j].id;
      && i in s.actors[a].rpc.todo
      && IsValidUuid(c.steps[i].id)
      && c.steps[i].id !in others
      && forall page: nat, startAt: nat, comment | comment in CommentsOf(server(page, startAt)) ::
           Provenance(comment, posted + others, c.steps[i].id)
    ensures var found := Search(server, BuildExecutionStepMarker(c.steps[s.actors[a].rpc.todo[0]].id), 0, 0);
      Permits(EVERYTHING, s, DoLookUp(a, if found.Some? then Some(found.value.id) else None))
  {
    var i := s.actors[a].rpc.todo[0];
    var posted := set j | 0 <= j < |c.steps| && Count(s.ledger.effects, j) > 0 :: c.steps[j].id;
    if Search(server, BuildExecutionStepMarker(c.steps[i].id), 0, 0).Some? {
      FoundMeansPosted(server, posted + others, c.steps[i].id);
      var j :| 0 <= j < |c.steps| && Count(s.ledger.effects, j) > 0 && c.steps[j].id == c.steps[i].id;
      assert i == j;
    }
  }
}
