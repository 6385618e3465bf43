/** What `list_questions` (app/routes.py:81-141) promises, for every query
    string, every exception class of the unseen helpers and every store. */
module ListLemmas {
  import opened Wrappers
  import opened Schemas
  import opened Routes

  /** A rejected query string never yields a 200; it yields a 422 exactly
      when the validation helper raises a ValidationError. */
  lemma ListRejectsInvalid(args: Payload, kinds: UnseenKinds, fetch: Fetch)
    requires !PageAccepted(args) || !PerPageAccepted(args)
    ensures ListQuestions(args, kinds, fetch).status != 200
    ensures ListQuestions(args, kinds, fetch).status == 422 <==> kinds.rejection == ValidationErrorKind
  {
  }

  /** Absent both parameters, the handler lists page 1 at 10 per page. */
  lemma ListDefaults(kinds: UnseenKinds, fetch: Fetch)
    ensures ListQuestions(map[], kinds, fetch) == ListPage(PaginationParams(1, 10), kinds, fetch)
  {
    PaginationDefaults(map[]);
  }

  /** An empty page beyond the first is never a 200. Which status it gets
      depends on what `APIError` is: a ValueError gives 404, any other
      non-validation exception 500. */
  lemma ListEmptyBeyondFirstPage(p: PaginationParams, total: nat, kinds: UnseenKinds, fetch: Fetch)
    requires p.perPage >= 1 && p.page > 1
    requires fetch(p.page, p.perPage) == Success(Page([], total))
    ensures ListPage(p, kinds, fetch).status != 200
    ensures kinds.apiError == ValueErrorKind ==> ListPage(p, kinds, fetch).status == 404
    ensures kinds.apiError == OtherKind ==> ListPage(p, kinds, fetch).status == 500
  {
  }

  /** An empty first page is not an error: 200 with no questions. */
  lemma ListEmptyFirstPage(perPage: int, total: nat, kinds: UnseenKinds, fetch: Fetch)
    requires 1 <= perPage <= 100
    requires fetch(1, perPage) == Success(Page([], total))
    ensures ListPage(PaginationParams(1, perPage), kinds, fetch)
            == Response(200, Listing(QuestionListResponse([], total, 1, perPage, TotalPages(total, perPage))))
  {
  }

  /** A 200 happens exactly when the query is valid, the fetch succeeds, the
      page is non-empty or the first, and every record has a creation time. */
  lemma ListSucceedsIff(args: Payload, kinds: UnseenKinds, fetch: Fetch)
    ensures ListQuestions(args, kinds, fetch).status == 200 <==>
      && ParsePaginationParams(args).Success?
      && var p := ParsePaginationParams(args).value;
         && fetch(p.page, p.perPage).Success?
         && (|fetch(p.page, p.perPage).value.records| > 0 || p.page == 1)
         && forall k :: 0 <= k < |fetch(p.page, p.perPage).value.records| ==>
              fetch(p.page, p.perPage).value.records[k].createdAt.Some?
  {
  }

  /** A 200 echoes the validated page and per_page and the store's total,
      gives the ceiling of total / per_page as the page count, and copies the
      fetched records field by field, in order. */
  lemma ListResponseContents(args: Payload, kinds: UnseenKinds, fetch: Fetch)
    requires ListQuestions(args, kinds, fetch).status == 200
    ensures ParsePaginationParams(args).Success?
    ensures var p := ParsePaginationParams(args).value;
      var pg := fetch(p.page, p.perPage).value;
      var l := ListQuestions(args, kinds, fetch).body.listing;
      && fetch(p.page, p.perPage).Success?
      && ListQuestions(args, kinds, fetch).body.Listing?
      && l.page == p.page && l.perPage == p.perPage && l.total == pg.total
      && IsCeiling(l.totalPages, pg.total, p.perPage)
      && CopiesAll(pg.records, l.questions)
  {
  }

  /** Three stored records at two per page: the first page holds two of
      them, the total is 3 and there are 2 pages. */
  lemma ListThreeRecordsTwoPerPage(r1: Record, r2: Record, kinds: UnseenKinds, fetch: Fetch)
    requires r1.createdAt.Some? && r2.createdAt.Some?
    requires fetch(1, 2) == Success(Page([r1, r2], 3))
    ensures var resp := ListQuestions(map["page" := Int(1), "per_page" := Int(2)], kinds, fetch);
      && resp.status == 200
      && resp.body.listing.total == 3
      && |resp.body.listing.questions| == 2
      && resp.body.listing.totalPages == 2
  {
    TotalPagesExamples();
  }
}
