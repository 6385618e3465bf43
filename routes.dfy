/** The two request handlers of the question/answer service (app/routes.py):
    `ask_question` (POST /api/v1/ask) and `list_questions`
    (GET /api/v1/questions), as pure functions.

    The collaborators the handlers call are parameters: the language-model
    completion (`get_openai_answer`), the store's insert
    (`save_question_answer`) and its paged query (`get_all_questions`). A
    raised Python exception is an `Exception` value whose `kind` names the
    first `except` clause of the handler that catches it. */
module Routes {
  import opened Wrappers
  import opened Schemas

  /** Which `except` clause catches an exception: `ValidationError`, then
      `ValueError` (a pydantic ValidationError is caught by the first), then
      `Exception`. */
  datatype ErrorKind = ValidationErrorKind | ValueErrorKind | OtherKind

  datatype Exception = Exception(kind: ErrorKind, message: string)

  /** The classes of the exceptions raised by code whose definition is not
      part of this model: what `validate_request_json` raises when the schema
      rejects the payload, and what `APIError` is. The message of the raised
      `APIError("Page not found", ...)` is taken to be its first argument; no
      lemma depends on that text. */
  datatype UnseenKinds = UnseenKinds(rejection: ErrorKind, apiError: ErrorKind)

  /** A stored question/answer row; `created_at` may be NULL in the table. */
  datatype Record = Record(id: int, question: string, answer: string, createdAt: Option<Timestamp>)

  /** What `save_question_answer` does: returns a record, returns None, or raises. */
  datatype SaveOutcome = Saved(record: Record) | NoRecord | SaveRaised(error: Exception)

  /** What `get_all_questions` returns: the records of one page and the total count. */
  datatype Page = Page(records: seq<Record>, total: nat)

  type Completion = string -> Result<string, Exception>
  type Store = (string, string) -> SaveOutcome
  type Fetch = (int, int) -> Result<Page, Exception>

  /** A response body: a QuestionResponse, a QuestionListResponse, or an
      error dictionary `{error, details}`. */
  datatype Body =
    | Answer(answer: QuestionResponse)
    | Listing(listing: QuestionListResponse)
    | Error(error: string, details: string)

  datatype Response = Response(status: int, body: Body)

  /** A call `ask_question` makes on a collaborator. */
  datatype Call = Complete(question: string) | Save(question: string, answer: string)

  /** The response of `ask_question` together with the calls it made, in order. */
  datatype Handled = Handled(response: Response, calls: seq<Call>)

  /** Stands for `str(ve)` of a pydantic ValidationError: one line per field error. */
  function Describe(errs: seq<FieldError>): (r: string)
    ensures r == [] <==> errs == []
    ensures |r| >= 3 * |errs|
  {
    if errs == [] then ""
    else
      var rest := Describe(errs[1..]);
      Line(errs[0]) + rest
  }

  /** The line `Describe` gives one field error. */
  function Line(e: FieldError): string {
    e.field + ": " + e.message + "\n"
  }

  /** `s` occurs in `r` at position `i`. */
  ghost predicate OccursAt(s: string, r: string, i: int) {
    0 <= i && i + |s| <= |r| && r[i..i + |s|] == s
  }

  /** The text of a rejection reports every failing field with its message,
      each on a line of its own. */
  lemma {:induction false} DescribeReportsEach(errs: seq<FieldError>, k: int)
    requires 0 <= k < |errs|
    ensures exists i :: OccursAt(Line(errs[k]), Describe(errs), i)
  {
    var head := Line(errs[0]);
    var rest := Describe(errs[1..]);
    assert Describe(errs) == head + rest;
    if k == 0 {
      assert OccursAt(head, Describe(errs), 0);
    } else {
      DescribeReportsEach(errs[1..], k - 1);
      assert errs[1..][k - 1] == errs[k];
      var i :| OccursAt(Line(errs[k]), rest, i);
      assert (head + rest)[|head| + i..|head| + i + |Line(errs[k])|] == rest[i..i + |Line(errs[k])|];
      assert OccursAt(Line(errs[k]), Describe(errs), |head| + i);
    }
  }

  // ---------------------------------------------------------------------
  // Building responses from stored records.
  // ---------------------------------------------------------------------

  const DatetimeMessage := "created_at: Input should be a valid datetime"

  /** `QuestionResponse(id=q.id, question=q.question, answer=q.answer,
      created_at=q.created_at)`: pydantic rejects a NULL `created_at` with a
      ValidationError. */
  function ToResponse(rec: Record): (r: Result<QuestionResponse, Exception>)
    ensures r.Success? <==> rec.createdAt.Some?
    ensures r.Success? ==>
              r.value.id == rec.id && r.value.question == rec.question
              && r.value.answer == rec.answer && r.value.createdAt == rec.createdAt.value
    ensures r.Failure? ==> r.error.kind == ValidationErrorKind
  {
    match rec.createdAt
    case None => Failure(Exception(ValidationErrorKind, DatetimeMessage))
    case Some(t) => Success(QuestionResponse(rec.id, rec.question, rec.answer, t))
  }

  /** Each response entry copies the id, question, answer and created_at of
      the record at the same position. */
  ghost predicate CopiesAll(recs: seq<Record>, qs: seq<QuestionResponse>) {
    && |qs| == |recs|
    && forall k :: 0 <= k < |recs| ==>
         && recs[k].createdAt.Some?
         && qs[k] == QuestionResponse(recs[k].id, recs[k].question, recs[k].answer, recs[k].createdAt.value)
  }

  /** The list comprehension of `list_questions`: one QuestionResponse per
      record, in the same order; the first record pydantic rejects aborts it. */
  function ToResponses(recs: seq<Record>): (r: Result<seq<QuestionResponse>, Exception>)
    ensures r.Success? <==> forall k :: 0 <= k < |recs| ==> recs[k].createdAt.Some?
    ensures r.Success? ==> CopiesAll(recs, r.value)
    ensures r.Failure? ==> r.error.kind == ValidationErrorKind
  {
    if recs == [] then Success([])
    else match ToResponse(recs[0])
      case Failure(e) => Failure(e)
      case Success(q) =>
        match ToResponses(recs[1..])
        case Failure(e) => Failure(e)
        case Success(rest) =>
          assert forall k :: 1 <= k < |recs| ==> recs[k] == recs[1..][k - 1];
          Success([q] + rest)
  }

  // ---------------------------------------------------------------------
  // The page count.
  // ---------------------------------------------------------------------

  /** `t` is the ceiling of `total / perPage`: the one integer with
      `(t - 1) * perPage < total <= t * perPage`. */
  ghost predicate IsCeiling(t: int, total: int, perPage: int) {
    (t - 1) * perPage < total <= t * perPage
  }

  /** `total_pages = (total + per_page - 1) // per_page`. Python's `//`
      floors; with a positive divisor that is Dafny's `/`. The result is the
      ceiling of `total / perPage`. */
  function TotalPages(total: nat, perPage: int): (t: int)
    requires perPage >= 1
    ensures t >= 0 && IsCeiling(t, total, perPage)
    ensures total == 0 ==> t == 0
  {
    var n := total + perPage - 1;
    assert n == (n / perPage) * perPage + n % perPage && 0 <= n % perPage < perPage;
    assert (n / perPage - 1) * perPage == (n / perPage) * perPage - perPage;
    n / perPage
  }

  /** The ceiling is unique, so `TotalPages` is the only answer. */
  lemma CeilingUnique(t1: int, t2: int, total: int, perPage: int)
    requires perPage >= 1
    requires IsCeiling(t1, total, perPage) && IsCeiling(t2, total, perPage)
    ensures t1 == t2
  {
  }

  /** No records, no pages; 3 records at 2 per page make 2 pages; 101
      records at 10 per page make 11. */
  lemma TotalPagesExamples()
    ensures TotalPages(0, 10) == 0
    ensures TotalPages(3, 2) == 2
    ensures TotalPages(101, 10) == 11
  {
    CeilingUnique(TotalPages(0, 10), 0, 0, 10);
    CeilingUnique(TotalPages(3, 2), 2, 3, 2);
    CeilingUnique(TotalPages(101, 10), 11, 101, 10);
  }

  // ---------------------------------------------------------------------
  // Exception handlers.
  // ---------------------------------------------------------------------

  /** The `except` clauses of `ask_question`. */
  function AskHandler(e: Exception): (r: Response)
    ensures e.kind == ValidationErrorKind ==> r == Response(422, Error("Validation Error", e.message))
    ensures e.kind == ValueErrorKind ==> r == Response(500, Error("Processing Error", e.message))
    ensures e.kind == OtherKind ==> r == Response(500, Error("Unexpected Error", e.message))
  {
    match e.kind
    case ValidationErrorKind => Response(422, Error("Validation Error", e.message))
    case ValueErrorKind => Response(500, Error("Processing Error", e.message))
    case OtherKind => Response(500, Error("Unexpected Error", e.message))
  }

  /** The `except` clauses of `list_questions`: a ValueError gives 404 here. */
  function ListHandler(e: Exception): (r: Response)
    ensures e.kind == ValidationErrorKind ==> r == Response(422, Error("Validation Error", e.message))
    ensures e.kind == ValueErrorKind ==> r == Response(404, Error("Processing Error", e.message))
    ensures e.kind == OtherKind ==> r == Response(500, Error("Unexpected Error", e.message))
  {
    match e.kind
    case ValidationErrorKind => Response(422, Error("Validation Error", e.message))
    case ValueErrorKind => Response(404, Error("Processing Error", e.message))
    case OtherKind => Response(500, Error("Unexpected Error", e.message))
  }

  // ---------------------------------------------------------------------
  // The handlers.
  // ---------------------------------------------------------------------

  /** `ask_question`: validate the body, ask the completion for an answer,
      save the pair, and answer with the saved record. */
  function AskQuestion(body: Payload, kinds: UnseenKinds, complete: Completion, save: Store): (h: Handled)
    ensures h.response.status in {200, 422, 500}
    ensures ParseQuestionRequest(body).Failure? ==> h.calls == [] && h.response.status != 200
    ensures h.response.status == 200 ==>
              && h.response.body.Answer?
              && |h.calls| == 2
              && h.calls[0] == Complete(ParseQuestionRequest(body).value.question)
  {
    match ParseQuestionRequest(body)
    case Failure(errs) => Handled(AskHandler(Exception(kinds.rejection, Describe(errs))), [])
    case Success(req) =>
      if |body| == 0 || "question" !in body then
        // The presence check after validation; the schema already demands the field.
        Handled(Response(422, Error("Validation Error", "Question is required")), [])
      else
        var q := req.question;
        match complete(q)
        case Failure(e) => Handled(AskHandler(e), [Complete(q)])
        case Success(a) =>
          var calls := [Complete(q), Save(q, a)];
          match save(q, a)
          case SaveRaised(e) => Handled(AskHandler(e), calls)
          case NoRecord => Handled(Response(500, Error("Processing Error", "Failed to save to database")), calls)
          case Saved(rec) =>
            match ToResponse(rec)
            case Failure(e) => Handled(AskHandler(e), calls)
            case Success(resp) => Handled(Response(200, Answer(resp)), calls)
  }

  /** `list_questions` once the query has been validated: fetch the page,
      refuse an empty page beyond the first, and echo the pagination. */
  function ListPage(p: PaginationParams, kinds: UnseenKinds, fetch: Fetch): (r: Response)
    requires p.perPage >= 1
    ensures r.status in {200, 404, 422, 500}
    ensures fetch(p.page, p.perPage).Success? && |fetch(p.page, p.perPage).value.records| == 0 && p.page > 1
            ==> r.status != 200
    ensures r.status == 200 ==>
              && fetch(p.page, p.perPage).Success?
              && r.body.Listing?
              && r.body.listing.page == p.page
              && r.body.listing.perPage == p.perPage
              && r.body.listing.total == fetch(p.page, p.perPage).value.total
              && IsCeiling(r.body.listing.totalPages, r.body.listing.total, p.perPage)
              && CopiesAll(fetch(p.page, p.perPage).value.records, r.body.listing.questions)
  {
    match fetch(p.page, p.perPage)
    case Failure(e) => ListHandler(e)
    case Success(pg) =>
      if |pg.records| == 0 && p.page > 1 then
        ListHandler(Exception(kinds.apiError, "Page not found"))
      else match ToResponses(pg.records)
        case Failure(e) => ListHandler(e)
        case Success(qs) =>
          Response(200, Listing(QuestionListResponse(qs, pg.total, p.page, p.perPage, TotalPages(pg.total, p.perPage))))
  }

  /** `list_questions`: validate the query string, then list that page. */
  function ListQuestions(args: Payload, kinds: UnseenKinds, fetch: Fetch): (r: Response)
    ensures r.status in {200, 404, 422, 500}
    ensures !PageAccepted(args) || !PerPageAccepted(args) ==> r.status != 200
  {
    match ParsePaginationParams(args)
    case Failure(errs) => ListHandler(Exception(kinds.rejection, Describe(errs)))
    case Success(p) => ListPage(p, kinds, fetch)
  }
}
