/** The request and response schemas of the question/answer service
    (app/api_docs.py): the field validators of QuestionRequest and
    PaginationParams, and the shapes of QuestionResponse and
    QuestionListResponse.

    A schema is validated the way pydantic does it: every declared field is
    read from the payload (a missing field takes its default, or is an error
    when it has none), its type is checked, its field validator runs, and all
    field errors are collected before the whole payload is rejected. */
module Schemas {
  import opened Wrappers

  const MinQuestionLength: nat := 1
  const MaxQuestionLength: nat := 1000
  const DefaultPage: int := 1
  const DefaultPerPage: int := 10
  const MinPerPage: int := 1
  const MaxPerPage: int := 100

  const QuestionLengthMessage := "Question must be between 1 and 1000 characters"
  const PageMessage := "Page must be greater than 0"
  const PerPageMessage := "Items per page must be between 1 and 100"
  const MissingMessage := "Field required"
  const NotStringMessage := "Input should be a valid string"
  const NotIntegerMessage := "Input should be a valid integer"

  /** One decoded value of a JSON body or of a query string. A query value
      whose text reads as an integer arrives as `Int`; any other text as `Str`. */
  datatype Value = Str(s: string) | Int(i: int) | Other

  /** A JSON object or a query string: field name to value. */
  type Payload = map<string, Value>

  /** One entry of a pydantic ValidationError: the field and what is wrong with it. */
  datatype FieldError = FieldError(field: string, message: string)

  datatype QuestionRequest = QuestionRequest(question: string)

  /** `created_at`; its ISO-8601 rendering is not part of the model. */
  datatype Timestamp = Timestamp(micros: int)

  datatype QuestionResponse = QuestionResponse(id: int, question: string, answer: string, createdAt: Timestamp)

  datatype PaginationParams = PaginationParams(page: int, perPage: int)

  datatype QuestionListResponse = QuestionListResponse(
    questions: seq<QuestionResponse>,
    total: int,
    page: int,
    perPage: int,
    totalPages: int)

  // ---------------------------------------------------------------------
  // Field validators: each returns its input unchanged or rejects it.
  // ---------------------------------------------------------------------

  predicate ValidQuestion(v: string) {
    MinQuestionLength <= |v| <= MaxQuestionLength
  }

  /** `QuestionRequest.validate_question`. */
  function ValidateQuestion(v: string): (r: Result<string, string>)
    ensures r.Success? <==> 1 <= |v| <= 1000
    ensures r.Success? ==> r.value == v
    ensures r.Failure? ==> r.error == QuestionLengthMessage
  {
    if ValidQuestion(v) then Success(v) else Failure(QuestionLengthMessage)
  }

  /** `PaginationParams.validate_page`. */
  function ValidatePage(v: int): (r: Result<int, string>)
    ensures r.Failure? <==> v < 1
    ensures r.Success? ==> r.value == v
    ensures r.Failure? ==> r.error == PageMessage
  {
    if v < 1 then Failure(PageMessage) else Success(v)
  }

  /** `PaginationParams.validate_per_page`. */
  function ValidatePerPage(v: int): (r: Result<int, string>)
    ensures r.Success? <==> 1 <= v <= 100
    ensures r.Success? ==> r.value == v
    ensures r.Failure? ==> r.error == PerPageMessage
  {
    if MinPerPage <= v <= MaxPerPage then Success(v) else Failure(PerPageMessage)
  }

  /** The boundaries of the question length: the empty string and every
      string longer than 1000 characters are rejected; lengths 1 and 1000
      are accepted. */
  lemma QuestionLengthBoundaries(v: string)
    ensures |v| == 0 ==> ValidateQuestion(v).Failure?
    ensures |v| > 1000 ==> ValidateQuestion(v).Failure?
    ensures |v| == 1 || |v| == 1000 ==> ValidateQuestion(v) == Success(v)
  {
  }

  // ---------------------------------------------------------------------
  // Whole-schema validation.
  // ---------------------------------------------------------------------

  /** QuestionRequest: `question` is required, must be a string, and must
      pass `validate_question`. */
  function ParseQuestionRequest(body: Payload): (r: Result<QuestionRequest, seq<FieldError>>)
    ensures r.Success? <==> "question" in body && body["question"].Str? && ValidQuestion(body["question"].s)
    ensures r.Success? ==> r.value.question == body["question"].s
    ensures r.Failure? ==> |r.error| == 1 && r.error[0].field == "question"
    ensures r.Failure? && "question" !in body ==> r.error[0].message == MissingMessage
  {
    if "question" !in body then
      Failure([FieldError("question", MissingMessage)])
    else match body["question"]
      case Str(s) =>
        (match ValidateQuestion(s)
         case Success(q) => Success(QuestionRequest(q))
         case Failure(m) => Failure([FieldError("question", m)]))
      case _ => Failure([FieldError("question", NotStringMessage)])
  }

  /** Reads one integer field with a default and runs its field validator.
      A default is used as it is: pydantic does not validate defaults. */
  function IntField(args: Payload, field: string, default: int, validate: int -> Result<int, string>): (r: Result<int, FieldError>)
    ensures field !in args ==> r == Success(default)
    ensures field in args ==> (r.Success? <==> args[field].Int? && validate(args[field].i).Success?)
    ensures field in args && r.Success? ==> r.value == validate(args[field].i).value
    ensures r.Failure? ==> r.error.field == field
  {
    if field !in args then Success(default)
    else match args[field]
      case Int(i) =>
        (match validate(i)
         case Success(v) => Success(v)
         case Failure(m) => Failure(FieldError(field, m)))
      case _ => Failure(FieldError(field, NotIntegerMessage))
  }

  /** `page` is acceptable: absent, or an integer of at least 1. */
  predicate PageAccepted(args: Payload) {
    "page" !in args || (args["page"].Int? && args["page"].i >= 1)
  }

  /** `per_page` is acceptable: absent, or an integer between 1 and 100. */
  predicate PerPageAccepted(args: Payload) {
    "per_page" !in args || (args["per_page"].Int? && 1 <= args["per_page"].i <= 100)
  }

  /** The fields named by a list of field errors, in order. */
  function Fields(errs: seq<FieldError>): seq<string> {
    seq(|errs|, k requires 0 <= k < |errs| => errs[k].field)
  }

  function ErrorsOf<T>(r: Result<T, FieldError>): seq<FieldError> {
    if r.Failure? then [r.error] else []
  }

  /** PaginationParams: `page` (default 1) and `per_page` (default 10), each
      checked by its validator; the errors of both fields are collected, in
      field order. */
  function ParsePaginationParams(args: Payload): (r: Result<PaginationParams, seq<FieldError>>)
    ensures r.Success? <==> PageAccepted(args) && PerPageAccepted(args)
    ensures r.Success? ==> r.value.page >= 1 && 1 <= r.value.perPage <= 100
    ensures r.Success? ==> r.value.page == (if "page" in args then args["page"].i else 1)
    ensures r.Success? ==> r.value.perPage == (if "per_page" in args then args["per_page"].i else 10)
    ensures r.Failure? ==> Fields(r.error) == (if PageAccepted(args) then [] else ["page"])
                                              + (if PerPageAccepted(args) then [] else ["per_page"])
  {
    var page := IntField(args, "page", DefaultPage, ValidatePage);
    var perPage := IntField(args, "per_page", DefaultPerPage, ValidatePerPage);
    if page.Success? && perPage.Success? then
      Success(PaginationParams(page.value, perPage.value))
    else
      Failure(ErrorsOf(page) + ErrorsOf(perPage))
  }

  /** An absent `page` or `per_page` takes 1 or 10; absent both, the
      parameters are exactly (1, 10). */
  lemma PaginationDefaults(args: Payload)
    ensures ParsePaginationParams(map[]) == Success(PaginationParams(1, 10))
    ensures "page" !in args && ParsePaginationParams(args).Success? ==> ParsePaginationParams(args).value.page == 1
    ensures "per_page" !in args && ParsePaginationParams(args).Success? ==> ParsePaginationParams(args).value.perPage == 10
  {
  }

  /** The pagination validators reject exactly the out-of-range values:
      `page` iff it is below 1, `per_page` iff it is outside 1..100. */
  lemma PaginationRejections(page: int, perPage: int)
    ensures ParsePaginationParams(map["page" := Int(page)]).Failure? <==> page < 1
    ensures ParsePaginationParams(map["per_page" := Int(perPage)]).Failure? <==> !(1 <= perPage <= 100)
    ensures ParsePaginationParams(map["page" := Int(page), "per_page" := Int(perPage)]).Success?
            <==> page >= 1 && 1 <= perPage <= 100
    ensures page >= 1 && 1 <= perPage <= 100 ==>
            ParsePaginationParams(map["page" := Int(page), "per_page" := Int(perPage)]) == Success(PaginationParams(page, perPage))
  {
  }
}
