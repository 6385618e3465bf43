# Question/answer service: request validation and the two handlers

This project models the decision logic of a small Flask service that answers
questions with a language model. `POST /api/v1/ask` validates a question,
asks the completion service for an answer, stores the pair and returns the
stored record. `GET /api/v1/questions` validates `page` and `per_page`, fetches
one page of stored pairs and returns it with the total count and the number of
pages.

Everything is pure:

- `wrappers.dfy` (`Wrappers`): `Option` and `Result`.
- `schemas.dfy` (`Schemas`): the pydantic schemas of `app/api_docs.py`. It has
  the three field validators, whole-payload validation of `QuestionRequest`
  and `PaginationParams` with their defaults and collected field errors, and
  the response shapes.
- `routes.dfy` (`Routes`): `ask_question` and `list_questions` as functions.
  Their collaborators are function parameters: the completion
  (`get_openai_answer`), the insert (`save_question_answer`) and the paged
  query (`get_all_questions`). A raised exception is a value whose kind names
  the `except` clause that catches it. `AskQuestion` also returns the calls it
  made, in order, so that "the completion comes first" and "no save after a
  failed completion" can be stated. The file also holds the page count
  `(total + per_page - 1) // per_page`, proved to be the ceiling of
  total / per_page, and the lemma that the ceiling is unique.
- `ask_lemmas.dfy` (`AskLemmas`) and `list_lemmas.dfy` (`ListLemmas`): what
  each handler promises for every input.

Two classes are not visible in the code: the exception `validate_request_json`
raises when a schema rejects a payload, and `APIError`. The model makes them
an input (`UnseenKinds`). The lemmas state what holds for every choice, for
example that the response is never 200. They also state what holds for each
particular choice, for example 422 when the helper raises a pydantic
`ValidationError`.

Three behaviours of the code are easy to misread; the model follows the code:

- A save that returns no record gives 500 "Processing Error", as
  `app/routes.py:55-56` says. A test patches the store module and expects 200
  (`tests/test_routes.py:78-101`). That patch does not reach the name the
  routes module imported, so the model does not encode "no record gives 200".
- An empty page beyond the first goes through whichever handler catches
  `APIError`. The code does not fix it to 404: that happens only if `APIError`
  is a `ValueError`.
- A stored row whose `created_at` is NULL is possible: the column is nullable
  in `save/migrations/versions/ed0957064997_create_question_answer_table.py:25`.
  Building a `QuestionResponse` from such a row fails pydantic's datetime
  check, and the handler turns that into a 422.

## Model

| member | source | states |
|---|---|---|
| `Schemas.ValidateQuestion` | app/api_docs.py:13-17 | a question is accepted iff 1 <= its length <= 1000; an accepted question comes back unchanged; a rejection carries the validator's message |
| `Schemas.QuestionLengthBoundaries` | app/api_docs.py:15-16 | the empty string and every string over 1000 characters are rejected; lengths 1 and 1000 are accepted unchanged |
| `Schemas.ValidatePage` | app/api_docs.py:34-38 | `page` is rejected iff it is below 1, otherwise returned unchanged |
| `Schemas.ValidatePerPage` | app/api_docs.py:40-44 | `per_page` is accepted iff 1 <= it <= 100, and then returned unchanged |
| `Schemas.ParseQuestionRequest` | app/api_docs.py:6-17 | a body is accepted iff it has a string `question` of valid length; the request then holds exactly that string; a rejection is one error on `question`, "Field required" when it is absent |
| `Schemas.IntField` | app/api_docs.py:31-32 | an absent integer field takes its default unvalidated; a present one is accepted iff it is an integer its validator accepts, and the error names the field |
| `Schemas.ParsePaginationParams` | app/api_docs.py:30-44 | accepted iff both parameters are acceptable; accepted params have page >= 1 and 1 <= per_page <= 100, so dividing by per_page is safe; absent values are 1 and 10; a rejection lists the failing fields, page first |
| `Schemas.PaginationDefaults` | app/api_docs.py:31-32 | an empty query gives (1, 10); an absent page is 1 and an absent per_page is 10 |
| `Schemas.PaginationRejections` | app/api_docs.py:34-44 | a given page is rejected iff it is below 1; a given per_page iff it is outside 1..100; with both in range the params are exactly those two values |
| `Routes.Describe` | app/routes.py:68-70 | stands for `str(ve)`: empty iff there are no field errors, and at least three characters per error |
| `Routes.DescribeReportsEach` | app/routes.py:68-70 | the text of a rejection contains, for every failing field, a line naming that field and its message |
| `Routes.ToResponse` | app/routes.py:60-65 | the response is built iff the record has a creation time, and copies id, question, answer and created_at; otherwise a ValidationError |
| `Routes.ToResponses` | app/routes.py:115-123 | the comprehension succeeds iff every record has a creation time; the result then has the same length and order as the records, each entry copying its record's fields; a failure is a ValidationError |
| `Routes.TotalPages` | app/routes.py:127 | `(total + per_page - 1) // per_page` is a non-negative ceiling of total / per_page: (t - 1) * per_page < total <= t * per_page, so 0 when total is 0 |
| `Routes.CeilingUnique` | app/routes.py:127 | only one integer satisfies the ceiling condition, so the page count is that integer |
| `Routes.TotalPagesExamples` | app/routes.py:127 | 0 records give 0 pages; 3 records at 2 per page give 2; 101 at 10 give 11 |
| `Routes.AskHandler` | app/routes.py:68-76 | ValidationError gives 422 "Validation Error", ValueError 500 "Processing Error", anything else 500 "Unexpected Error", each with the message as details |
| `Routes.ListHandler` | app/routes.py:133-141 | ValidationError gives 422, ValueError 404 "Processing Error", anything else 500 "Unexpected Error", each with the message as details |
| `Routes.AskQuestion` | app/routes.py:22-76 | `ask_question` answers only 200, 422 or 500; a rejected body makes no call and never yields 200; a 200 carries a QuestionResponse after exactly two calls, the first the completion of the validated question |
| `AskLemmas.AskRejectsInvalid` | app/routes.py:48 | a rejected body makes no call and never yields 200; the status is 422 iff the helper raises a ValidationError |
| `AskLemmas.AskRejectsMissingOrBadLength` | app/routes.py:48-50 | a missing, empty or over-long question makes no call and never yields 200 |
| `AskLemmas.AskCallOrder` | app/routes.py:53-54 | the calls are a prefix of [completion of the validated question, save of that question with the completion's answer]; only valid questions and answers the completion gave are saved |
| `AskLemmas.AskCompletionFails` | app/routes.py:53 | a failing completion is followed by no save; unless it is a ValidationError the status is 500 with the failure's message as details |
| `AskLemmas.AskSaveReturnsNothing` | app/routes.py:55-56 | a save that returns no record gives 500 "Processing Error" "Failed to save to database" |
| `AskLemmas.AskSucceeds` | app/routes.py:53-67 | 200 iff the body is valid, the completion answers, the store returns a record and it has a creation time; the body is then that record's fields |
| `AskLemmas.AskRoundTrip` | app/routes.py:53-67 | with a store that keeps what it is given, the 200 response returns the question and the answer unchanged, after exactly one completion and one save |
| `Routes.ListQuestions` | app/routes.py:81-141 | `list_questions` answers only 200, 404, 422 or 500, and never 200 for a query whose page or per_page is rejected |
| `Routes.ListPage` | app/routes.py:109-131 | after validation: an empty page beyond the first is never 200; a 200 comes from a successful fetch, echoes page, per_page and the store's total, has the ceiling page count, and copies the records field by field in order |
| `ListLemmas.ListRejectsInvalid` | app/routes.py:105 | a rejected query never yields 200; the status is 422 iff the helper raises a ValidationError |
| `ListLemmas.ListDefaults` | app/routes.py:105-109 | an empty query lists page 1 at 10 per page |
| `ListLemmas.ListEmptyBeyondFirstPage` | app/routes.py:111-112 | an empty result on a page beyond 1 never yields 200; 404 if `APIError` is a ValueError, 500 if it is neither that nor a ValidationError |
| `ListLemmas.ListEmptyFirstPage` | app/routes.py:111-128 | an empty first page is 200 with no questions and the store's total |
| `ListLemmas.ListSucceedsIff` | app/routes.py:109-131 | 200 iff the query is valid, the fetch succeeds, the page is non-empty or the first, and every record has a creation time |
| `ListLemmas.ListResponseContents` | app/routes.py:115-128 | a 200 echoes page, per_page and total, its page count is the ceiling of total / per_page, and its questions copy the records field by field in order |
| `ListLemmas.ListThreeRecordsTwoPerPage` | app/routes.py:115-128 | with 3 records and per_page 2, page 1 holds 2 questions, total 3 and 2 pages |

## Left out

- Flask wiring, the app factory, blueprint registration and the Swagger UI (`app/__init__.py`). These are framework setup with no decisions in them.
- The OpenAI call (`app/services/openai_service.py`). It is a network call, so it is a function parameter (`Completion`): an answer or a raised exception.
- The store functions `save_question_answer` and `get_all_questions` and the class `APIError` are not part of this model. The store is a function parameter, and the class of `APIError` is an input in `UnseenKinds`. So the model does not claim that a page holds at most `per_page` records or that records are ordered by id. Those are properties of the unseen query.
- `validate_request_json` is not part of this model. The model assumes that it accepts exactly what the pydantic schema accepts, returns the parsed model on acceptance, and raises otherwise; only the class of what it raises is an input (`UnseenKinds`). `AskRejectsInvalid`, `AskSucceeds`, `ListSucceedsIff` and the claim that the presence check at app/routes.py:49-50 cannot be reached all rest on that assumption.
- `Completion`: an answer is always a string. `get_openai_answer` returns `response.choices[0].message.content` (app/services/openai_service.py:17), which the OpenAI client allows to be None; the model does not capture a None answer reaching the save.
- The exact text of a rejected payload's `details` is not modelled. `str()` of a pydantic ValidationError, or whatever the helper raises, is stood in for by `Describe`, one line per field error.
- Pydantic's conversion of query-string text to integers is not modelled. A query value that reads as an integer arrives as `Int`, and any other text arrives as `Str`, which the integer fields reject.
- The request body is modelled as a JSON object. A body that is a JSON array or scalar, and a request without a JSON body, are not modelled.
- The presence check at app/routes.py:49-50 is modelled, but no body can reach it: the schema already requires `question`. A test expects `{}` to give 500 "Unexpected Error" (tests/test_routes.py:54-61). That depends on the unseen helper, so the model states only that a missing question never yields 200, for every exception class the helper might raise.
- Logging, ISO-8601 rendering of `created_at`, the `ErrorResponse` schema (no handler builds it), the commented-out second `list_questions` and the commented-out Swagger builder.
- The Alembic migration. Only its record shape is used: id, non-null question and answer, nullable `created_at`.
