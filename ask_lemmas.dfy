/** What `ask_question` (app/routes.py:22-76) promises, for every request
    body, every exception class of the unseen helpers, every completion and
    every store. */
module AskLemmas {
  import opened Wrappers
  import opened Schemas
  import opened Routes

  /** The question the handler works with, once the body is valid. */
  function QuestionOf(body: Payload): string
    requires ParseQuestionRequest(body).Success?
  {
    ParseQuestionRequest(body).value.question
  }

  /** A rejected body never reaches a collaborator and never yields a 200; it
      yields a 422 exactly when the validation helper raises a
      ValidationError. */
  lemma AskRejectsInvalid(body: Payload, kinds: UnseenKinds, complete: Completion, save: Store)
    requires ParseQuestionRequest(body).Failure?
    ensures AskQuestion(body, kinds, complete, save).calls == []
    ensures AskQuestion(body, kinds, complete, save).response.status != 200
    ensures AskQuestion(body, kinds, complete, save).response.status == 422 <==> kinds.rejection == ValidationErrorKind
    ensures AskQuestion(body, kinds, complete, save).response.body.Error?
  {
  }

  /** A missing question, an empty one and one over 1000 characters are
      rejected before any call. */
  lemma AskRejectsMissingOrBadLength(body: Payload, kinds: UnseenKinds, complete: Completion, save: Store)
    requires "question" !in body || (body["question"].Str? && (|body["question"].s| == 0 || |body["question"].s| > 1000))
    ensures AskQuestion(body, kinds, complete, save).calls == []
    ensures AskQuestion(body, kinds, complete, save).response.status != 200
  {
    AskRejectsInvalid(body, kinds, complete, save);
  }

  /** The calls are, in order, a prefix of: the completion for the validated
      question, then the save of that question with the answer the completion
      gave. So the completion comes before any save, a failed completion is
      never followed by a save, and only a valid question is ever saved. */
  lemma AskCallOrder(body: Payload, kinds: UnseenKinds, complete: Completion, save: Store)
    ensures var h := AskQuestion(body, kinds, complete, save);
      && |h.calls| <= 2
      && (|h.calls| >= 1 ==>
            && ParseQuestionRequest(body).Success?
            && h.calls[0] == Complete(QuestionOf(body)))
      && (|h.calls| == 2 ==>
            && complete(QuestionOf(body)).Success?
            && h.calls[1] == Save(QuestionOf(body), complete(QuestionOf(body)).value))
      && (forall k :: 0 <= k < |h.calls| && h.calls[k].Save? ==>
            && ValidQuestion(h.calls[k].question)
            && complete(h.calls[k].question) == Success(h.calls[k].answer))
  {
  }

  /** A failing completion: one call, no save, and the exception's own
      handler; unless it is a ValidationError, that is a 500 carrying the
      failure's message. */
  lemma AskCompletionFails(body: Payload, kinds: UnseenKinds, complete: Completion, save: Store)
    requires ParseQuestionRequest(body).Success?
    requires complete(QuestionOf(body)).Failure?
    ensures var h := AskQuestion(body, kinds, complete, save);
      var e := complete(QuestionOf(body)).error;
      && h.calls == [Complete(QuestionOf(body))]
      && (e.kind != ValidationErrorKind ==> h.response.status == 500 && h.response.body.details == e.message)
      && (e.kind == OtherKind ==> h.response.body.error == "Unexpected Error")
  {
  }

  /** A save that returns no record gives 500 "Processing Error", never 200. */
  lemma AskSaveReturnsNothing(body: Payload, kinds: UnseenKinds, complete: Completion, save: Store)
    requires ParseQuestionRequest(body).Success?
    requires complete(QuestionOf(body)).Success?
    requires save(QuestionOf(body), complete(QuestionOf(body)).value) == NoRecord
    ensures AskQuestion(body, kinds, complete, save).response
            == Response(500, Error("Processing Error", "Failed to save to database"))
  {
  }

  /** A 200 happens exactly when the body is valid, the completion answers,
      the store returns a record and that record has a creation time; its body
      is then built field by field from the saved record. */
  lemma AskSucceeds(body: Payload, kinds: UnseenKinds, complete: Completion, save: Store)
    ensures var h := AskQuestion(body, kinds, complete, save);
      h.response.status == 200 <==>
        && ParseQuestionRequest(body).Success?
        && complete(QuestionOf(body)).Success?
        && save(QuestionOf(body), complete(QuestionOf(body)).value).Saved?
        && save(QuestionOf(body), complete(QuestionOf(body)).value).record.createdAt.Some?
    ensures var h := AskQuestion(body, kinds, complete, save);
      h.response.status == 200 ==>
        var rec := save(QuestionOf(body), complete(QuestionOf(body)).value).record;
        h.response.body == Answer(QuestionResponse(rec.id, rec.question, rec.answer, rec.createdAt.value))
  {
  }

  /** With a store that keeps what it is given, the question and the answer
      come back unchanged in the 200 response. */
  lemma AskRoundTrip(q: string, a: string, id: int, t: Timestamp, kinds: UnseenKinds, complete: Completion, save: Store)
    requires 1 <= |q| <= 1000
    requires complete(q) == Success(a)
    requires save(q, a) == Saved(Record(id, q, a, Some(t)))
    ensures AskQuestion(map["question" := Str(q)], kinds, complete, save)
            == Handled(Response(200, Answer(QuestionResponse(id, q, a, t))), [Complete(q), Save(q, a)])
  {
  }
}
