/** The HTTP handlers of app.py, each as a method from a request to a response
    over the prompt store and the model backend. A request body is the JSON
    object the handler reads with `data.get(key, default)`; `not data` holds
    for a missing body and for an empty object. */
module App {
  import opened Wrappers
  import opened Text
  import PromptStore
  import opened Generation

  /** A JSON request body: the keys the handlers read (absent ones are `None`)
      and whether it holds any other key. */
  datatype Body = Body(
    clientSequence: Option<string>,
    chatHistory: Option<seq<HistoryEntry>>,
    consultantReply: Option<string>,
    instructions: Option<string>,
    prompt: Option<string>,
    otherKeys: bool)

  /** `request.json`: the object body, or `None` when the request carries
      none or a falsy JSON value (`null`, `[]`, `""`, `0`, `false`), which
      `not data` treats alike. */
  datatype Request = Request(json: Option<Body>)

  /** The JSON object a handler answers with, by the keys it holds. */
  datatype Payload =
    | ErrorBody(error: string)
    | PromptBody(prompt: string)
    | ReplyBody(aiReply: string)
    | ImprovedBody(predictedReply: string, updatedPrompt: string)
    | UpdatedBody(updatedPrompt: string)
    | SavedBody(status: string, updatedPrompt: string)

  /** An HTTP status code and a JSON payload. */
  datatype Response = Response(code: nat, payload: Payload)

  const NO_DATA: Response := Response(400, ErrorBody("No data provided"))
  const EMPTY_PROMPT: Response := Response(400, ErrorBody("Prompt text is empty"))
  const ERROR_PREFIX: string := "Error:"

  /** The JSON object `{}`. */
  const EMPTY_OBJECT: Body := Body(None, None, None, None, None, false)

  /** `not data`: there is no body, or it is an empty object; a body holding
      any key, even with an empty value, is data. */
  predicate NoData(req: Request): (none: bool)
    ensures none <==> req.json.None? || req.json == Some(EMPTY_OBJECT)
  {
    || req.json.None?
    || (var d := req.json.value;
        && d.clientSequence.None? && d.chatHistory.None? && d.consultantReply.None?
        && d.instructions.None? && d.prompt.None? && !d.otherKeys)
  }

  /** GET /active-prompt: the prompt the store answers with. */
  method GetPrompt(store: PromptStore.Store) returns (resp: Response)
    ensures resp == Response(200, PromptBody(store.GetActivePrompt()))
  {
    resp := Response(200, PromptBody(store.GetActivePrompt()));
  }

  /** POST /generate-reply: a reply to `clientSequence` under the active prompt. */
  method HandleGenerateReply(store: PromptStore.Store, b: Backend, json: string -> ParseResult, hasKey: bool,
                             req: Request)
    returns (resp: Response)
    modifies b
    ensures NoData(req) ==> resp == NO_DATA && unchanged(b)
    ensures !NoData(req) ==>
      var data := req.json.value;
      var prompt := ReplyPrompt(store.GetActivePrompt(), HistoryText(data.chatHistory.GetOr([]), "unknown"),
                                data.clientSequence.GetOr(""));
      && resp.code == 200 && resp.payload.ReplyBody?
      && (!hasKey ==> resp.payload.aiReply == NO_KEY_REPLY && unchanged(b))
      && (hasKey ==>
            var run := RetryRun(b.respond, json, "reply", "", REPLY_BUSY, old(b.calls));
            resp.payload.aiReply == run.result && b.Ran(prompt, run))
  {
    if NoData(req) {
      return NO_DATA;
    }
    var data := req.json.value;
    var clientSequence := data.clientSequence.GetOr("");
    var chatHistory := data.chatHistory.GetOr([]);
    var reply := GenerateReply(store, b, json, hasKey, clientSequence, chatHistory, None);
    resp := Response(200, ReplyBody(reply));
  }

  /** POST /improve-ai: predict a reply with the active prompt, have the model
      rewrite the prompt from the consultant's real reply, and save the result
      (also when it is the unchanged prompt). */
  method HandleImproveAi(store: PromptStore.Store, b: Backend, json: string -> ParseResult, hasKey: bool,
                         req: Request)
    returns (resp: Response)
    modifies store, b
    ensures NoData(req) ==> resp == NO_DATA && unchanged(store) && unchanged(b)
    ensures !NoData(req) ==>
      var data := req.json.value;
      var current := old(store.GetActivePrompt());
      && resp.code == 200 && resp.payload.ImprovedBody?
      && store.SavedAs(resp.payload.updatedPrompt, "auto_learning") && store.ReadsAfterSave(resp.payload.updatedPrompt)
      && (!hasKey ==> resp.payload == ImprovedBody(NO_KEY_REPLY, current) && unchanged(b))
      && (hasKey ==> Improved(b, json, data, current, resp.payload))
  {
    if NoData(req) {
      return NO_DATA;
    }
    var current := store.GetActivePrompt();
    var payload := PredictAndImprove(store, b, json, hasKey, req.json.value, current);
    store.SaveNewPrompt(payload.updatedPrompt, "auto_learning");
    resp := Response(200, payload);
  }

  /** Steps 1 and 2 of /improve-ai: `generate_reply` with the current prompt as
      the specific prompt, then `generate_improved_prompt` on its prediction. */
  method PredictAndImprove(store: PromptStore.Store, b: Backend, json: string -> ParseResult, hasKey: bool,
                           data: Body, current: string)
    returns (payload: Payload)
    requires current == store.GetActivePrompt()
    modifies b
    ensures payload.ImprovedBody?
    ensures !hasKey ==> payload == ImprovedBody(NO_KEY_REPLY, current) && unchanged(b)
    ensures hasKey ==> Improved(b, json, data, current, payload)
  {
    var clientSequence := data.clientSequence.GetOr("");
    var chatHistory := data.chatHistory.GetOr([]);
    var consultantReply := data.consultantReply.GetOr("");
    ghost var calls0, sent0, slept0 := b.calls, b.sent, b.slept;
    var predicted := GenerateReply(store, b, json, hasKey, clientSequence, chatHistory, Some(current));
    ghost var run := RetryRun(b.respond, json, "reply", "", REPLY_BUSY, calls0);
    ghost var replyPrompt := ReplyPrompt(current, HistoryText(chatHistory, "unknown"), clientSequence);
    ghost var sent1 := b.sent;
    if hasKey {
      assert SystemPrompt(Some(current), store.GetActivePrompt()) == current;
      assert b.calls == calls0 + run.calls && sent1 == sent0 + Repeat(replyPrompt, run.calls);
      assert predicted == run.result && b.slept == slept0 + run.delays;
    }
    var updated := GenerateImprovedPrompt(b, json, hasKey, current, clientSequence, chatHistory, consultantReply,
                                          predicted);
    payload := ImprovedBody(predicted, updated);
  }

  /** The backend's side of an /improve-ai with a key: the prediction is a
      retry run on the reply prompt; the next call, made once, sees that
      prediction and the real reply, and its decoded "prompt" (or the current
      prompt) is the new prompt. */
  twostate predicate Improved(b: Backend, json: string -> ParseResult, data: Body, current: string, payload: Payload)
    reads b
  {
    var history := data.chatHistory.GetOr([]);
    var client := data.clientSequence.GetOr("");
    var run := RetryRun(b.respond, json, "reply", "", REPLY_BUSY, old(b.calls));
    && payload.ImprovedBody?
    && payload.predictedReply == run.result
    && payload.updatedPrompt
       == Decode(b.respond(old(b.calls) + run.calls), json, "prompt", current).GetOr(current)
    && b.calls == old(b.calls) + run.calls + 1
    && b.sent == old(b.sent) + Repeat(ReplyPrompt(current, HistoryText(history, "unknown"), client), run.calls)
                 + [ImprovePrompt(current, HistoryText(history, ""), client, run.result,
                                  data.consultantReply.GetOr(""))]
    && b.slept == old(b.slept) + run.delays
  }

  /** POST /improve-ai-manually: apply the user's instructions to the active
      prompt; a result starting with "Error:" is answered with 429 and not
      saved, anything else is saved. */
  method HandleManualImprove(store: PromptStore.Store, b: Backend, json: string -> ParseResult, hasKey: bool,
                             req: Request)
    returns (resp: Response)
    modifies store, b
    ensures NoData(req) ==> resp == NO_DATA && unchanged(store) && unchanged(b)
    ensures !NoData(req) ==>
      var current := old(store.GetActivePrompt());
      var run := RetryRun(b.respond, json, "prompt", current, MANUAL_BUSY, old(b.calls));
      var updated := if hasKey then run.result else current;
      && (!hasKey ==> unchanged(b))
      && (hasKey ==> b.Ran(ManualPrompt(current, req.json.value.instructions.GetOr("")), run))
      && (StartsWith(updated, ERROR_PREFIX) ==> resp == Response(429, ErrorBody(updated)) && unchanged(store))
      && (!StartsWith(updated, ERROR_PREFIX) ==>
            resp == Response(200, UpdatedBody(updated)) && store.SavedAs(updated, "manual_update")
            && store.ReadsAfterSave(updated))
  {
    if NoData(req) {
      return NO_DATA;
    }
    var instructions := req.json.value.instructions.GetOr("");
    var current := store.GetActivePrompt();
    var updated := ApplyManualInstructions(b, json, hasKey, current, instructions);
    if StartsWith(updated, ERROR_PREFIX) {
      return Response(429, ErrorBody(updated));
    }
    store.SaveNewPrompt(updated, "manual_update");
    resp := Response(200, UpdatedBody(updated));
  }

  /** POST /save-prompt: save the edited prompt as it is; a missing or empty
      prompt is refused. */
  method HandleSavePrompt(store: PromptStore.Store, req: Request) returns (resp: Response)
    modifies store
    ensures NoData(req) ==> resp == NO_DATA && unchanged(store)
    ensures !NoData(req) && req.json.value.prompt.GetOr("") == "" ==> resp == EMPTY_PROMPT && unchanged(store)
    ensures !NoData(req) && req.json.value.prompt.GetOr("") != "" ==>
      var p := req.json.value.prompt.value;
      resp == Response(200, SavedBody("success", p)) && store.SavedAs(p, "direct_edit") && store.ReadsAfterSave(p)
  {
    if NoData(req) {
      return NO_DATA;
    }
    var promptText := req.json.value.prompt.GetOr("");
    if promptText == "" {
      return EMPTY_PROMPT;
    }
    store.SaveNewPrompt(promptText, "direct_edit");
    resp := Response(200, SavedBody("success", promptText));
  }

  // ---------------------------------------------------------------------
  // Round trips and scenarios

  /** Saving an edited prompt and reading it back gives the saved text,
      whenever the save reaches the tier that answers reads. */
  method SaveThenGet(store: PromptStore.Store, req: Request) returns (saved: Response, got: Response)
    requires !NoData(req) && req.json.value.prompt.GetOr("") != ""
    requires store.localWritable || (!store.local.Parsed? && store.db == PromptStore.Ready)
    modifies store
    ensures saved == Response(200, SavedBody("success", req.json.value.prompt.value))
    ensures got == Response(200, PromptBody(req.json.value.prompt.value))
  {
    saved := HandleSavePrompt(store, req);
    got := GetPrompt(store);
  }

  /** A parsed local record that can no longer be written hides the save: the
      row is stored, but reads still answer with the old text. */
  method StaleLocalRecord(store: PromptStore.Store, req: Request) returns (saved: Response, got: Response)
    requires !NoData(req) && req.json.value.prompt.GetOr("") != ""
    requires store.local.Parsed? && !store.localWritable && store.db == PromptStore.Ready
    modifies store
    ensures saved.code == 200
    ensures store.rows == old(store.rows) + [PromptStore.Row(req.json.value.prompt.value, "direct_edit")]
    ensures got == Response(200, PromptBody(old(store.GetActivePrompt())))
  {
    saved := HandleSavePrompt(store, req);
    got := GetPrompt(store);
  }

  /** The manual busy message is one of the results the manual handler refuses. */
  lemma BusyIsError()
    ensures StartsWith(MANUAL_BUSY, ERROR_PREFIX)
  {
    assert MANUAL_BUSY[..|ERROR_PREFIX|] == ERROR_PREFIX;
  }

  /** A manual improvement while every call is rate limited: 429 with the busy
      message after five calls and 75 seconds of back-off, and nothing saved. */
  method ManualWhileRateLimited(store: PromptStore.Store, b: Backend, json: string -> ParseResult, req: Request)
    returns (resp: Response)
    requires !NoData(req)
    requires forall k :: b.calls <= k < b.calls + MAX_RETRIES ==> b.respond(k).Failure? && RateLimited(b.respond(k).message)
    modifies store, b
    ensures resp == Response(429, ErrorBody(MANUAL_BUSY)) && unchanged(store)
    ensures b.calls == old(b.calls) + 5 && b.slept == old(b.slept) + [5, 10, 20, 40]
  {
    RateLimitedThroughout(b.respond, json, "prompt", store.GetActivePrompt(), MANUAL_BUSY, b.calls);
    BusyIsError();
    resp := HandleManualImprove(store, b, json, true, req);
  }

  /** One learning round: the prediction decodes at the first call and the
      rewritten prompt at the next; the response carries both, and the new
      prompt is what the store answers with afterwards. */
  method ImprovementRound(store: PromptStore.Store, b: Backend, json: string -> ParseResult, req: Request,
                          predictedJson: string, predicted: string, promptJson: string, improved: string)
    returns (resp: Response, got: Response)
    requires !NoData(req) && store.localWritable
    requires b.respond(b.calls) == Reply(predictedJson) && !StartsWith(predictedJson, FENCE)
    requires json(predictedJson) == Object(map["reply" := predicted])
    requires b.respond(b.calls + 1) == Reply(promptJson) && !StartsWith(promptJson, FENCE)
    requires json(promptJson) == Object(map["prompt" := improved])
    modifies store, b
    ensures resp == Response(200, ImprovedBody(predicted, improved))
    ensures got == Response(200, PromptBody(improved))
    ensures b.calls == old(b.calls) + 2 && b.slept == old(b.slept)
  {
    FirstTrySucceeds(b.respond, json, "reply", "", REPLY_BUSY, b.calls, predicted);
    resp := HandleImproveAi(store, b, json, true, req);
    got := GetPrompt(store);
  }
}
