/** The calls to the language model in ai.py and prompt_editor.py: the model
    backend, the clean-up of fenced replies, the chat-history text, and the
    retry loop with exponential back-off on rate-limit ("429") errors. */
module Generation {
  import opened Wrappers
  import opened Text
  import PromptStore

  /** What one `model.generate_content(...)` call gives: the response text, or
      the message of the exception it (or reading `response.text`) raised. */
  datatype Outcome = Reply(text: string) | Failure(message: string)

  /** What `json.loads` gives: a JSON object with its string fields, or the
      message of the error raised by the parse (or by `.get` on a non-object). */
  datatype ParseResult = Object(fields: map<string, string>) | Invalid(message: string)

  /** One entry of `chat_history`: a dictionary that may lack either key. */
  datatype HistoryEntry = HistoryEntry(role: Option<string>, message: Option<string>)

  /** The prompt sent to the model, by the pieces its template interpolates. */
  datatype Prompt =
    | ReplyPrompt(system: string, history: string, client: string)
    | ImprovePrompt(current: string, history: string, client: string, predicted: string, target: string)
    | ManualPrompt(current: string, instructions: string)

  /** One run of a retry loop: the value returned, the number of model calls
      made and the back-off delays slept, in order. */
  datatype Run = Run(result: string, calls: nat, delays: seq<nat>)

  const MAX_RETRIES: nat := 5
  const BASE_DELAY: nat := 5
  const NO_KEY_REPLY: string := "Error: GEMINI_API_KEY not found. Please check your .env file."
  const REPLY_BUSY: string := "AI busy (Rate Limit). Please wait 1 min."
  const MANUAL_BUSY: string := "Error: " + REPLY_BUSY

  /** The model, as a script of outcomes: the k-th call made through this
      backend gets `respond(k)`. The ghost logs record every prompt sent and
      every delay slept. */
  class Backend {
    const respond: nat -> Outcome
    var calls: nat
    ghost var sent: seq<Prompt>
    ghost var slept: seq<nat>

    constructor (respond: nat -> Outcome)
      ensures this.respond == respond && calls == 0 && sent == [] && slept == []
    {
      this.respond := respond;
      calls := 0;
      sent := [];
      slept := [];
    }

    /** `model.generate_content(prompt)` followed by reading `response.text`. */
    method GenerateContent(prompt: Prompt) returns (o: Outcome)
      modifies this
      ensures o == respond(old(calls))
      ensures calls == old(calls) + 1 && sent == old(sent) + [prompt] && slept == old(slept)
    {
      o := respond(calls);
      calls := calls + 1;
      sent := sent + [prompt];
    }

    /** `time.sleep(seconds)`. */
    method Sleep(seconds: nat)
      modifies this
      ensures slept == old(slept) + [seconds] && calls == old(calls) && sent == old(sent)
    {
      slept := slept + [seconds];
    }

    /** The backend went through `run`, sending `prompt` on every call. */
    twostate predicate Ran(prompt: Prompt, run: Run)
      reads this
    {
      && calls == old(calls) + run.calls
      && sent == old(sent) + Repeat(prompt, run.calls)
      && slept == old(slept) + run.delays
    }
  }

  /** `n` copies of `p`. */
  function Repeat(p: Prompt, n: nat): (r: seq<Prompt>)
    ensures |r| == n
  {
    if n == 0 then [] else Repeat(p, n - 1) + [p]
  }

  /** Every element of `Repeat(p, n)` is `p`. */
  lemma {:induction false} RepeatAll(p: Prompt, n: nat)
    ensures forall i :: 0 <= i < n ==> Repeat(p, n)[i] == p
  {
    if n > 0 {
      RepeatAll(p, n - 1);
    }
  }

  function Pow2(k: nat): (p: nat)
    ensures p >= 1
  {
    if k == 0 then 1 else 2 * Pow2(k - 1)
  }

  /** The back-off before retry `attempt + 1`: `base_delay * 2 ** attempt`. */
  function Delay(attempt: nat): nat {
    BASE_DELAY * Pow2(attempt)
  }

  function Sum(s: seq<nat>): nat {
    if s == [] then 0 else Sum(s[..|s| - 1]) + s[|s| - 1]
  }

  /** The error is a rate limit when its text contains "429". */
  predicate RateLimited(message: string) {
    Contains(message, "429")
  }

  // ---------------------------------------------------------------------
  // Fenced replies

  const FENCE: string := "```"
  const JSON_FENCE: string := "```json"

  /** Removes Markdown code fences: a reply starting with "```json" loses every
      "```json" and then every "```"; one starting with "```" loses every "```";
      anything else is kept as it is. */
  function StripFences(content: string): (r: string)
    ensures !StartsWith(content, FENCE) ==> r == content
  {
    if StartsWith(content, JSON_FENCE) then ReplaceAll(ReplaceAll(content, JSON_FENCE, ""), FENCE, "")
    else if StartsWith(content, FENCE) then ReplaceAll(content, FENCE, "")
    else content
  }

  /** A text with no backtick in it. */
  predicate NoBacktick(p: string) {
    forall k :: 0 <= k < |p| ==> p[k] != '`'
  }

  lemma StripFenceTail(p: string, pat: string)
    requires |pat| > 0 && pat[0] == '`' && NoBacktick(p)
    ensures ReplaceAll(p + FENCE, pat, "") == p + ReplaceAll(FENCE, pat, "")
  {
    ReplaceAllSkipsPrefix(p, FENCE, pat, "");
  }

  /** A reply fenced as a JSON block comes out as the bare payload. */
  lemma StripJsonFence(p: string)
    requires NoBacktick(p)
    ensures StripFences(JSON_FENCE + p + FENCE) == p
  {
    var s := JSON_FENCE + p + FENCE;
    assert s[..|JSON_FENCE|] == JSON_FENCE;
    assert s[|JSON_FENCE|..] == p + FENCE;
    calc {
      ReplaceAll(s, JSON_FENCE, "");
      "" + ReplaceAll(p + FENCE, JSON_FENCE, "");
      { StripFenceTail(p, JSON_FENCE); }
      p + ReplaceAll(FENCE, JSON_FENCE, "");
      p + FENCE;
    }
    calc {
      ReplaceAll(p + FENCE, FENCE, "");
      { StripFenceTail(p, FENCE); }
      p + ReplaceAll(FENCE, FENCE, "");
      { assert FENCE[|FENCE|..] == ""; }
      p;
    }
  }

  /** A reply in a plain fence comes out as the bare payload, unless the
      payload itself begins with "json" (then the fence reads as "```json"). */
  lemma StripPlainFence(p: string)
    requires NoBacktick(p) && !StartsWith(p, "json")
    ensures StripFences(FENCE + p + FENCE) == p
  {
    var s := FENCE + p + FENCE;
    assert s[..|FENCE|] == FENCE;
    assert s[|FENCE|..] == p + FENCE;
    if |p| < 4 {
      assert s[3 + |p|] == '`' != JSON_FENCE[3 + |p|];
    } else {
      assert s[3..7] == p[..4] != JSON_FENCE[3..];
    }
    assert !StartsWith(s, JSON_FENCE);
    calc {
      ReplaceAll(s, FENCE, "");
      "" + ReplaceAll(p + FENCE, FENCE, "");
      { StripFenceTail(p, FENCE); }
      p + ReplaceAll(FENCE, FENCE, "");
      { assert FENCE[|FENCE|..] == ""; }
      p;
    }
  }

  /** What `json.loads(cleaned).get(field, fallback)` gives for one outcome:
      the value, or the text of the exception the attempt raised. */
  function Decode(o: Outcome, json: string -> ParseResult, field: string, fallback: string): Result<string, string> {
    match o
    case Failure(m) => Err(m)
    case Reply(content) =>
      match json(StripFences(content))
      case Object(data) => Ok(PromptStore.Lookup(data, field, fallback))
      case Invalid(m) => Err(m)
  }

  // ---------------------------------------------------------------------
  // Chat history

  /** One history line: the upper-cased role (or `missingRole`), ": ", the message. */
  function HistoryLine(e: HistoryEntry, missingRole: string): string {
    Upper(e.role.GetOr(missingRole)) + ": " + e.message.GetOr("") + "\n"
  }

  /** The history text, one line per entry, in order. */
  function HistoryText(h: seq<HistoryEntry>, missingRole: string): string {
    if h == [] then "" else HistoryText(h[..|h| - 1], missingRole) + HistoryLine(h[|h| - 1], missingRole)
  }

  /** The history of a list of entries followed by more entries is the
      history of the first part followed by that of the second. */
  lemma {:induction false} HistoryTextAppend(a: seq<HistoryEntry>, b: seq<HistoryEntry>, missingRole: string)
    ensures HistoryText(a + b, missingRole) == HistoryText(a, missingRole) + HistoryText(b, missingRole)
    decreases |b|
  {
    if b == [] {
      assert a + b == a;
    } else {
      var b0, x := b[..|b| - 1], b[|b| - 1];
      assert (a + b)[..|a + b| - 1] == a + b0;
      calc {
        HistoryText(a + b, missingRole);
        HistoryText(a + b0, missingRole) + HistoryLine(x, missingRole);
        { HistoryTextAppend(a, b0, missingRole); }
        HistoryText(a, missingRole) + HistoryText(b0, missingRole) + HistoryLine(x, missingRole);
        HistoryText(a, missingRole) + HistoryText(b, missingRole);
      }
    }
  }

  /** ai.py (role "unknown" when missing) and prompt_editor.py (role "" when
      missing) write the same history when every entry has a role. */
  lemma {:induction false} HistoryAgreesWithRoles(h: seq<HistoryEntry>, m1: string, m2: string)
    requires forall i :: 0 <= i < |h| ==> h[i].role.Some?
    ensures HistoryText(h, m1) == HistoryText(h, m2)
    decreases |h|
  {
    if h != [] {
      HistoryAgreesWithRoles(h[..|h| - 1], m1, m2);
    }
  }

  /** The two history formats differ on an entry without a role. */
  lemma HistoryDiffersWithoutRole(msg: Option<string>)
    ensures HistoryText([HistoryEntry(None, msg)], "unknown") != HistoryText([HistoryEntry(None, msg)], "")
  {
    var h := [HistoryEntry(None, msg)];
    assert h[..0] == [];
    assert HistoryText(h, "unknown")[0] == 'U';
    assert HistoryText(h, "")[0] == ':';
  }

  /** The history loop of ai.py:28-32 and prompt_editor.py:39-41. */
  method FormatHistory(chatHistory: seq<HistoryEntry>, missingRole: string) returns (historyStr: string)
    ensures historyStr == HistoryText(chatHistory, missingRole)
  {
    historyStr := "";
    for i := 0 to |chatHistory|
      invariant historyStr == HistoryText(chatHistory[..i], missingRole)
    {
      assert chatHistory[..i + 1][..i] == chatHistory[..i];
      var msg := chatHistory[i];
      var role := msg.role.GetOr(missingRole);
      var content := msg.message.GetOr("");
      historyStr := historyStr + Upper(role) + ": " + content + "\n";
    }
    assert chatHistory[..|chatHistory|] == chatHistory;
  }

  // ---------------------------------------------------------------------
  // The retry loop

  /** What one attempt of a retry loop comes to: the decoded value, or the
      text of the exception it raised. */
  type Attempt = Result<string, string>

  /** The attempts the backend's calls `start`, `start + 1`, ... would give,
      `n` of them. */
  function Tries(respond: nat -> Outcome, json: string -> ParseResult, field: string, fallback: string,
                 start: nat, n: nat): (tries: seq<Attempt>)
    ensures |tries| == n
  {
    if n == 0 then [] else Tries(respond, json, field, fallback, start, n - 1) + [Decode(respond(start + n - 1), json, field, fallback)]
  }

  /** Attempt `k` is what the backend's call `start + k` decodes to. */
  lemma {:induction false} TriesAt(respond: nat -> Outcome, json: string -> ParseResult, field: string, fallback: string,
                                   start: nat, n: nat, k: nat)
    requires k < n
    ensures Tries(respond, json, field, fallback, start, n)[k] == Decode(respond(start + k), json, field, fallback)
  {
    if k < n - 1 {
      TriesAt(respond, json, field, fallback, start, n - 1, k);
    }
  }

  /** The retry loop from attempt `attempt` on, given what each of the five
      attempts would give: a decoded value is returned at once; a rate-limit
      error before the last attempt sleeps `Delay(attempt)` and retries; any
      other error before the last attempt retries without sleeping; any error
      on the last attempt gives `busy`. */
  function RetryFrom(tries: seq<Attempt>, busy: string, attempt: nat): (run: Run)
    requires |tries| == MAX_RETRIES && attempt < MAX_RETRIES
    ensures 1 <= run.calls <= MAX_RETRIES - attempt
    decreases MAX_RETRIES - attempt
  {
    match tries[attempt]
    case Ok(v) => Run(v, 1, [])
    case Err(m) =>
      if RateLimited(m) && attempt < MAX_RETRIES - 1 then
        var rest := RetryFrom(tries, busy, attempt + 1);
        Run(rest.result, rest.calls + 1, [Delay(attempt)] + rest.delays)
      else if attempt == MAX_RETRIES - 1 then Run(busy, 1, [])
      else
        var rest := RetryFrom(tries, busy, attempt + 1);
        Run(rest.result, rest.calls + 1, rest.delays)
  }

  /** The whole loop, started on the backend's call number `start`. */
  function RetryRun(respond: nat -> Outcome, json: string -> ParseResult, field: string, fallback: string,
                    busy: string, start: nat): Run
  {
    RetryFrom(Tries(respond, json, field, fallback, start, MAX_RETRIES), busy, 0)
  }

  /** A run is decided by its last call: every earlier attempt failed, and the
      last one either gave the result or was the fifth attempt and failed,
      giving `busy`. */
  lemma {:induction false} RetryOutcome(tries: seq<Attempt>, busy: string, attempt: nat)
    requires |tries| == MAX_RETRIES && attempt < MAX_RETRIES
    ensures var run := RetryFrom(tries, busy, attempt);
      var last := attempt + run.calls - 1;
      && (forall k :: attempt <= k < last ==> tries[k].Err?)
      && (tries[last] == Ok(run.result) || (last == MAX_RETRIES - 1 && tries[last].Err? && run.result == busy))
    decreases MAX_RETRIES - attempt
  {
    if tries[attempt].Err? && attempt < MAX_RETRIES - 1 {
      RetryOutcome(tries, busy, attempt + 1);
    }
  }

  /** The back-off delays of a run from `attempt` add up to at most
      `Delay(4) - Delay(attempt)`, and there are fewer of them than calls. */
  lemma {:induction false} RetryDelaysBound(tries: seq<Attempt>, busy: string, attempt: nat)
    requires |tries| == MAX_RETRIES && attempt < MAX_RETRIES
    ensures var run := RetryFrom(tries, busy, attempt);
      |run.delays| < run.calls && Sum(run.delays) + Delay(attempt) <= Delay(MAX_RETRIES - 1)
    decreases MAX_RETRIES - attempt
  {
    if tries[attempt].Err? && attempt < MAX_RETRIES - 1 {
      RetryDelaysBound(tries, busy, attempt + 1);
      var rest := RetryFrom(tries, busy, attempt + 1);
      if RateLimited(tries[attempt].error) {
        SumPrepend(Delay(attempt), rest.delays);
      }
    }
  }

  lemma {:induction false} SumPrepend(x: nat, s: seq<nat>)
    ensures Sum([x] + s) == x + Sum(s)
    decreases |s|
  {
    if s != [] {
      var s0 := s[..|s| - 1];
      assert ([x] + s)[..|s|] == [x] + s0;
      SumPrepend(x, s0);
    } else {
      assert [x] + s == [x];
      assert [x][..0] == [];
    }
  }

  /** The whole loop sleeps at most four times, 75 seconds in all. */
  lemma TotalBackoff(tries: seq<Attempt>, busy: string)
    requires |tries| == MAX_RETRIES
    ensures var run := RetryFrom(tries, busy, 0);
      |run.delays| <= MAX_RETRIES - 1 && Sum(run.delays) <= 75
  {
    RetryDelaysBound(tries, busy, 0);
  }

  /** Five rate-limit errors in a row: five calls, sleeps of 5, 10, 20 and 40
      seconds, and the busy message. */
  lemma AllRateLimited(tries: seq<Attempt>, busy: string)
    requires |tries| == MAX_RETRIES
    requires forall k :: 0 <= k < MAX_RETRIES ==> tries[k].Err? && RateLimited(tries[k].error)
    ensures RetryFrom(tries, busy, 0) == Run(busy, 5, [5, 10, 20, 40])
  {
    assert RetryFrom(tries, busy, 4) == Run(busy, 1, []);
    assert RetryFrom(tries, busy, 3) == Run(busy, 2, [40]);
    assert RetryFrom(tries, busy, 2) == Run(busy, 3, [20, 40]);
    assert RetryFrom(tries, busy, 1) == Run(busy, 4, [10, 20, 40]);
  }

  /** Errors that are not rate limits are retried at once: no sleeping at all. */
  lemma {:induction false} NoBackoffWithoutRateLimit(tries: seq<Attempt>, busy: string, attempt: nat)
    requires |tries| == MAX_RETRIES && attempt < MAX_RETRIES
    requires forall k :: attempt <= k < MAX_RETRIES && tries[k].Err? ==> !RateLimited(tries[k].error)
    ensures RetryFrom(tries, busy, attempt).delays == []
    decreases MAX_RETRIES - attempt
  {
    if attempt < MAX_RETRIES - 1 {
      NoBackoffWithoutRateLimit(tries, busy, attempt + 1);
    }
  }

  /** The body of the `try` block of each attempt: one model call, the fences
      stripped, the JSON parsed and `field` read (default `fallback`). */
  method TryOnce(b: Backend, prompt: Prompt, json: string -> ParseResult, field: string, fallback: string)
    returns (d: Attempt)
    modifies b
    ensures d == Decode(b.respond(old(b.calls)), json, field, fallback)
    ensures b.calls == old(b.calls) + 1 && b.sent == old(b.sent) + [prompt] && b.slept == old(b.slept)
  {
    var o := b.GenerateContent(prompt);
    match o {
      case Failure(m) =>
        d := Err(m);
      case Reply(content) =>
        var cleaned := StripFences(content);
        match json(cleaned) {
          case Object(data) =>
            d := Ok(PromptStore.Lookup(data, field, fallback));
          case Invalid(m) =>
            d := Err(m);
        }
    }
  }

  /** The delay slept after attempt `k` of the loop, if any. */
  function BackoffAfter(tries: seq<Attempt>, k: nat): seq<nat>
    requires k < |tries|
  {
    if tries[k].Err? && RateLimited(tries[k].error) && k < MAX_RETRIES - 1 then [Delay(k)] else []
  }

  /** The delays slept after attempts `a` to `m - 1`, in order. */
  function BackoffsFrom(tries: seq<Attempt>, a: nat, m: nat): seq<nat>
    requires a <= m <= |tries|
    decreases m - a
  {
    if a == m then [] else BackoffAfter(tries, a) + BackoffsFrom(tries, a + 1, m)
  }

  lemma {:induction false} BackoffsSnoc(tries: seq<Attempt>, a: nat, m: nat)
    requires a <= m < |tries|
    ensures BackoffsFrom(tries, a, m + 1) == BackoffsFrom(tries, a, m) + BackoffAfter(tries, m)
    decreases m - a
  {
    if a < m {
      BackoffsSnoc(tries, a + 1, m);
      AppendAssoc(BackoffAfter(tries, a), BackoffsFrom(tries, a + 1, m), BackoffAfter(tries, m));
    } else {
      assert BackoffsFrom(tries, a + 1, m + 1) == [];
    }
  }

  /** The loop stopped after `n` calls with `result`: the first `n - 1`
      attempts failed, and the last one gave `result`, or was the fifth and
      failed, leaving `busy`. */
  ghost predicate Settled(tries: seq<Attempt>, busy: string, n: nat, result: string)
    requires |tries| == MAX_RETRIES
  {
    && 1 <= n <= MAX_RETRIES
    && (forall k :: 0 <= k < n - 1 ==> tries[k].Err?)
    && (tries[n - 1] == Ok(result) || (n == MAX_RETRIES && tries[n - 1].Err? && result == busy))
  }

  /** A settled loop is the run `RetryFrom` describes. */
  lemma {:induction false} SettledRun(tries: seq<Attempt>, busy: string, n: nat, result: string, a: nat)
    requires |tries| == MAX_RETRIES && Settled(tries, busy, n, result) && a < n
    ensures RetryFrom(tries, busy, a) == Run(result, n - a, BackoffsFrom(tries, a, n - 1))
    decreases n - a
  {
    if a < n - 1 {
      SettledRun(tries, busy, n, result, a + 1);
      assert tries[a].Err?;
      if !RateLimited(tries[a].error) {
        assert [] + BackoffsFrom(tries, a + 1, n - 1) == BackoffsFrom(tries, a + 1, n - 1);
      }
    }
  }

  lemma AppendAssoc<T>(a: seq<T>, b: seq<T>, c: seq<T>)
    ensures a + (b + c) == (a + b) + c
  {
  }

  /** Attempt `attempt` of a loop whose calls started at `start`. */
  method NextAttempt(b: Backend, prompt: Prompt, json: string -> ParseResult, field: string, fallback: string,
                     ghost tries: seq<Attempt>, ghost start: nat, ghost attempt: nat) returns (d: Attempt)
    requires tries == Tries(b.respond, json, field, fallback, start, MAX_RETRIES)
    requires attempt < MAX_RETRIES && b.calls == start + attempt
    modifies b
    ensures d == tries[attempt]
    ensures b.calls == old(b.calls) + 1 && b.sent == old(b.sent) + [prompt] && b.slept == old(b.slept)
  {
    d := TryOnce(b, prompt, json, field, fallback);
    TriesAt(b.respond, json, field, fallback, start, MAX_RETRIES, attempt);
  }

  /** The retry loop of ai.py:52-77 and prompt_editor.py:107-130, sending
      `prompt` on every attempt and reading `field` (default `fallback`) from
      the reply. */
  method RetryGenerate(b: Backend, prompt: Prompt, json: string -> ParseResult, field: string, fallback: string,
                       busy: string) returns (result: string)
    modifies b
    ensures var run := RetryRun(b.respond, json, field, fallback, busy, old(b.calls));
      result == run.result && b.Ran(prompt, run)
    ensures forall i :: |old(b.sent)| <= i < |b.sent| ==> b.sent[i] == prompt
  {
    ghost var tries := Tries(b.respond, json, field, fallback, b.calls, MAX_RETRIES);
    ghost var start := b.calls;
    ghost var sent0 := b.sent;
    result := RetryLoop(b, prompt, json, field, fallback, busy, tries);
    SettledRun(tries, busy, b.calls - start, result, 0);
    RepeatAll(prompt, b.calls - start);
    assert b.sent == sent0 + Repeat(prompt, b.calls - start);
  }

  /** The loop itself, against the attempts its calls give. The trailing
      return after the loop is never reached: the last attempt always returns. */
  method RetryLoop(b: Backend, prompt: Prompt, json: string -> ParseResult, field: string, fallback: string,
                   busy: string, ghost tries: seq<Attempt>) returns (result: string)
    requires tries == Tries(b.respond, json, field, fallback, b.calls, MAX_RETRIES)
    modifies b
    ensures b.calls >= old(b.calls)
    ensures var n := b.calls - old(b.calls);
      && Settled(tries, busy, n, result)
      && b.sent == old(b.sent) + Repeat(prompt, n) && b.slept == old(b.slept) + BackoffsFrom(tries, 0, n - 1)
  {
    ghost var start, sent0, slept0 := b.calls, b.sent, b.slept;
    for attempt := 0 to MAX_RETRIES
      invariant attempt < MAX_RETRIES
      invariant b.calls == start + attempt && b.sent == sent0 + Repeat(prompt, attempt)
      invariant b.slept == slept0 + BackoffsFrom(tries, 0, attempt)
      invariant forall k :: 0 <= k < attempt ==> tries[k].Err?
    {
      AppendAssoc(sent0, Repeat(prompt, attempt), [prompt]);
      var d := NextAttempt(b, prompt, json, field, fallback, tries, start, attempt);
      if d.Ok? {
        return d.value;
      }
      var giveUp := OnError(b, d.error, attempt, tries);
      BackoffsSnoc(tries, 0, attempt);
      AppendAssoc(slept0, BackoffsFrom(tries, 0, attempt), BackoffAfter(tries, attempt));
      if giveUp {
        return busy;
      }
    }
    assert false;
  }

  /** The `except` block of attempt `attempt`: a rate limit before the last
      attempt sleeps `base_delay * 2 ** attempt` and retries; otherwise the
      last attempt gives up, and an earlier one retries at once. */
  method OnError(b: Backend, errorStr: string, attempt: nat, ghost tries: seq<Attempt>) returns (giveUp: bool)
    requires attempt < MAX_RETRIES == |tries| && tries[attempt] == Err(errorStr)
    modifies b
    ensures giveUp <==> attempt == MAX_RETRIES - 1
    ensures b.slept == old(b.slept) + BackoffAfter(tries, attempt)
    ensures b.calls == old(b.calls) && b.sent == old(b.sent)
  {
    if RateLimited(errorStr) && attempt < MAX_RETRIES - 1 {
      var delay := BASE_DELAY * Pow2(attempt);
      b.Sleep(delay);
      return false;
    }
    giveUp := attempt == MAX_RETRIES - 1;
  }

  // ---------------------------------------------------------------------
  // The three operations

  /** `specific_prompt if specific_prompt else get_active_prompt()`: a missing
      or empty specific prompt falls back to the active one. */
  function SystemPrompt(specific: Option<string>, active: string): (s: string)
    ensures specific.Some? && specific.value != "" ==> s == specific.value
    ensures (specific.None? || specific.value == "") ==> s == active
  {
    if specific.Some? && specific.value != "" then specific.value else active
  }

  /** `generate_reply` (ai.py:17-77): without an API key, the key error and no
      call; otherwise the retry loop on the reply prompt, reading "reply". */
  method GenerateReply(store: PromptStore.Store, b: Backend, json: string -> ParseResult, hasKey: bool,
                       clientSequence: string, chatHistory: seq<HistoryEntry>, specificPrompt: Option<string>)
    returns (reply: string)
    modifies b
    ensures !hasKey ==> reply == NO_KEY_REPLY && unchanged(b)
    ensures hasKey ==>
      var run := RetryRun(b.respond, json, "reply", "", REPLY_BUSY, old(b.calls));
      reply == run.result
      && b.Ran(ReplyPrompt(SystemPrompt(specificPrompt, store.GetActivePrompt()), HistoryText(chatHistory, "unknown"),
                           clientSequence), run)
  {
    if !hasKey {
      return NO_KEY_REPLY;
    }
    var systemPrompt := SystemPrompt(specificPrompt, store.GetActivePrompt());
    var historyStr := FormatHistory(chatHistory, "unknown");
    var fullPrompt := ReplyPrompt(systemPrompt, historyStr, clientSequence);
    reply := RetryGenerate(b, fullPrompt, json, "reply", "", REPLY_BUSY);
  }

  /** `generate_improved_prompt` (prompt_editor.py:34-78): one call; the
      decoded "prompt" (default: the current prompt), and the current prompt
      again on a missing key or on any error. */
  method GenerateImprovedPrompt(b: Backend, json: string -> ParseResult, hasKey: bool, currentPrompt: string,
                                clientSequence: string, chatHistory: seq<HistoryEntry>, realReply: string,
                                aiPredictedReply: string)
    returns (improved: string)
    modifies b
    ensures !hasKey ==> improved == currentPrompt && unchanged(b)
    ensures hasKey ==>
      && improved == Decode(b.respond(old(b.calls)), json, "prompt", currentPrompt).GetOr(currentPrompt)
      && b.Ran(ImprovePrompt(currentPrompt, HistoryText(chatHistory, ""), clientSequence, aiPredictedReply, realReply),
               Run(improved, 1, []))
  {
    if !hasKey {
      return currentPrompt;
    }
    var historyStr := FormatHistory(chatHistory, "");
    var userContent := ImprovePrompt(currentPrompt, historyStr, clientSequence, aiPredictedReply, realReply);
    var d := TryOnce(b, userContent, json, "prompt", currentPrompt);
    improved := if d.Ok? then d.value else currentPrompt;
  }

  /** `apply_manual_instructions` (prompt_editor.py:80-130): without an API
      key, the current prompt; otherwise the retry loop on the manual prompt,
      reading "prompt" (default: the current prompt). */
  method ApplyManualInstructions(b: Backend, json: string -> ParseResult, hasKey: bool, currentPrompt: string,
                                 instructions: string)
    returns (updated: string)
    modifies b
    ensures !hasKey ==> updated == currentPrompt && unchanged(b)
    ensures hasKey ==>
      var run := RetryRun(b.respond, json, "prompt", currentPrompt, MANUAL_BUSY, old(b.calls));
      updated == run.result && b.Ran(ManualPrompt(currentPrompt, instructions), run)
  {
    if !hasKey {
      return currentPrompt;
    }
    updated := RetryGenerate(b, ManualPrompt(currentPrompt, instructions), json, "prompt", currentPrompt, MANUAL_BUSY);
  }

  /** A first call that decodes ends the loop at once: one call, no sleep. */
  lemma FirstTrySucceeds(respond: nat -> Outcome, json: string -> ParseResult, field: string, fallback: string,
                         busy: string, start: nat, v: string)
    requires Decode(respond(start), json, field, fallback) == Ok(v)
    ensures RetryRun(respond, json, field, fallback, busy, start) == Run(v, 1, [])
  {
    TriesAt(respond, json, field, fallback, start, MAX_RETRIES, 0);
  }

  /** Five rate-limited calls in a row, from call `start` on: the busy
      message after five calls and sleeps of 5, 10, 20 and 40 seconds. */
  lemma RateLimitedThroughout(respond: nat -> Outcome, json: string -> ParseResult, field: string, fallback: string,
                              busy: string, start: nat)
    requires forall k :: start <= k < start + MAX_RETRIES ==> respond(k).Failure? && RateLimited(respond(k).message)
    ensures RetryRun(respond, json, field, fallback, busy, start) == Run(busy, 5, [5, 10, 20, 40])
  {
    var tries := Tries(respond, json, field, fallback, start, MAX_RETRIES);
    forall k | 0 <= k < MAX_RETRIES
      ensures tries[k].Err? && RateLimited(tries[k].error)
    {
      TriesAt(respond, json, field, fallback, start, MAX_RETRIES, k);
    }
    AllRateLimited(tries, busy);
  }

  /** Two rate-limit errors and then a fenced JSON reply: three calls and
      sleeps of 5 and then 10 seconds before the reply is returned. */
  lemma TwoRateLimitsThenReply(respond: nat -> Outcome, json: string -> ParseResult, start: nat,
                               payload: string, text: string)
    requires NoBacktick(payload) && json(payload) == Object(map["reply" := text])
    requires respond(start).Failure? && RateLimited(respond(start).message)
    requires respond(start + 1).Failure? && RateLimited(respond(start + 1).message)
    requires respond(start + 2) == Reply(JSON_FENCE + payload + FENCE)
    ensures RetryRun(respond, json, "reply", "", REPLY_BUSY, start) == Run(text, 3, [5, 10])
  {
    var tries := Tries(respond, json, "reply", "", start, MAX_RETRIES);
    StripJsonFence(payload);
    TriesAt(respond, json, "reply", "", start, MAX_RETRIES, 0);
    TriesAt(respond, json, "reply", "", start, MAX_RETRIES, 1);
    TriesAt(respond, json, "reply", "", start, MAX_RETRIES, 2);
    assert tries[2] == Ok(text);
    assert RetryFrom(tries, REPLY_BUSY, 2) == Run(text, 1, []);
    assert RetryFrom(tries, REPLY_BUSY, 1) == Run(text, 2, [10]);
  }

  /** Two rate-limit errors and then a fenced JSON reply: the reply is
      returned after sleeping 5 and then 10 seconds, on the third call. */
  method RateLimitScenario(store: PromptStore.Store, b: Backend, json: string -> ParseResult, payload: string,
                           text: string, clientSequence: string)
    returns (reply: string)
    requires NoBacktick(payload) && json(payload) == Object(map["reply" := text])
    requires b.respond(b.calls).Failure? && RateLimited(b.respond(b.calls).message)
    requires b.respond(b.calls + 1).Failure? && RateLimited(b.respond(b.calls + 1).message)
    requires b.respond(b.calls + 2) == Reply(JSON_FENCE + payload + FENCE)
    modifies b
    ensures reply == text && b.calls == old(b.calls) + 3 && b.slept == old(b.slept) + [5, 10]
  {
    TwoRateLimitsThenReply(b.respond, json, b.calls, payload, text);
    reply := GenerateReply(store, b, json, true, clientSequence, [], None);
  }
}
