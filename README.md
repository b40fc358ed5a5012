# Human-in-the-loop approval gate

The program connects an LLM agent to an agent message bus and gives it three
content tools (a fact, a quote, a joke). Every call of one of these three
tools first goes through a shared pre-hook that asks the user "Do you want to continue?" with the
answers `y` (the default), `n` and `retry`. The answer is stripped of
surrounding white space and lower-cased, then:

- `n` stops the agent run (`StopAgentRun`, "Cancelled by user") and leaves the
  retry counter as it is;
- `retry` first adds one to a retry counter shared by the three content tools; if the
  counter has reached `MAX_RETRIES = 3` the run stops ("Too many retries"),
  otherwise the call is retried (`RetryAgentRun`) and "Attempt k of 3" is
  shown with k the new counter;
- anything else lets the tool run and puts the counter back to 0.

The main loop sets the counter to 0 before every agent run.

The message-bus tools the agent also uses are not gated.

This project models that gate. `pystr.dfy` (module `PyStr`) defines
Python's `str.strip()` and `str.lower()` as the gate uses them, with lemmas
about what they produce. `prehook.dfy` (module `PreHook`) holds the outcome
datatype (the two exceptions become `Retry(attempt)` and `Stop(reason)`), the
pure decision function `Decide`, the function `RunHooks` that follows one
agent run through its sequence of gate calls, and the class `Gate`, whose
`count` field is the module-level `retry_counter["count"]` and whose methods
are the pre-hook (`Ask`), the per-run reset (`ResetForRun`), one agent run
(`RunAgent`) and the main loop (`Serve`).

Inputs the model takes as parameters: the user's raw answer to the prompt
(one string per tool call), and, for an agent run, the sequence of those
answers in the order the agent's calls of the three content tools ask for
them. A run ends at the
first Stop: `StopAgentRun` is modelled as ending it; Continue and Retry let the agent
make further calls. Which calls the agent makes, and how many, is decided by
the LLM and is not modelled; the given answers stand for them.

A consequence the lemmas make visible: with `MAX_RETRIES = 3` the message
"Attempt k of 3" only ever shows k = 1 or 2, because the third retry in a row
stops the run instead.

## Model

| member | source | states |
|---|---|---|
| PreHook.Decide | main.py:45-58 | "n" gives Stop(cancelled) and keeps the count; "retry" raises the count by exactly one, then gives Stop(too many retries) exactly when the new count is at least MaxRetries and Retry otherwise; a Retry reports attempt k equal to the new count with 1 <= k < MaxRetries; every other choice gives Continue and resets the count to 0 (each case in both directions) |
| PreHook.RunHooks | main.py:45-58 | within one agent run, a Stop can only be the last gate outcome, the run ends before its answers are used up only because of a Stop, and every answer given is consumed up to that point |
| PreHook.ConsecutiveRetries | main.py:49-55 | any number n of "retry" answers in a row from a count c below the limit give Retry(c+1), Retry(c+2), ... and, once the count reaches MaxRetries, a final Stop(too many retries) with the count left at MaxRetries |
| PreHook.RetryStep | main.py:49-55 | a "retry" at the front of a run stops it for too many retries when the raised count reaches MaxRetries, and otherwise reports Retry with the new count and carries on with that count |
| PreHook.ThirdRetryStops | main.py:49-55 | from a fresh counter, "retry" three times gives Retry(1), Retry(2), then Stop(too many retries), leaving the count at 3 |
| PreHook.RunStaysBounded | main.py:49-58 | in any run starting below MaxRetries every reported attempt is between 1 and MaxRetries-1, the count never exceeds MaxRetries, and it ends at MaxRetries exactly when the run was stopped for too many retries |
| PreHook.Classify | main.py:45-57 | the normalised answer is compared with "n", then with "retry", and anything else falls through to a yes; its properties are carried by AnswerPaddingIgnored, AnswerCaseIgnored and GateExamples |
| PreHook.AnswerPaddingIgnored | main.py:37-41 | the gate's reading of any answer, trimmed or not, does not change when white space is added around it |
| PreHook.AnswerCaseIgnored | main.py:37-41 | two answers with the same lower-case form are read as the same choice |
| PreHook.Outcome.Message | main.py:47-55 | the exception text of each non-Continue outcome: "Retrying with new data", "Cancelled by user", "Too many retries" |
| PreHook.Outcome.AgentMessage | main.py:47-55 | the agent_message of each non-Continue outcome: "Let me try again!", "I don't have any tool calls to make.", "Stopped after several retries." |
| PreHook.GateExamples | main.py:37-58 | " N\n" cancels with the texts "Cancelled by user" and "I don't have any tool calls to make." and keeps the count; "RETRY" from 0 retries as attempt 1 with "Let me try again!", and from 2 stops with "Too many retries"; the default "y" continues with the count reset |
| PreHook.Gate.constructor | main.py:27 | the shared retry counter starts at 0 |
| PreHook.Gate.Ask | main.py:30-58 | the pre-hook's outcome and the new counter are what Decide gives for the old counter and the normalised answer |
| PreHook.Gate.ResetForRun | main.py:125 | the counter is 0 afterwards |
| PreHook.Gate.RunAgent | main.py:126-132 | the outcomes of one agent run and the counter it leaves are exactly RunHooks from the counter it started with |
| PreHook.Gate.Serve | main.py:123-135 | one log entry per agent run; each run's outcomes are those of RunHooks from count 0, whatever earlier runs left in the counter (for example 3 after a too-many-retries stop); the counter ends as the last run left it |
| PyStr.StripLeftShape | main.py:41 | the result of removing leading white space is the longest suffix of the input that does not start with white space, and everything removed is white space |
| PyStr.StripRightShape | main.py:41 | the result of removing trailing white space is the longest prefix of the input that does not end with white space, and everything removed is white space |
| PyStr.StripShape | main.py:41 | strip() leaves no white space at either end, never lengthens, and gives "" exactly for an all-white-space input |
| PyStr.StripSplit | main.py:41 | every string is its leading white space, then its strip() result, which has no white space at either end, then its trailing white space |
| PyStr.StripAbsorbsPadding | main.py:41 | strip() of any string with extra white space around it equals strip() of the string itself |
| PyStr.StripPadded | main.py:41 | strip() of a trimmed string surrounded by any white space gives back that string; it rests on StripLeftPadded and StripRightPadded, which state the same for the leading and the trailing side |
| PyStr.LowerShape | main.py:41 | the ASCII-only Lower keeps the length, keeps a trimmed string trimmed and leaves no ASCII capital |
| PyStr.StripLowerCommute | main.py:41 | stripping then lowering gives the same string as lowering then stripping |
| PyStr.NormalizeIgnoresCase | main.py:41 | two answers with the same lower-case form normalise to the same string |
| PyStr.Strip | main.py:41 | Python's `strip()`; its properties are carried by StripLeftShape, StripRightShape, StripShape and StripPadded |
| PyStr.Lower | main.py:41 | Python's `lower()` on ASCII letters; its properties are carried by LowerShape and StripLowerCommute |
| PyStr.Normalize | main.py:37-41 | `answer.strip().lower()`; its properties are carried by NormalizedShape, NormalizeIdempotent, NormalizePadded and NormalizeIgnoresCase |
| PyStr.NormalizedShape | main.py:37-41 | the normalised answer has no white space at either end and no ASCII capital |
| PyStr.NormalizeIdempotent | main.py:37-41 | normalising an already normalised answer changes nothing |
| PyStr.NormalizePadded | main.py:37-41 | the normalised form of an answer padded with white space is the lower-cased core |

## Left out

- Console output and the live display's stop and start around the prompt (main.py:31-35, 43, 46, 52, 54): screen side effects. The exceptions' message texts are kept as `Outcome.Message` and `Outcome.AgentMessage`.
- `Prompt.ask` itself and its validation against the three choices (main.py:37-41): terminal input. The model accepts any string as the answer, which covers every string the prompt can return.
- PyStr.Lower: lower-cases ASCII letters only, because Python's full Unicode case mapping is not modelled; no non-ASCII character lower-cases to a letter of "n" or "retry", so the gate's decisions are the same.
- The three tools `get_fact`, `get_quote` and `get_joke` (main.py:61-73): each only yields its argument, and the `@tool` decorator belongs to an external library.
- Building the message-bus URL from environment variables (main.py:15-25): library calls and environment reads.
- The agent, the LLM, the tool-protocol client and `aprint_response` (main.py:77-132): external services. Their effect on the gate is represented only by the sequence of answers of each run.
- PreHook.RunHooks: assumes that no gate call follows a Stop within one run. Whether the agent library still runs the pre-hook for the other tool calls of the same model response after one of them raised `StopAgentRun` is decided by that library, not by main.py (main.py:47, 53 only raise the exception). Tool calls issued together in one model response are not modelled. The bounds that rest on this cut are `RunStaysBounded`'s count of at most MaxRetries and `ConsecutiveRetries`' final count of MaxRetries.
- The asyncio runtime, the sleeps, and the restart on an exception or the exit on KeyboardInterrupt (main.py:135-143): the main loop is modelled over a finite list of runs, each run ending normally.
