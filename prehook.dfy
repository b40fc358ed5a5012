/** The human-approval gate that runs before every call of the three content
    tools: the user answers "y", "n" or "retry", and a retry counter shared by
    those tools decides when retrying has gone on long enough. */
module PreHook {
  import opened PyStr

  /** How many retries in a row end the run instead of retrying once more. */
  const MaxRetries: nat := 3

  datatype StopReason = CancelledByUser | TooManyRetries

  /** What the gate does with one tool call: let the tool run, raise
      RetryAgentRun (reporting the attempt number), or raise StopAgentRun. */
  datatype Outcome = Continue | Retry(attempt: nat) | Stop(reason: StopReason)
  {
    /** The message the raised exception carries. */
    function Message(): string
      requires !Continue?
    {
      match this
      case Retry(_) => "Retrying with new data"
      case Stop(CancelledByUser) => "Cancelled by user"
      case Stop(TooManyRetries) => "Too many retries"
    }

    /** The agent_message the raised exception hands back to the agent. */
    function AgentMessage(): string
      requires !Continue?
    {
      match this
      case Retry(_) => "Let me try again!"
      case Stop(CancelledByUser) => "I don't have any tool calls to make."
      case Stop(TooManyRetries) => "Stopped after several retries."
    }
  }

  /** The gate's outcome together with the retry count it leaves behind. */
  datatype Decision = Decision(outcome: Outcome, count: nat)

  /** The three answers the gate tells apart, after normalising. */
  datatype Choice = Yes | No | RetryRequest

  /** Reads the raw answer as the gate does: `answer.strip().lower()` is
      compared with "n" and then with "retry"; anything else, the default
      "y" included, is a yes. */
  function Classify(answer: string): Choice
  {
    var choice := Normalize(answer);
    if choice == "n" then No
    else if choice == "retry" then RetryRequest
    else Yes
  }

  /** One pass through the gate, from the retry count before it and the
      user's choice. */
  function Decide(count: nat, choice: Choice): (d: Decision)
    // "n" stops the run and leaves the counter alone
    ensures d.outcome == Stop(CancelledByUser) <==> choice == No
    ensures choice == No ==> d.count == count
    // "retry" first bumps the counter by one, then compares it to the limit
    ensures choice == RetryRequest ==> d.count == count + 1
    ensures d.outcome == Stop(TooManyRetries) <==> choice == RetryRequest && count + 1 >= MaxRetries
    ensures d.outcome.Retry? <==> choice == RetryRequest && count + 1 < MaxRetries
    // a retry reports "Attempt k of MaxRetries" with k the new count
    ensures d.outcome.Retry? ==> d.outcome.attempt == d.count && 1 <= d.count < MaxRetries
    // every other answer lets the tool run and clears the counter
    ensures d.outcome == Continue <==> choice == Yes
    ensures d.outcome == Continue ==> d.count == 0
  {
    match choice
    case No => Decision(Stop(CancelledByUser), count)
    case RetryRequest =>
      var c := count + 1;
      if c >= MaxRetries then Decision(Stop(TooManyRetries), c)
      else Decision(Retry(c), c)
    case Yes => Decision(Continue, 0)
  }

  function Last<T>(s: seq<T>): T
    requires s != []
  {
    s[|s| - 1]
  }

  /** The outcomes of the gate calls of one agent run, and the count left. */
  datatype Trace = Trace(outcomes: seq<Outcome>, count: nat)

  /** One agent run as the gate sees it: the user's raw answers to the tool
      calls the agent makes, in order. StopAgentRun is modelled as ending the
      run, so no answer after a Stop is asked for; Continue and Retry let it
      go on. */
  function RunHooks(count: nat, answers: seq<string>): (t: Trace)
    ensures |t.outcomes| <= |answers|
    // a Stop can only be the last outcome of a run
    ensures forall i :: 0 <= i < |t.outcomes| - 1 ==> !t.outcomes[i].Stop?
    // the run ends before the answers run out only because of a Stop
    ensures |t.outcomes| < |answers| ==> t.outcomes != [] && Last(t.outcomes).Stop?
    ensures answers != [] ==> t.outcomes != []
    decreases |answers|
  {
    if answers == [] then Trace([], count)
    else
      var d := Decide(count, Classify(answers[0]));
      if d.outcome.Stop? then Trace([d.outcome], d.count)
      else
        var rest := RunHooks(d.count, answers[1..]);
        Trace([d.outcome] + rest.outcomes, rest.count)
  }

  /** The retries Retry(first), Retry(first + 1), ... of n attempts. */
  function Attempts(first: nat, n: nat): seq<Outcome>
    decreases n
  {
    if n == 0 then [] else [Retry(first)] + Attempts(first + 1, n - 1)
  }

  /** The gate reads the literal answer "retry" as a retry request. */
  lemma ClassifyRetry()
    ensures Classify("retry") == RetryRequest
  {
    NormalFixed("retry");
  }

  /** One "retry" at the front of a run: it stops the run when it brings the
      count to the limit, and otherwise reports the new count and goes on. */
  lemma RetryStep(count: nat, rest: seq<string>)
    ensures RunHooks(count, ["retry"] + rest)
         == if count + 1 >= MaxRetries then Trace([Stop(TooManyRetries)], count + 1)
            else Trace([Retry(count + 1)] + RunHooks(count + 1, rest).outcomes,
                       RunHooks(count + 1, rest).count)
  {
    ClassifyRetry();
    assert (["retry"] + rest)[0] == "retry";
    assert (["retry"] + rest)[1..] == rest;
  }

  /** Retries in a row from a count below the limit: each reports the next
      attempt number, and the one that reaches MaxRetries stops the run. */
  lemma {:induction false} ConsecutiveRetries(count: nat, answers: seq<string>)
    requires count < MaxRetries
    requires forall i :: 0 <= i < |answers| ==> answers[i] == "retry"
    ensures var t := RunHooks(count, answers);
      if count + |answers| < MaxRetries then
        t == Trace(Attempts(count + 1, |answers|), count + |answers|)
      else
        t == Trace(Attempts(count + 1, MaxRetries - 1 - count) + [Stop(TooManyRetries)], MaxRetries)
    decreases |answers|
  {
    if answers != [] {
      var tail := answers[1..];
      assert answers == ["retry"] + tail;
      RetryStep(count, tail);
      if count + 1 < MaxRetries {
        ConsecutiveRetries(count + 1, tail);
        if count + |answers| >= MaxRetries {
          var k := MaxRetries - 1 - (count + 1);
          assert [Retry(count + 1)] + (Attempts(count + 2, k) + [Stop(TooManyRetries)])
              == Attempts(count + 1, k + 1) + [Stop(TooManyRetries)];
        }
      } else {
        assert Attempts(count + 1, 0) == [];
      }
    }
  }

  /** From a fresh counter, the first two retries report attempts 1 and 2 and
      the third stops the run for too many retries. */
  lemma ThirdRetryStops()
    ensures RunHooks(0, ["retry", "retry", "retry"])
         == Trace([Retry(1), Retry(2), Stop(TooManyRetries)], 3)
  {
    ConsecutiveRetries(0, ["retry", "retry", "retry"]);
    assert Attempts(1, 2) == [Retry(1), Retry(2)] by {
      assert Attempts(3, 0) == [];
    }
  }

  /** Throughout a run that starts below the limit, every reported attempt
      lies in 1..MaxRetries-1, the count never exceeds MaxRetries,
      and the count is left at MaxRetries only by a too-many-retries stop. */
  lemma {:induction false} RunStaysBounded(count: nat, answers: seq<string>)
    requires count < MaxRetries
    ensures var t := RunHooks(count, answers);
      && (forall i :: 0 <= i < |t.outcomes| && t.outcomes[i].Retry? ==>
            1 <= t.outcomes[i].attempt < MaxRetries)
      && t.count <= MaxRetries
      && (t.count == MaxRetries <==> t.outcomes != [] && Last(t.outcomes) == Stop(TooManyRetries))
    decreases |answers|
  {
    if answers != [] {
      var d := Decide(count, Classify(answers[0]));
      if !d.outcome.Stop? {
        RunStaysBounded(d.count, answers[1..]);
        var rest := RunHooks(d.count, answers[1..]);
        var t := RunHooks(count, answers);
        assert t.outcomes == [d.outcome] + rest.outcomes;
        assert rest.outcomes != [] ==> Last(t.outcomes) == Last(rest.outcomes);
      }
    }
  }

  /** The gate compares the answer only after strip(): white space added
      around an answer has no effect. */
  lemma AnswerPaddingIgnored(pre: string, answer: string, post: string)
    requires AllSpace(pre) && AllSpace(post)
    ensures Classify(pre + answer + post) == Classify(answer)
  {
    StripAbsorbsPadding(pre, answer, post);
  }

  /** The gate compares the answer only after lower(): answers that differ
      only in the case of their letters have the same effect. */
  lemma AnswerCaseIgnored(a: string, b: string)
    requires Lower(a) == Lower(b)
    ensures Classify(a) == Classify(b)
  {
    NormalizeIgnoresCase(a, b);
  }

  /** Examples: a padded capital "N" cancels, "RETRY" retries (and, from a
      count of 2, stops the run), and the prompt's default answer "y" lets the
      tool run. */
  lemma GateExamples(count: nat)
    ensures Decide(count, Classify(" N\n")) == Decision(Stop(CancelledByUser), count)
    ensures Decide(0, Classify("RETRY")) == Decision(Retry(1), 1)
    ensures Decide(count, Classify("y")) == Decision(Continue, 0)
    // the exception each stop or retry raises, with the texts it carries
    ensures Decide(count, Classify(" N\n")).outcome.Message() == "Cancelled by user"
    ensures Decide(count, Classify(" N\n")).outcome.AgentMessage() == "I don't have any tool calls to make."
    ensures Decide(0, Classify("RETRY")).outcome.AgentMessage() == "Let me try again!"
    ensures Decide(2, Classify("RETRY")).outcome.Message() == "Too many retries"
  {
    NormalizePadded(" ", "N", "\n");
    assert " " + "N" + "\n" == " N\n";
    assert Lower("N") == "n";
    NormalizePadded([], "RETRY", []);
    assert [] + "RETRY" + [] == "RETRY";
    assert Lower("RETRY") == "retry";
    NormalFixed("y");
  }

  /** The module-level retry counter shared by the three tools' pre-hook. */
  class Gate {
    var count: nat

    /** The counter starts at zero when the program loads. */
    constructor ()
      ensures count == 0
    {
      count := 0;
    }

    /** The pre-hook: normalise the user's answer, then decide. */
    method Ask(answer: string) returns (o: Outcome)
      modifies this
      ensures Decision(o, count) == Decide(old(count), Classify(answer))
    {
      var choice := Normalize(answer);
      if choice == "n" {
        return Stop(CancelledByUser);
      }
      if choice == "retry" {
        count := count + 1;
        if count >= MaxRetries {
          return Stop(TooManyRetries);
        }
        return Retry(count);
      }
      count := 0;
      o := Continue;
    }

    /** The main loop clears the counter before each agent run. */
    method ResetForRun()
      modifies this
      ensures count == 0
    {
      count := 0;
    }

    /** One agent run: the gate is asked once per tool call until a Stop ends
        the run or the agent makes no further call. */
    method RunAgent(answers: seq<string>) returns (outcomes: seq<Outcome>)
      modifies this
      ensures Trace(outcomes, count) == RunHooks(old(count), answers)
    {
      ghost var whole := RunHooks(count, answers);
      outcomes := [];
      var i := 0;
      while i < |answers|
        invariant 0 <= i <= |answers|
        invariant whole == Trace(outcomes + RunHooks(count, answers[i..]).outcomes,
                                 RunHooks(count, answers[i..]).count)
      {
        assert answers[i..][0] == answers[i] && answers[i..][1..] == answers[i + 1..];
        var o := Ask(answers[i]);
        outcomes := outcomes + [o];
        if o.Stop? {
          assert whole == Trace(outcomes, count);
          return;
        }
        i := i + 1;
      }
      assert answers[i..] == [];
      assert outcomes + [] == outcomes;
    }

    /** The main loop: before every agent run the counter goes back to zero,
        so each run's outcomes depend on its own answers only, whatever the
        previous run left behind. */
    method Serve(runs: seq<seq<string>>) returns (log: seq<seq<Outcome>>)
      modifies this
      ensures |log| == |runs|
      ensures forall k :: 0 <= k < |runs| ==> log[k] == RunHooks(0, runs[k]).outcomes
      ensures runs != [] ==> count == RunHooks(0, Last(runs)).count
      ensures runs == [] ==> count == old(count)
    {
      log := [];
      var k := 0;
      while k < |runs|
        invariant 0 <= k <= |runs|
        invariant |log| == k
        invariant forall j :: 0 <= j < k ==> log[j] == RunHooks(0, runs[j]).outcomes
        invariant k > 0 ==> count == RunHooks(0, runs[k - 1]).count
        invariant k == 0 ==> count == old(count)
      {
        ResetForRun();
        var outcomes := RunAgent(runs[k]);
        ghost var t := RunHooks(0, runs[k]);
        assert outcomes == t.outcomes && count == t.count;
        log := log + [outcomes];
        k := k + 1;
      }
    }
  }
}
