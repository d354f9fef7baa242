/**
 * The per-step executor of the live-view browser sample: every instruction is
 * sent to the remote agent with an outer budget of three attempts, and a
 * human-verification error opens a wait-and-ask loop of up to eight rounds.
 *
 * The remote agent is a script of replies, one per call of `act`, consumed in
 * call order (step instructions and CAPTCHA questions alike). Sleeps are
 * recorded as events in a trace instead of being performed. The source's loop
 * need not terminate (a challenge that keeps being raised and cleared retries
 * the same step forever), so the script's length is what bounds a run: when it
 * is used up the run stops where it stands.
 */
module StepExecutor {
  import opened Wrappers
  import opened HumanValidation

  const MaxRetries: nat := 3
  const MaxCaptchaWaitAttempts: nat := 8
  /** Seconds slept before each CAPTCHA question. */
  const CaptchaWait: nat := 10
  /** Seconds slept after an ordinary failure or a failed CAPTCHA question. */
  const ErrorWait: nat := 5
  const CaptchaQuestion: string := "Is there a captcha on the screen?"

  /** What `act` returns when it does not raise. */
  datatype ActResult = ActResult(response: string, matchesSchema: bool, parsedResponse: bool)

  /** What `act` raises: the agent's own error type, or anything else. */
  datatype Failure = ActAgentError(err: ErrValue) | OtherException(description: string)

  /** One reply of the remote agent to one call of `act`. */
  datatype Reply = Returned(value: ActResult) | Raised(failure: Failure)

  /** What the executor does, in order. */
  datatype Event =
    | StepAct(index: nat, instruction: string, reply: Reply)
    | CaptchaQuery(reply: Reply)
    | Sleep(seconds: nat)

  /** Where the executor stands inside one step. */
  datatype Phase = Acting | AwaitingCaptcha(attempts: nat)

  /**
   * The executor's state between two calls of `act`: the step being run, its
   * `retry_count`, the phase, `result`, the trace so far and the final
   * `retry_count` of every step already left.
   */
  datatype State = State(
    step: nat,
    retryCount: nat,
    phase: Phase,
    result: Option<ActResult>,
    trace: seq<Event>,
    retries: seq<nat>)

  /** The reply that tells the CAPTCHA loop the challenge is gone. */
  predicate Cleared(r: Reply)
  {
    r.Returned? && r.value.matchesSchema && !r.value.parsedResponse
  }

  /** The reply that opens the CAPTCHA loop. */
  predicate SignalsHumanValidation(r: Reply)
  {
    r.Raised? && r.failure.ActAgentError? && ContainsHumanValidationError(r.failure.err)
  }

  function Init(): State
  {
    State(0, 0, Acting, None, [], [])
  }

  /** Leave the current step and start the next one with a fresh budget. */
  function EndStep(s: State): State
  {
    s.(step := s.step + 1, retryCount := 0, phase := Acting, retries := s.retries + [s.retryCount])
  }

  /** Consume one attempt of the outer budget; an exhausted step is left. */
  function Charge(s: State): State
  {
    var t := s.(retryCount := s.retryCount + 1, phase := Acting);
    if t.retryCount >= MaxRetries then EndStep(t) else t
  }

  /** The executor's reaction to one reply of the remote agent. */
  function Next(steps: seq<string>, s: State, reply: Reply): State
    requires s.step < |steps|
  {
    match s.phase
    case Acting =>
      var t := s.(trace := s.trace + [StepAct(s.step, steps[s.step], reply)]);
      if reply.Returned? then EndStep(t.(result := Some(reply.value)))
      else if SignalsHumanValidation(reply) then t.(phase := AwaitingCaptcha(0))
      else Charge(t.(trace := t.trace + [Sleep(ErrorWait)]))
    case AwaitingCaptcha(a) =>
      var t := s.(trace := s.trace + QueryEvents(reply));
      if Cleared(reply) then t.(phase := Acting)
      else if a + 1 >= MaxCaptchaWaitAttempts then Charge(t)
      else t.(phase := AwaitingCaptcha(a + 1))
  }

  /** The events of one round of the CAPTCHA loop. */
  function QueryEvents(reply: Reply): seq<Event>
  {
    [Sleep(CaptchaWait), CaptchaQuery(reply)] + if reply.Raised? then [Sleep(ErrorWait)] else []
  }

  /** Feed the script to the executor until every step is left or the script is used up. */
  function Run(steps: seq<string>, s: State, script: seq<Reply>): (r: State)
    decreases |script|
  {
    if s.step >= |steps| || script == [] then s
    else Run(steps, Next(steps, s, script[0]), script[1..])
  }

  /**
   * A run only moves forward: it never returns to an earlier step, the trace
   * so far is kept as a prefix of the final one, and every reply consumed
   * adds at least one event, so a run that stops before the last step has
   * used up the whole script.
   */
  lemma {:induction false} RunExtends(steps: seq<string>, s: State, script: seq<Reply>)
    ensures s.step <= Run(steps, s, script).step
    ensures |s.trace| <= |Run(steps, s, script).trace| && Run(steps, s, script).trace[..|s.trace|] == s.trace
    ensures Run(steps, s, script).step < |steps| ==> |s.trace| + |script| <= |Run(steps, s, script).trace|
    decreases |script|
  {
    if s.step < |steps| && script != [] {
      var s1 := Next(steps, s, script[0]);
      NextAppends(steps, s, script[0]);
      RunExtends(steps, s1, script[1..]);
      var r := Run(steps, s1, script[1..]);
      assert r.trace[..|s.trace|] == r.trace[..|s1.trace|][..|s.trace|];
      assert s1.trace[..|s.trace|] == s.trace;
    }
  }

  lemma RunUnfold(steps: seq<string>, s: State, script: seq<Reply>, pos: nat)
    requires pos < |script| && s.step < |steps|
    ensures Run(steps, s, script[pos..]) == Run(steps, Next(steps, s, script[pos]), script[pos + 1..])
  {
    assert script[pos..][1..] == script[pos + 1..];
  }

  /**
   * `live_view_with_nova_act`'s step loop. `finished` is false when the
   * script ran out before the last step was left.
   */
  method LiveViewWithNovaAct(steps: seq<string>, script: seq<Reply>)
    returns (result: Option<ActResult>, trace: seq<Event>, retries: seq<nat>, finished: bool)
    ensures var f := Run(steps, Init(), script);
      result == f.result && trace == f.trace && retries == f.retries && finished == (f.step >= |steps|)
    ensures forall i :: 0 <= i < |retries| ==> retries[i] <= MaxRetries
    ensures result == LastStepPayload(trace)
    ensures finished ==> |retries| == |steps| && forall k :: 0 <= k < |steps| ==> Attempted(trace, k)
  {
    RunObservations(steps, script);
    result, trace, retries := None, [], [];
    var pos: nat := 0;
    for stepIndex := 0 to |steps|
      invariant pos <= |script|
      invariant Run(steps, Init(), script) == Run(steps, State(stepIndex, 0, Acting, result, trace, retries), script[pos..])
    {
      var retryCount, exhausted;
      ghost var reached;
      pos, result, trace, retryCount, exhausted, reached := ExecuteStep(steps, script, pos, stepIndex, result, trace, retries);
      if exhausted {
        finished := false;
        return;
      }
      retries := retries + [retryCount];
    }
    finished := true;
  }

  /**
   * The retry loop of one step, from its first attempt until it is left
   * (`retryCount` is then its final `retry_count`) or until the script runs
   * out (`exhausted`, with `reached` the state the run stops in).
   */
  method ExecuteStep(steps: seq<string>, script: seq<Reply>, pos0: nat, stepIndex: nat,
                     result0: Option<ActResult>, trace0: seq<Event>, retries: seq<nat>)
    returns (pos: nat, result: Option<ActResult>, trace: seq<Event>, retryCount: nat, exhausted: bool, ghost reached: State)
    requires pos0 <= |script| && stepIndex < |steps|
    ensures pos <= |script|
    ensures Run(steps, State(stepIndex, 0, Acting, result0, trace0, retries), script[pos0..]) == Run(steps, reached, script[pos..])
    ensures exhausted ==> pos == |script| && reached.step == stepIndex
    ensures exhausted ==> reached.result == result && reached.trace == trace && reached.retries == retries
    ensures !exhausted ==> reached == EndStep(State(stepIndex, retryCount, Acting, result, trace, retries))
  {
    pos, result, trace, retryCount, exhausted := pos0, result0, trace0, 0, false;
    while retryCount < MaxRetries
      invariant pos0 <= pos <= |script|
      invariant Run(steps, State(stepIndex, 0, Acting, result0, trace0, retries), script[pos0..])
             == Run(steps, StepState(stepIndex, retryCount, result, trace, retries), script[pos..])
      decreases |script| - pos
    {
      if pos == |script| {
        exhausted := true;
        reached := State(stepIndex, retryCount, Acting, result, trace, retries);
        return;
      }
      var left, attemptExhausted;
      ghost var attemptReached;
      pos, result, trace, retryCount, left, attemptExhausted, attemptReached :=
        AttemptStep(steps, script, pos, stepIndex, retryCount, result, trace, retries);
      if attemptExhausted {
        exhausted := true;
        reached := attemptReached;
        return;
      }
      if left {
        break;
      }
    }
    reached := EndStep(State(stepIndex, retryCount, Acting, result, trace, retries));
  }

  /**
   * One pass of the retry loop's body: the instruction is sent once, and a
   * human-verification error runs the CAPTCHA loop. `left` says the
   * instruction returned and the step is done.
   */
  method AttemptStep(steps: seq<string>, script: seq<Reply>, pos0: nat, stepIndex: nat, retryCount0: nat,
                     result0: Option<ActResult>, trace0: seq<Event>, retries: seq<nat>)
    returns (pos: nat, result: Option<ActResult>, trace: seq<Event>, retryCount: nat,
             left: bool, exhausted: bool, ghost reached: State)
    requires pos0 < |script| && stepIndex < |steps| && retryCount0 < MaxRetries
    ensures pos0 < pos <= |script|
    ensures Run(steps, State(stepIndex, retryCount0, Acting, result0, trace0, retries), script[pos0..])
         == Run(steps, reached, script[pos..])
    ensures exhausted ==> pos == |script| && reached.step == stepIndex
    ensures exhausted ==> reached.result == result && reached.trace == trace && reached.retries == retries
    ensures !exhausted && left ==> reached == EndStep(State(stepIndex, retryCount, Acting, result, trace, retries))
    ensures !exhausted && !left ==> reached == StepState(stepIndex, retryCount, result, trace, retries)
  {
    var reply := script[pos0];
    RunUnfold(steps, State(stepIndex, retryCount0, Acting, result0, trace0, retries), script, pos0);
    ActRound(steps, stepIndex, retryCount0, result0, trace0, retries, reply);
    pos, result, retryCount, left, exhausted := pos0 + 1, result0, retryCount0, false, false;
    trace := trace0 + [StepAct(stepIndex, steps[stepIndex], reply)];
    match reply
    case Returned(v) =>
      result := Some(v);
      left := true;
      reached := EndStep(State(stepIndex, retryCount, Acting, result, trace, retries));
    case Raised(ActAgentError(err)) =>
      if ContainsHumanValidationError(err) {
        var captchaWaitAttempts, captchaExhausted;
        captchaWaitAttempts, pos, trace, captchaExhausted := AwaitCaptcha(steps, script, pos, stepIndex, retryCount, result, trace, retries);
        if captchaExhausted {
          exhausted := true;
          reached := State(stepIndex, retryCount, AwaitingCaptcha(captchaWaitAttempts), result, trace, retries);
          return;
        }
        CaptchaOutcomeResumes(stepIndex, retryCount, captchaWaitAttempts, result, trace, retries);
        if captchaWaitAttempts >= MaxCaptchaWaitAttempts {
          retryCount := retryCount + 1;
        }
      } else {
        retryCount := retryCount + 1;
        trace := trace + [Sleep(ErrorWait)];
      }
      reached := StepState(stepIndex, retryCount, result, trace, retries);
    case Raised(OtherException(_)) =>
      retryCount := retryCount + 1;
      trace := trace + [Sleep(ErrorWait)];
      reached := StepState(stepIndex, retryCount, result, trace, retries);
  }

  /**
   * The CAPTCHA loop of one step: up to eight rounds of waiting and asking
   * whether the challenge is still on the screen. Ends early when the answer
   * says it is gone (`attempts` below the bound) or when the script runs out
   * (`exhausted`).
   */
  method AwaitCaptcha(steps: seq<string>, script: seq<Reply>, pos0: nat, stepIndex: nat, retryCount: nat,
                      result: Option<ActResult>, trace0: seq<Event>, retries: seq<nat>)
    returns (attempts: nat, pos: nat, trace: seq<Event>, exhausted: bool)
    requires pos0 <= |script| && stepIndex < |steps| && retryCount < MaxRetries
    ensures pos0 <= pos <= |script|
    ensures exhausted ==> pos == |script| && attempts < MaxCaptchaWaitAttempts
    ensures Run(steps, State(stepIndex, retryCount, AwaitingCaptcha(0), result, trace0, retries), script[pos0..])
         == Run(steps,
                if exhausted then State(stepIndex, retryCount, AwaitingCaptcha(attempts), result, trace, retries)
                else CaptchaOutcome(stepIndex, retryCount, attempts, result, trace, retries),
                script[pos..])
  {
    attempts, pos, trace, exhausted := 0, pos0, trace0, false;
    while attempts < MaxCaptchaWaitAttempts
      invariant pos0 <= pos <= |script|
      invariant Run(steps, State(stepIndex, retryCount, AwaitingCaptcha(0), result, trace0, retries), script[pos0..])
        == Run(steps, CaptchaState(stepIndex, retryCount, attempts, result, trace, retries), script[pos..])
    {
      if pos == |script| {
        exhausted := true;
        return;
      }
      var answer := script[pos];
      RunUnfold(steps, State(stepIndex, retryCount, AwaitingCaptcha(attempts), result, trace, retries), script, pos);
      CaptchaRound(steps, stepIndex, retryCount, attempts, result, trace, retries, answer);
      pos := pos + 1;
      trace := trace + [Sleep(CaptchaWait), CaptchaQuery(answer)];
      if answer.Returned? && answer.value.matchesSchema && !answer.value.parsedResponse {
        break;
      }
      attempts := attempts + 1;
      if answer.Raised? {
        trace := trace + [Sleep(ErrorWait)];
      }
    }
  }

  /** One attempt of a step instruction, as the machine sees it. */
  lemma ActRound(steps: seq<string>, step: nat, retryCount: nat,
                 result: Option<ActResult>, trace: seq<Event>, retries: seq<nat>, reply: Reply)
    requires step < |steps| && retryCount < MaxRetries
    ensures var t := trace + [StepAct(step, steps[step], reply)];
      Next(steps, State(step, retryCount, Acting, result, trace, retries), reply)
      == if reply.Returned? then EndStep(State(step, retryCount, Acting, Some(reply.value), t, retries))
         else if SignalsHumanValidation(reply) then State(step, retryCount, AwaitingCaptcha(0), result, t, retries)
         else StepState(step, retryCount + 1, result, t + [Sleep(ErrorWait)], retries)
  {
  }

  /** One round of the CAPTCHA loop, as the machine sees it. */
  lemma CaptchaRound(steps: seq<string>, step: nat, retryCount: nat, attempts: nat,
                     result: Option<ActResult>, trace: seq<Event>, retries: seq<nat>, answer: Reply)
    requires step < |steps| && attempts < MaxCaptchaWaitAttempts
    ensures Next(steps, State(step, retryCount, AwaitingCaptcha(attempts), result, trace, retries), answer)
         == if Cleared(answer) then State(step, retryCount, Acting, result, trace + QueryEvents(answer), retries)
            else CaptchaState(step, retryCount, attempts + 1, result, trace + QueryEvents(answer), retries)
    ensures answer.Raised? ==> trace + QueryEvents(answer) == trace + [Sleep(CaptchaWait), CaptchaQuery(answer)] + [Sleep(ErrorWait)]
    ensures answer.Returned? ==> trace + QueryEvents(answer) == trace + [Sleep(CaptchaWait), CaptchaQuery(answer)]
  {
  }

  /** The machine state that the outer retry loop's variables stand for. */
  function StepState(step: nat, retryCount: nat, result: Option<ActResult>, trace: seq<Event>, retries: seq<nat>): State
  {
    var s := State(step, retryCount, Acting, result, trace, retries);
    if retryCount < MaxRetries then s else EndStep(s)
  }

  /** The machine state after the CAPTCHA loop ended after `attempts` unanswered rounds. */
  function CaptchaOutcome(step: nat, retryCount: nat, attempts: nat, result: Option<ActResult>, trace: seq<Event>, retries: seq<nat>): State
  {
    var s := State(step, retryCount, Acting, result, trace, retries);
    if attempts < MaxCaptchaWaitAttempts then s else Charge(s)
  }

  /** After the CAPTCHA loop the retry loop resumes, charged one attempt if the loop timed out. */
  lemma CaptchaOutcomeResumes(step: nat, retryCount: nat, attempts: nat, result: Option<ActResult>, trace: seq<Event>, retries: seq<nat>)
    requires retryCount < MaxRetries
    ensures CaptchaOutcome(step, retryCount, attempts, result, trace, retries)
         == StepState(step, if attempts >= MaxCaptchaWaitAttempts then retryCount + 1 else retryCount, result, trace, retries)
  {
  }

  /** The machine state that the CAPTCHA loop's variables stand for. */
  function CaptchaState(step: nat, retryCount: nat, attempts: nat, result: Option<ActResult>, trace: seq<Event>, retries: seq<nat>): State
  {
    if attempts < MaxCaptchaWaitAttempts then State(step, retryCount, AwaitingCaptcha(attempts), result, trace, retries)
    else Charge(State(step, retryCount, Acting, result, trace, retries))
  }

  // ---------------------------------------------------------------------
  // Observations on traces

  /** The payload of the last step instruction that returned; CAPTCHA answers are skipped. */
  function LastStepPayload(t: seq<Event>): Option<ActResult>
  {
    if t == [] then None
    else if t[|t| - 1].StepAct? && t[|t| - 1].reply.Returned? then Some(t[|t| - 1].reply.value)
    else LastStepPayload(t[..|t| - 1])
  }

  /** No event of `u` is a step instruction that returned. */
  predicate NoStepPayload(u: seq<Event>)
  {
    forall i :: 0 <= i < |u| ==> !(u[i].StepAct? && u[i].reply.Returned?)
  }

  /** Step `k` was sent to the remote agent at least once. */
  ghost predicate Attempted(t: seq<Event>, k: nat)
  {
    exists i :: 0 <= i < |t| && t[i].StepAct? && t[i].index == k
  }

  /** Every step instruction in `t` is the instruction of its index, no later than step `bound`, in step order. */
  ghost predicate ActsInOrder(steps: seq<string>, t: seq<Event>, bound: nat)
  {
    && (forall i :: 0 <= i < |t| && t[i].StepAct? ==>
          t[i].index <= bound && t[i].index < |steps| && t[i].instruction == steps[t[i].index])
    && (forall i, j :: 0 <= i < j < |t| && t[i].StepAct? && t[j].StepAct? ==> t[i].index <= t[j].index)
  }

  /** The counters and lists of a state agree with each other and stay within their bounds. */
  ghost predicate Bounded(steps: seq<string>, s: State)
  {
    && s.step <= |steps|
    && |s.retries| == s.step
    && s.retryCount < MaxRetries
    && (s.phase.AwaitingCaptcha? ==> s.phase.attempts < MaxCaptchaWaitAttempts)
    && (forall i :: 0 <= i < |s.retries| ==> s.retries[i] <= MaxRetries)
  }

  /** Every step already left was sent, and so was the current one once it has failed or hit a challenge. */
  ghost predicate AttemptedSoFar(steps: seq<string>, s: State)
  {
    && (forall k :: 0 <= k < s.step ==> Attempted(s.trace, k))
    && (s.retryCount > 0 || s.phase.AwaitingCaptcha? ==> s.step < |steps| && Attempted(s.trace, s.step))
  }

  /** What holds of every state the executor reaches from `Init()`. */
  ghost predicate Sound(steps: seq<string>, s: State)
  {
    && Bounded(steps, s)
    && s.result == LastStepPayload(s.trace)
    && ActsInOrder(steps, s.trace, s.step)
    && AttemptedSoFar(steps, s)
  }

  /** The events one reply adds to the trace. */
  function NewEvents(steps: seq<string>, s: State, reply: Reply): seq<Event>
    requires s.step < |steps|
  {
    match s.phase
    case Acting =>
      [StepAct(s.step, steps[s.step], reply)] + if reply.Returned? || SignalsHumanValidation(reply) then [] else [Sleep(ErrorWait)]
    case AwaitingCaptcha(_) => QueryEvents(reply)
  }

  /**
   * What one reply does to the machine: it appends exactly that reply's
   * events to the trace, and the machine either stays on its step, keeping
   * `result` and the recorded retry counts and charging at most one attempt
   * (never the third), or moves to the next step with a fresh attempt. It
   * moves on either after an instruction that returned, recording the step's
   * retry count and setting `result` to the payload, or on the third charge,
   * recorded as three, with `result` unchanged.
   */
  lemma NextMoves(steps: seq<string>, s: State, reply: Reply)
    requires s.step < |steps|
    ensures Next(steps, s, reply).trace == s.trace + NewEvents(steps, s, reply)
    ensures Next(steps, s, reply).step == s.step || Next(steps, s, reply).step == s.step + 1
    ensures var r := Next(steps, s, reply);
      r.step == s.step ==> r.retries == s.retries && r.result == s.result
                           && (r.retryCount == s.retryCount || r.retryCount == s.retryCount + 1 < MaxRetries)
    ensures var r := Next(steps, s, reply);
      r.step != s.step ==> r.retryCount == 0 && r.phase.Acting?
    ensures var r := Next(steps, s, reply);
      r.step != s.step && s.phase.Acting? && reply.Returned? ==>
        r.result == Some(reply.value) && r.retries == s.retries + [s.retryCount]
    ensures var r := Next(steps, s, reply);
      r.step != s.step && !(s.phase.Acting? && reply.Returned?) ==>
        r.result == s.result && s.retryCount + 1 >= MaxRetries && r.retries == s.retries + [s.retryCount + 1]
  {
    NextAppends(steps, s, reply);
  }

  lemma NextAppends(steps: seq<string>, s: State, reply: Reply)
    requires s.step < |steps|
    ensures Next(steps, s, reply).trace == s.trace + NewEvents(steps, s, reply)
  {
  }

  lemma {:induction false} PayloadSkips(t: seq<Event>, u: seq<Event>)
    requires NoStepPayload(u)
    ensures LastStepPayload(t + u) == LastStepPayload(t)
    decreases |u|
  {
    if u == [] {
      assert t + u == t;
    } else {
      var u' := u[..|u| - 1];
      assert (t + u)[|t + u| - 1] == u[|u| - 1];
      assert (t + u)[..|t + u| - 1] == t + u';
      assert NoStepPayload(u') by {
        forall i | 0 <= i < |u'| ensures !(u'[i].StepAct? && u'[i].reply.Returned?) {
          assert u'[i] == u[i];
        }
      }
      PayloadSkips(t, u');
    }
  }

  lemma AttemptedGrows(t: seq<Event>, u: seq<Event>, k: nat)
    requires Attempted(t, k)
    ensures Attempted(t + u, k)
  {
    var i :| 0 <= i < |t| && t[i].StepAct? && t[i].index == k;
    assert (t + u)[i] == t[i];
  }

  lemma AttemptedNow(t: seq<Event>, e: Event, u: seq<Event>)
    requires e.StepAct?
    ensures Attempted(t + [e] + u, e.index)
  {
    assert (t + [e] + u)[|t|] == e;
  }

  /** The trace keeps its shape under one more reply. */
  lemma OrderGrows(steps: seq<string>, s: State, reply: Reply)
    requires s.step < |steps| && ActsInOrder(steps, s.trace, s.step)
    ensures ActsInOrder(steps, s.trace + NewEvents(steps, s, reply), s.step)
  {
    var t, u := s.trace, NewEvents(steps, s, reply);
    var t' := t + u;
    assert forall i :: |t| <= i < |t'| && t'[i].StepAct? ==> t'[i].index == s.step && t'[i].instruction == steps[s.step] by {
      forall i | |t| <= i < |t'| && t'[i].StepAct? ensures t'[i].index == s.step && t'[i].instruction == steps[s.step] {
        assert t'[i] == u[i - |t|];
      }
    }
    assert forall i :: 0 <= i < |t| ==> t'[i] == t[i];
  }

  lemma NextBounded(steps: seq<string>, s: State, reply: Reply)
    requires s.step < |steps| && Bounded(steps, s)
    ensures Bounded(steps, Next(steps, s, reply))
  {
  }

  lemma NextPayload(steps: seq<string>, s: State, reply: Reply)
    requires s.step < |steps| && s.result == LastStepPayload(s.trace)
    ensures Next(steps, s, reply).result == LastStepPayload(Next(steps, s, reply).trace)
  {
    var u := NewEvents(steps, s, reply);
    NextAppends(steps, s, reply);
    if s.phase.Acting? && reply.Returned? {
      assert (s.trace + u)[..|s.trace + u| - 1] == s.trace;
    } else {
      assert NoStepPayload(u);
      PayloadSkips(s.trace, u);
    }
  }

  lemma NextAttempted(steps: seq<string>, s: State, reply: Reply)
    requires s.step < |steps| && Bounded(steps, s) && AttemptedSoFar(steps, s)
    ensures AttemptedSoFar(steps, Next(steps, s, reply))
  {
    var s' := Next(steps, s, reply);
    var u := NewEvents(steps, s, reply);
    NextAppends(steps, s, reply);
    forall k | 0 <= k < s.step ensures Attempted(s'.trace, k) {
      AttemptedGrows(s.trace, u, k);
    }
    if s.phase.Acting? {
      AttemptedNow(s.trace, StepAct(s.step, steps[s.step], reply), u[1..]);
      assert s.trace + u == s.trace + [StepAct(s.step, steps[s.step], reply)] + u[1..];
    } else {
      AttemptedGrows(s.trace, u, s.step);
    }
  }

  /** One reply keeps the executor's invariant. */
  lemma NextSound(steps: seq<string>, s: State, reply: Reply)
    requires s.step < |steps| && Sound(steps, s)
    ensures Sound(steps, Next(steps, s, reply))
  {
    NextAppends(steps, s, reply);
    NextBounded(steps, s, reply);
    NextPayload(steps, s, reply);
    NextAttempted(steps, s, reply);
    OrderGrows(steps, s, reply);
  }

  /** Every state a run reaches from a sound state is sound. */
  lemma {:induction false} RunSound(steps: seq<string>, s: State, script: seq<Reply>)
    requires Sound(steps, s)
    ensures Sound(steps, Run(steps, s, script))
    decreases |script|
  {
    if s.step < |steps| && script != [] {
      NextSound(steps, s, script[0]);
      RunSound(steps, Next(steps, s, script[0]), script[1..]);
    }
  }

  /**
   * What the caller of the executor observes: no step ends with more than
   * three attempts charged, `result` is the payload of the last step
   * instruction that returned (None if none did; CAPTCHA answers never set
   * it), step instructions are sent in step order, and a run that is not cut
   * short by the script has left every step after sending it at least once.
   */
  lemma RunObservations(steps: seq<string>, script: seq<Reply>)
    ensures var f := Run(steps, Init(), script);
      && (forall i :: 0 <= i < |f.retries| ==> f.retries[i] <= MaxRetries)
      && f.result == LastStepPayload(f.trace)
      && ActsInOrder(steps, f.trace, f.step)
      && (f.step >= |steps| ==> |f.retries| == |steps| && forall k :: 0 <= k < |steps| ==> Attempted(f.trace, k))
  {
    RunSound(steps, Init(), script);
  }

  // ---------------------------------------------------------------------
  // One reply at a time

  /** An instruction that returns on its first attempt leaves the step charged nothing and without a sleep. */
  lemma FirstAttemptSucceeds(steps: seq<string>, s: State, v: ActResult)
    requires s.step < |steps| && s.phase.Acting? && s.retryCount == 0
    ensures var s' := Next(steps, s, Returned(v));
      && s'.step == s.step + 1 && s'.retries == s.retries + [0] && s'.result == Some(v)
      && s'.trace == s.trace + [StepAct(s.step, steps[s.step], Returned(v))]
  {
  }

  /**
   * Any failure other than a human-verification error charges exactly one
   * attempt and sleeps once for five seconds, without entering the CAPTCHA
   * loop; the third such charge leaves the step.
   */
  lemma OrdinaryFailureCharges(steps: seq<string>, s: State, reply: Reply)
    requires s.step < |steps| && s.phase.Acting? && s.retryCount < MaxRetries
    requires reply.Raised? && !SignalsHumanValidation(reply)
    ensures var s' := Next(steps, s, reply);
      && s'.phase.Acting?
      && s'.trace == s.trace + [StepAct(s.step, steps[s.step], reply), Sleep(ErrorWait)]
      && (s.retryCount + 1 < MaxRetries ==> s'.step == s.step && s'.retryCount == s.retryCount + 1)
      && (s.retryCount + 1 == MaxRetries ==> s'.step == s.step + 1 && s'.retries == s.retries + [MaxRetries])
  {
  }

  /** An exception other than the agent's own error type never opens the CAPTCHA loop. */
  lemma OtherExceptionNeverWaits(steps: seq<string>, s: State, description: string)
    requires s.step < |steps| && s.phase.Acting?
    ensures !Next(steps, s, Raised(OtherException(description))).phase.AwaitingCaptcha?
  {
  }

  /** A human-verification error opens the CAPTCHA loop and charges nothing yet. */
  lemma ValidationErrorWaits(steps: seq<string>, s: State, reply: Reply)
    requires s.step < |steps| && s.phase.Acting? && SignalsHumanValidation(reply)
    ensures var s' := Next(steps, s, reply);
      s'.phase == AwaitingCaptcha(0) && s'.step == s.step && s'.retryCount == s.retryCount
  {
  }

  /** A cleared challenge sends the same step again with its attempts unchanged. */
  lemma ClearedChallengeIsFree(steps: seq<string>, s: State, reply: Reply)
    requires s.step < |steps| && s.phase.AwaitingCaptcha? && Cleared(reply)
    ensures var s' := Next(steps, s, reply);
      s'.phase == Acting && s'.step == s.step && s'.retryCount == s.retryCount && s'.result == s.result
  {
  }

  /** Every round of the CAPTCHA loop first sleeps ten seconds; a question that raises adds five more. */
  lemma CaptchaRoundSleeps(steps: seq<string>, s: State, reply: Reply)
    requires s.step < |steps| && s.phase.AwaitingCaptcha?
    ensures Next(steps, s, reply).trace ==
      s.trace + [Sleep(CaptchaWait), CaptchaQuery(reply)] + (if reply.Raised? then [Sleep(ErrorWait)] else [])
  {
  }

  // ---------------------------------------------------------------------
  // Whole runs

  /** The events of a sequence of CAPTCHA rounds. */
  function Rounds(q: seq<Reply>): seq<Event>
  {
    if q == [] then [] else QueryEvents(q[0]) + Rounds(q[1..])
  }

  /**
   * A CAPTCHA loop whose every remaining round fails to clear the challenge
   * ends by charging the step's budget exactly once.
   */
  lemma {:induction false} CaptchaTimeoutChargesOnce(steps: seq<string>, s: State, q: seq<Reply>)
    requires s.step < |steps| && s.phase.AwaitingCaptcha?
    requires s.phase.attempts + |q| == MaxCaptchaWaitAttempts && q != []
    requires forall i :: 0 <= i < |q| ==> !Cleared(q[i])
    ensures Run(steps, s, q) == Charge(s.(trace := s.trace + Rounds(q)))
    decreases |q|
  {
    var t := Next(steps, s, q[0]);
    assert Rounds(q) == QueryEvents(q[0]) + Rounds(q[1..]);
    if |q| == 1 {
      assert Rounds(q[1..]) == [];
      assert s.trace + Rounds(q) == s.trace + QueryEvents(q[0]);
    } else {
      CaptchaTimeoutChargesOnce(steps, t, q[1..]);
      assert s.trace + QueryEvents(q[0]) + Rounds(q[1..]) == s.trace + Rounds(q);
    }
  }

  /** A fresh CAPTCHA loop answered eight times with "still there" (or errors) costs one attempt. */
  lemma EightUnclearedRoundsCostOneAttempt(steps: seq<string>, s: State, q: seq<Reply>)
    requires s.step < |steps| && s.phase == AwaitingCaptcha(0) && s.retryCount < MaxRetries
    requires |q| == MaxCaptchaWaitAttempts && forall i :: 0 <= i < |q| ==> !Cleared(q[i])
    ensures var f := Run(steps, s, q);
      && f.phase == Acting
      && (s.retryCount + 1 < MaxRetries ==> f.step == s.step && f.retryCount == s.retryCount + 1)
      && (s.retryCount + 1 == MaxRetries ==> f.step == s.step + 1 && f.retries == s.retries + [MaxRetries])
  {
    CaptchaTimeoutChargesOnce(steps, s, q);
  }

  /** A challenge that is raised and then cleared returns to the same step with nothing charged. */
  lemma ChallengeThenClear(steps: seq<string>, s: State, challenge: Reply, clear: Reply)
    requires s.step < |steps| && s.phase.Acting? && SignalsHumanValidation(challenge) && Cleared(clear)
    ensures Next(steps, s, challenge)
         == State(s.step, s.retryCount, AwaitingCaptcha(0), s.result, s.trace + [StepAct(s.step, steps[s.step], challenge)], s.retries)
    ensures Next(steps, Next(steps, s, challenge), clear)
         == s.(trace := s.trace + [StepAct(s.step, steps[s.step], challenge), Sleep(CaptchaWait), CaptchaQuery(clear)])
    ensures Run(steps, s, [challenge, clear])
         == s.(trace := s.trace + [StepAct(s.step, steps[s.step], challenge), Sleep(CaptchaWait), CaptchaQuery(clear)])
  {
    var t1 := s.trace + [StepAct(s.step, steps[s.step], challenge)];
    CaptchaRound(steps, s.step, s.retryCount, 0, s.result, t1, s.retries, clear);
    assert t1 + QueryEvents(clear)
        == s.trace + [StepAct(s.step, steps[s.step], challenge), Sleep(CaptchaWait), CaptchaQuery(clear)];
    RunTwo(steps, s, challenge, clear, []);
    assert [challenge, clear] + [] == [challenge, clear];
  }

  /** No event of `t` is a sleep. */
  predicate NoSleep(t: seq<Event>)
  {
    forall i :: 0 <= i < |t| ==> !t[i].Sleep?
  }

  /**
   * When every instruction returns at once, every step is left with no
   * attempt charged, nothing sleeps, and `result` is the last step's payload.
   */
  lemma {:induction false} AllStepsSucceedAtOnce(steps: seq<string>, s: State, script: seq<Reply>)
    requires s.step <= |steps| && s.phase.Acting? && s.retryCount == 0
    requires |steps| - s.step <= |script|
    requires forall i :: 0 <= i < |steps| - s.step ==> script[i].Returned?
    requires NoSleep(s.trace) && forall i :: 0 <= i < |s.retries| ==> s.retries[i] == 0
    ensures var f := Run(steps, s, script);
      && f.step == |steps|
      && (forall i :: 0 <= i < |f.retries| ==> f.retries[i] == 0)
      && NoSleep(f.trace)
      && f.result == if s.step < |steps| then Some(script[|steps| - s.step - 1].value) else s.result
    decreases |steps| - s.step
  {
    if s.step < |steps| {
      var t := Next(steps, s, script[0]);
      assert NoSleep(t.trace) by {
        assert forall i :: 0 <= i < |s.trace| ==> t.trace[i] == s.trace[i];
      }
      assert forall i :: 0 <= i < |t.retries| ==> t.retries[i] == 0 by {
        assert forall i :: 0 <= i < |s.retries| ==> t.retries[i] == s.retries[i];
      }
      AllStepsSucceedAtOnce(steps, t, script[1..]);
    }
  }

  /** Two replies that leave the executor on its step are consumed one after the other. */
  lemma RunTwo(steps: seq<string>, s: State, a: Reply, b: Reply, rest: seq<Reply>)
    requires s.step < |steps| && Next(steps, s, a).step < |steps|
    ensures Run(steps, s, [a, b] + rest) == Run(steps, Next(steps, Next(steps, s, a), b), rest)
  {
    assert ([a, b] + rest)[1..] == [b] + rest;
    assert ([b] + rest)[1..] == rest;
  }

  /** The bare marker, raised by the agent, opens the CAPTCHA loop. */
  lemma MarkerSignals()
    ensures SignalsHumanValidation(Raised(ActAgentError(Str(Marker))))
  {
    assert "" + Marker + "" == Marker;
    MentioningMarker("", "");
  }

  /** A challenge that is raised and cleared `m` times over. */
  function RaisedAndCleared(m: nat): (r: seq<Reply>)
    ensures |r| == 2 * m
  {
    if m == 0 then []
    else [Raised(ActAgentError(Str(Marker))), Returned(ActResult("", true, false))] + RaisedAndCleared(m - 1)
  }

  /**
   * The outer retry loop need not terminate: however long the script, a
   * challenge that keeps being raised and cleared keeps the executor on the
   * same step with the same `retry_count`.
   */
  lemma {:induction false} ChallengeLoopCanRunForever(steps: seq<string>, s: State, m: nat)
    requires s.step < |steps| && s.phase.Acting?
    ensures var f := Run(steps, s, RaisedAndCleared(m));
      f.step == s.step && f.retryCount == s.retryCount && f.phase.Acting?
    decreases m
  {
    if m > 0 {
      var challenge, clear := Raised(ActAgentError(Str(Marker))), Returned(ActResult("", true, false));
      MarkerSignals();
      ChallengeThenClear(steps, s, challenge, clear);
      var rest := RaisedAndCleared(m - 1);
      var s2 := Next(steps, Next(steps, s, challenge), clear);
      RunTwo(steps, s, challenge, clear, rest);
      ChallengeLoopCanRunForever(steps, s2, m - 1);
    }
  }
}
