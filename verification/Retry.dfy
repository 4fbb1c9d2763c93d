/** The retry loops of the NATS dispatcher and their backoff arithmetic. */
module Retrying {
  import opened Graphs

  const U64: nat := 0x1_0000_0000_0000_0000
  const TWO_32: nat := 0x1_0000_0000
  const MAX_EXPRESSION_DELAY: nat := 60_000

  type Payload = string

  /** A parsed job result; `rejected` is why its signature does not verify, if it does not. */
  datatype JobResult = JobResult(
    success: bool,
    payloadSuccess: Option<bool>,
    error: Option<string>,
    text: string,
    diag: string,
    rejected: Option<string>)

  /** What one transport request comes to. */
  datatype Reply =
    | Answer(job: JobResult)
    | Garbled(error: string)
    | Undelivered(error: string)
    | TimedOut

  datatype RetryPolicy = RetryPolicy(
    maxRetries: nat,
    baseBackoff: nat,
    signs: bool,
    condition: Option<string>,
    delayExpression: Option<string>)

  /** The retry classifier and the expression evaluator. */
  datatype Evaluators = Evaluators(
    holds: (string, JobResult) -> Option<bool>,
    eval: (string, JobResult) -> Option<int>,
    classify: string -> string,
    isTransient: string -> bool)

  /** Everything outside the loop: the k-th reply, the clock's nanoseconds at the k-th sleep,
      and re-signing. */
  datatype World = World(
    reply: nat -> Reply,
    nanos: nat -> nat,
    resign: Payload -> Option<Payload>)

  datatype Action =
    | Request(payload: Payload)
    | Retrying(index: int)
    | RetrySkipped(class_: string)
    | Sleep(ms: nat)

  datatype Failure =
    | Unparsable(error: string)
    | BadSignature(error: string)
    | ConditionNotMet(error: string)
    | NonTransient(class_: string, error: string)
    | Exhausted(announced: bool, attempts: nat, error: string)
    | Late

  datatype Outcome = Completed(output: JobResult) | Failed(failure: Failure)

  /** What the loop makes of a reply. */
  datatype Verdict =
    | Done(output: JobResult)
    | GiveUp(failure: Failure, notes: seq<Action>)
    | Again(announced: bool, hint: Option<nat>, error: string)

  // ----- backoff -----

  function Pow2(n: nat): nat {
    if n == 0 then 1 else 2 * Pow2(n - 1)
  }

  /** `base.saturating_mul(2u64.pow(attempt - 1))`; the power wraps. */
  function Backoff(base: nat, attempt: nat): nat
    requires attempt >= 1
  {
    var product := base * (Pow2(attempt - 1) % U64);
    if product < U64 then product else U64 - 1
  }

  /** The backoff plus up to a quarter of it, chosen by the clock. */
  function Jittered(backoff: nat, nanos: nat): nat {
    var quarter := backoff / 4;
    (backoff + nanos % (if quarter > 1 then quarter else 1)) % U64
  }

  function Delay(p: RetryPolicy, world: World, attempt: nat, hint: Option<nat>): nat
    requires attempt >= 1
  {
    match hint
    case Some(ms) => ms
    case None => Jittered(Backoff(p.baseBackoff, attempt), world.nanos(attempt))
  }

  function AsI32(n: nat): int {
    var m := n % TWO_32;
    if m < TWO_32 / 2 then m else m - TWO_32
  }

  // ----- verdicts -----

  /** The judgement of `execute_job_with_retry`. */
  function JudgeJob(p: RetryPolicy, e: Evaluators, reply: Reply): Verdict {
    match reply
    case Garbled(error) => GiveUp(Unparsable(error), [])
    case TimedOut => GiveUp(Late, [])
    case Undelivered(error) => Again(false, None, error)
    case Answer(job) =>
      if p.signs && job.rejected.Some? then GiveUp(BadSignature(job.rejected.value), [])
      else if job.success && job.payloadSuccess != Some(false) then Done(job)
      else if p.condition.Some? && e.holds(p.condition.value, job) == Some(false) then
        GiveUp(ConditionNotMet(ErrorText(job)), [])
      else if p.condition.None? && p.maxRetries > 0 && !e.isTransient(Classified(e, job)) then
        GiveUp(NonTransient(Classified(e, job), ErrorOrEmpty(job)), [RetrySkipped(Classified(e, job))])
      else Again(true, DelayHint(p, e, job), ErrorText(job) + job.diag)
  }

  function JobJudge(p: RetryPolicy, e: Evaluators): Reply -> Verdict {
    reply => JudgeJob(p, e, reply)
  }

  function ErrorText(job: JobResult): string {
    if job.error.Some? then job.error.value else job.text
  }

  function ErrorOrEmpty(job: JobResult): string {
    if job.error.Some? then job.error.value else ""
  }

  function Classified(e: Evaluators, job: JobResult): string {
    e.classify(ErrorOrEmpty(job))
  }

  function DelayHint(p: RetryPolicy, e: Evaluators, job: JobResult): Option<nat> {
    if p.delayExpression.None? then None
    else match e.eval(p.delayExpression.value, job)
      case Some(ms) => if ms > 0 then Some(if ms < MAX_EXPRESSION_DELAY then ms else MAX_EXPRESSION_DELAY) else None
      case None => None
  }

  /** The judgement of `dispatch_with_retry`: any response is an answer. */
  function JudgeDelivery(reply: Reply): Verdict {
    match reply
    case Answer(job) => Done(job)
    case Garbled(text) => Done(JobResult(true, None, None, text, "", None))
    case Undelivered(error) => Again(false, None, error)
    case TimedOut => GiveUp(Late, [])
  }

  // ----- the loop, as a function -----

  function NextPayload(p: RetryPolicy, world: World, payload: Payload): Payload {
    if p.signs && world.resign(payload).Some? then world.resign(payload).value else payload
  }

  datatype Run = Run(outcome: Outcome, log: seq<Action>) {
    function After(before: seq<Action>): Run {
      Run(outcome, before + log)
    }
  }

  /** From the request numbered `attempts` on. */
  function Loop(p: RetryPolicy, judge: Reply -> Verdict, world: World, attempts: nat, payload: Payload): Run
    requires attempts <= p.maxRetries
    decreases p.maxRetries - attempts
  {
    match judge(world.reply(attempts))
    case Done(output) => Run(Completed(output), [Request(payload)])
    case GiveUp(failure, notes) => Run(Failed(failure), [Request(payload)] + notes)
    case Again(announced, hint, error) =>
      if attempts + 1 > p.maxRetries then
        Run(Failed(Exhausted(announced, attempts + 1, error)), [Request(payload)])
      else
        Loop(p, judge, world, attempts + 1, NextPayload(p, world, payload)).After(
          [Request(payload)] + Pause(p, world, attempts + 1, announced, hint))
  }

  /** What happens between two requests. */
  function Pause(p: RetryPolicy, world: World, attempt: nat, announced: bool, hint: Option<nat>): seq<Action>
    requires attempt >= 1
  {
    (if announced then [Retrying(AsI32(attempt))] else []) + [Sleep(Delay(p, world, attempt, hint))]
  }

  /** One turn of the loop. */
  lemma Turn(p: RetryPolicy, judge: Reply -> Verdict, world: World, attempts: nat, payload: Payload, log: seq<Action>)
    requires attempts <= p.maxRetries
    ensures var run := Loop(p, judge, world, attempts, payload).After(log);
            match judge(world.reply(attempts))
            case Done(output) => run == Run(Completed(output), log + [Request(payload)])
            case GiveUp(failure, notes) => run == Run(Failed(failure), log + [Request(payload)] + notes)
            case Again(announced, hint, error) =>
              if attempts + 1 > p.maxRetries then
                run == Run(Failed(Exhausted(announced, attempts + 1, error)), log + [Request(payload)])
              else
                run == Loop(p, judge, world, attempts + 1, NextPayload(p, world, payload)).After(
                         log + [Request(payload)] + Pause(p, world, attempts + 1, announced, hint))
  {
    match judge(world.reply(attempts))
    case Done(_) =>
    case GiveUp(_, notes) => assert log + ([Request(payload)] + notes) == log + [Request(payload)] + notes;
    case Again(announced, hint, _) =>
      if attempts + 1 <= p.maxRetries {
        var rest := Loop(p, judge, world, attempts + 1, NextPayload(p, world, payload)).log;
        var pause := Pause(p, world, attempts + 1, announced, hint);
        assert log + (([Request(payload)] + pause) + rest) == (log + [Request(payload)] + pause) + rest;
      }
  }

  // ----- the loops, as the dispatcher writes them -----

  /** With the largest 32-bit limit, one of the first 2^32 replies ends the loop. */
  ghost predicate Ends(p: RetryPolicy, judge: Reply -> Verdict, world: World, from: nat) {
    && p.maxRetries < TWO_32
    && (p.maxRetries == TWO_32 - 1 ==> exists k | from <= k < TWO_32 :: !judge(world.reply(k)).Again?)
  }

  method ExecuteJobWithRetry(p: RetryPolicy, e: Evaluators, world: World, payload: Payload)
    returns (outcome: Outcome, log: seq<Action>)
    requires Ends(p, JobJudge(p, e), world, 0)
    ensures Run(outcome, log) == Loop(p, JobJudge(p, e), world, 0, payload)
  {
    hide Loop, Delay, DelayHint;
    ghost var judge := JobJudge(p, e);
    var attempts, current := 0, payload;
    log := [];
    while true
      invariant attempts <= p.maxRetries && Ends(p, judge, world, attempts)
      invariant Loop(p, judge, world, 0, payload) == Loop(p, judge, world, attempts, current).After(log)
      decreases p.maxRetries - attempts
    {
      Turn(p, judge, world, attempts, current, log);
      log := log + [Request(current)];
      ghost var before := log;
      var announced, hint, error := false, None, "";
      match world.reply(attempts) {
        case Garbled(text) => return Failed(Unparsable(text)), log + [];
        case TimedOut => return Failed(Late), log + [];
        case Undelivered(text) => error := text;
        case Answer(job) =>
          if p.signs && job.rejected.Some? { return Failed(BadSignature(job.rejected.value)), log + []; }
          if job.success && job.payloadSuccess != Some(false) { return Completed(job), log; }
          if p.condition.Some? {
            if e.holds(p.condition.value, job) == Some(false) {
              return Failed(ConditionNotMet(ErrorText(job))), log + [];
            }
          } else if p.maxRetries > 0 {
            var class_ := e.classify(ErrorOrEmpty(job));
            if !e.isTransient(class_) {
              return Failed(NonTransient(class_, ErrorOrEmpty(job))), log + [RetrySkipped(class_)];
            }
          }
          announced, hint, error := true, DelayHint(p, e, job), ErrorText(job) + job.diag;
      }
      attempts := (attempts + 1) % TWO_32;
      if attempts > p.maxRetries { return Failed(Exhausted(announced, attempts, error)), log; }
      if announced { log := log + [Retrying(AsI32(attempts))]; }
      if p.signs {
        var signed := world.resign(current);
        if signed.Some? { current := signed.value; }
      }
      log := log + [Sleep(Delay(p, world, attempts, hint))];
      assert log == before + Pause(p, world, attempts, announced, hint);
    }
  }

  method DispatchWithRetry(p: RetryPolicy, world: World, payload: Payload)
    returns (outcome: Outcome, log: seq<Action>)
    requires Ends(p, JudgeDelivery, world, 0)
    ensures Run(outcome, log) == Loop(p, JudgeDelivery, world, 0, payload)
  {
    hide Loop, Delay;
    var attempts, current := 0, payload;
    log := [];
    while true
      invariant attempts <= p.maxRetries && Ends(p, JudgeDelivery, world, attempts)
      invariant Loop(p, JudgeDelivery, world, 0, payload) == Loop(p, JudgeDelivery, world, attempts, current).After(log)
      decreases p.maxRetries - attempts
    {
      Turn(p, JudgeDelivery, world, attempts, current, log);
      log := log + [Request(current)];
      match world.reply(attempts)
      case Answer(job) => return Completed(job), log;
      case Garbled(text) => return Completed(JobResult(true, None, None, text, "", None)), log;
      case TimedOut =>
        assert log + [] == log;
        return Failed(Late), log;
      case Undelivered(error) =>
        ghost var before := log;
        attempts := (attempts + 1) % TWO_32;
        if attempts > p.maxRetries { return Failed(Exhausted(false, attempts, error)), log; }
        if p.signs {
          var signed := world.resign(current);
          if signed.Some? { current := signed.value; }
        }
        log := log + [Sleep(Delay(p, world, attempts, None))];
        assert log == before + Pause(p, world, attempts, false, None);
    }
  }

  // ----- what a log shows -----

  function Requests(log: seq<Action>): nat {
    if log == [] then 0 else (if log[0].Request? then 1 else 0) + Requests(log[1..])
  }

  function TotalSleep(log: seq<Action>): nat {
    if log == [] then 0 else (if log[0].Sleep? then log[0].ms else 0) + TotalSleep(log[1..])
  }

  /** The indices of the `node_retrying` events, in order. */
  function Announced(log: seq<Action>): seq<int> {
    if log == [] then [] else (if log[0].Retrying? then [log[0].index] else []) + Announced(log[1..])
  }

  lemma {:induction false} RequestsAdd(a: seq<Action>, b: seq<Action>)
    ensures Requests(a + b) == Requests(a) + Requests(b)
  {
    if a == [] {
      assert a + b == b;
    } else {
      assert (a + b)[1..] == a[1..] + b;
      RequestsAdd(a[1..], b);
    }
  }

  lemma {:induction false} SleepAdds(a: seq<Action>, b: seq<Action>)
    ensures TotalSleep(a + b) == TotalSleep(a) + TotalSleep(b)
  {
    if a == [] {
      assert a + b == b;
    } else {
      assert (a + b)[1..] == a[1..] + b;
      SleepAdds(a[1..], b);
    }
  }

  lemma {:induction false} AnnouncedAdds(a: seq<Action>, b: seq<Action>)
    ensures Announced(a + b) == Announced(a) + Announced(b)
  {
    if a == [] {
      assert a + b == b;
    } else {
      assert (a + b)[1..] == a[1..] + b && (a + b)[0] == a[0];
      AnnouncedAdds(a[1..], b);
      var head := if a[0].Retrying? then [a[0].index] else [];
      assert Announced(a) == head + Announced(a[1..]) && Announced(a + b) == head + Announced(a[1..] + b);
      hide Announced;
      assert head + (Announced(a[1..]) + Announced(b)) == (head + Announced(a[1..])) + Announced(b);
    }
  }

  lemma LogsAdd(a: seq<Action>, b: seq<Action>)
    ensures Requests(a + b) == Requests(a) + Requests(b)
    ensures TotalSleep(a + b) == TotalSleep(a) + TotalSleep(b)
    ensures Announced(a + b) == Announced(a) + Announced(b)
  {
    RequestsAdd(a, b);
    SleepAdds(a, b);
    AnnouncedAdds(a, b);
  }

  /** Giving up neither requests nor sleeps nor announces a retry. */
  ghost predicate QuietlyGivesUp(judge: Reply -> Verdict) {
    forall reply :: judge(reply).GiveUp? ==>
      forall i | 0 <= i < |judge(reply).notes| :: judge(reply).notes[i].RetrySkipped?
  }

  lemma {:induction false} QuietNotes(notes: seq<Action>)
    requires forall i | 0 <= i < |notes| :: notes[i].RetrySkipped?
    ensures Requests(notes) == 0 && TotalSleep(notes) == 0 && Announced(notes) == []
  {
    if notes != [] {
      assert forall i | 0 <= i < |notes[1..]| :: notes[1..][i] == notes[i + 1];
      QuietNotes(notes[1..]);
    }
  }

  lemma OneAction(a: Action)
    ensures Requests([a]) == (if a.Request? then 1 else 0)
    ensures TotalSleep([a]) == (if a.Sleep? then a.ms else 0)
    ensures Announced([a]) == (if a.Retrying? then [a.index] else [])
  {
    assert [a][1..] == [];
  }

  lemma PauseShows(p: RetryPolicy, world: World, attempt: nat, payload: Payload, announced: bool, hint: Option<nat>)
    requires attempt >= 1
    ensures var log := [Request(payload)] + Pause(p, world, attempt, announced, hint);
            && Requests(log) == 1 && TotalSleep(log) == Delay(p, world, attempt, hint)
            && Announced(log) == if announced then [AsI32(attempt)] else []
  {
    hide Delay, Requests, TotalSleep, Announced;
    var sleep, retrying := Sleep(Delay(p, world, attempt, hint)), Retrying(AsI32(attempt));
    OneAction(Request(payload));
    OneAction(sleep);
    OneAction(retrying);
    LogsAdd([retrying], [sleep]);
    LogsAdd([Request(payload)], Pause(p, world, attempt, announced, hint));
    assert [] + [sleep] == [sleep];
  }

  /** What one turn contributes to the log. */
  lemma TurnShows(p: RetryPolicy, judge: Reply -> Verdict, world: World, attempts: nat, payload: Payload)
    requires attempts <= p.maxRetries && QuietlyGivesUp(judge)
    ensures var log, verdict := Loop(p, judge, world, attempts, payload).log, judge(world.reply(attempts));
            if verdict.Again? && attempts < p.maxRetries then
              var rest := Loop(p, judge, world, attempts + 1, NextPayload(p, world, payload)).log;
              && Requests(log) == 1 + Requests(rest)
              && TotalSleep(log) == Delay(p, world, attempts + 1, verdict.hint) + TotalSleep(rest)
              && Announced(log) == (if verdict.announced then [AsI32(attempts + 1)] else []) + Announced(rest)
            else Requests(log) == 1 && TotalSleep(log) == 0 && Announced(log) == []
  {
    hide Delay, Requests, TotalSleep, Announced;
    OneAction(Request(payload));
    match judge(world.reply(attempts))
    case Done(_) =>
    case GiveUp(_, notes) =>
      QuietNotes(notes);
      LogsAdd([Request(payload)], notes);
    case Again(announced, hint, _) =>
      if attempts < p.maxRetries {
        PauseShows(p, world, attempts + 1, payload, announced, hint);
        LogsAdd([Request(payload)] + Pause(p, world, attempts + 1, announced, hint),
                Loop(p, judge, world, attempts + 1, NextPayload(p, world, payload)).log);
      }
  }

  /** A request is followed by another only if its reply was judged worth it, and there are at
      most maxRetries + 1 of them. */
  lemma {:induction false} RequestsAreBounded(p: RetryPolicy, judge: Reply -> Verdict, world: World, attempts: nat,
        payload: Payload)
    requires attempts <= p.maxRetries && QuietlyGivesUp(judge)
    ensures var run := Loop(p, judge, world, attempts, payload);
            var n := Requests(run.log);
            && 1 <= n <= p.maxRetries + 1 - attempts
            && (forall k | attempts <= k < attempts + n - 1 :: judge(world.reply(k)).Again?)
            && (judge(world.reply(attempts + n - 1)).Again? ==> n == p.maxRetries + 1 - attempts)
            && (run.outcome.Completed? <==> judge(world.reply(attempts + n - 1)).Done?)
    decreases p.maxRetries - attempts
  {
    hide Requests, TotalSleep, Announced, QuietlyGivesUp, Delay, NextPayload;
    TurnShows(p, judge, world, attempts, payload);
    if judge(world.reply(attempts)).Again? && attempts < p.maxRetries {
      RequestsAreBounded(p, judge, world, attempts + 1, NextPayload(p, world, payload));
    }
  }

  // ----- the 32-bit counter -----

  datatype Progress = Waiting(attempts: nat) | Over

  /** The loop after n replies, by its wrapping counter. */
  function AfterReplies(p: RetryPolicy, judge: Reply -> Verdict, world: World, n: nat): Progress {
    if n == 0 then Waiting(0)
    else match AfterReplies(p, judge, world, n - 1)
      case Over => Over
      case Waiting(attempts) =>
        var next := (attempts + 1) % TWO_32;
        if judge(world.reply(n - 1)).Again? && next <= p.maxRetries then Waiting(next) else Over
  }

  /** As long as every reply is to be retried, the counter is the number of replies up to the
      limit, and the loop ends with the next one, unless the counter wraps there. */
  lemma {:induction false} RetriedReplies(p: RetryPolicy, judge: Reply -> Verdict, world: World, n: nat)
    requires n <= p.maxRetries + 1 < TWO_32 || n <= p.maxRetries < TWO_32
    requires forall k: nat | k < n :: judge(world.reply(k)).Again?
    ensures AfterReplies(p, judge, world, n) == if n <= p.maxRetries then Waiting(n) else Over
  {
    if n > 0 {
      RetriedReplies(p, judge, world, n - 1);
    }
  }

  /** The largest limit is never passed. */
  lemma {:induction false} WrapsForEver(p: RetryPolicy, judge: Reply -> Verdict, world: World, n: nat)
    requires p.maxRetries == TWO_32 - 1 && forall k: nat | k < n :: judge(world.reply(k)).Again?
    ensures AfterReplies(p, judge, world, n).Waiting?
  {
    if n > 0 {
      WrapsForEver(p, judge, world, n - 1);
    }
  }

  lemma {:induction false} OverStaysOver(p: RetryPolicy, judge: Reply -> Verdict, world: World, n: nat, m: nat)
    requires AfterReplies(p, judge, world, n).Over? && n <= m
    ensures AfterReplies(p, judge, world, m).Over?
    decreases m
  {
    if n < m { OverStaysOver(p, judge, world, n, m - 1); }
  }

  /** The loop ends with its last request, on the wrapping counter as well, if it ends at all. */
  lemma LoopIsOver(p: RetryPolicy, judge: Reply -> Verdict, world: World, payload: Payload, n: nat)
    requires Ends(p, judge, world, 0) && QuietlyGivesUp(judge)
    ensures AfterReplies(p, judge, world, n).Over? <==> n >= Requests(Loop(p, judge, world, 0, payload).log)
  {
    hide Requests, Loop, QuietlyGivesUp;
    var last := Requests(Loop(p, judge, world, 0, payload).log);
    RequestsAreBounded(p, judge, world, 0, payload);
    if n < last {
      RetriedReplies(p, judge, world, n);
    } else {
      RetriedReplies(p, judge, world, last - 1);
      OverStaysOver(p, judge, world, last, n);
    }
  }

  /** If every reply is to be retried, the loop ends exactly when the limit is not the largest
      32-bit number: the counter wraps before it can pass that one. */
  lemma LimitBindsIff(p: RetryPolicy, judge: Reply -> Verdict, world: World)
    requires p.maxRetries < TWO_32 && forall k: nat :: judge(world.reply(k)).Again?
    ensures (exists n: nat :: AfterReplies(p, judge, world, n).Over?) <==> p.maxRetries < TWO_32 - 1
  {
    if p.maxRetries < TWO_32 - 1 {
      RetriedReplies(p, judge, world, p.maxRetries + 1);
    } else {
      forall n: nat ensures AfterReplies(p, judge, world, n).Waiting? { WrapsForEver(p, judge, world, n); }
    }
  }

  // ----- announcements -----

  predicate Increasing(s: seq<int>) {
    forall i, j | 0 <= i < j < |s| :: s[i] < s[j]
  }

  /** The retry numbered j is announced. */
  predicate Aloud(judge: Reply -> Verdict, world: World, j: int) {
    j >= 1 && judge(world.reply(j - 1)).Again? && judge(world.reply(j - 1)).announced
  }

  /** `indices` are the announced retries from `first` to below `end`, in order. */
  ghost predicate Announces(judge: Reply -> Verdict, world: World, indices: seq<int>, first: nat, end: int) {
    && Increasing(indices)
    && forall j: int :: j in indices <==> first <= j < end && Aloud(judge, world, j)
  }

  lemma AnnouncesOneMore(judge: Reply -> Verdict, world: World, indices: seq<int>, first: nat, end: int)
    requires Announces(judge, world, indices, first + 1, end) && first < end
    ensures Announces(judge, world, (if Aloud(judge, world, first) then [first] else []) + indices, first, end)
  {
    hide Aloud;
    assert forall i | 0 <= i < |indices| :: indices[i] in indices;
  }

  function Wrapped(js: seq<int>): seq<int>
    requires forall i | 0 <= i < |js| :: js[i] >= 0
  {
    seq(|js|, i requires 0 <= i < |js| => AsI32(js[i]))
  }

  lemma WrappedCons(j: int, js: seq<int>, aloud: bool)
    requires j >= 0 && forall i | 0 <= i < |js| :: js[i] >= 0
    ensures Wrapped((if aloud then [j] else []) + js) == (if aloud then [AsI32(j)] else []) + Wrapped(js)
  {
  }

  /** The announced indices are the numbers of the announced retries, in order, as 32-bit signed
      integers. */
  lemma {:induction false} AnnouncedRetries(p: RetryPolicy, judge: Reply -> Verdict, world: World,
        attempts: nat, payload: Payload) returns (js: seq<int>)
    requires attempts <= p.maxRetries && QuietlyGivesUp(judge)
    ensures var log := Loop(p, judge, world, attempts, payload).log;
            && Requests(log) >= 1
            && Announces(judge, world, js, attempts + 1, attempts + Requests(log))
            && (forall i | 0 <= i < |js| :: js[i] >= 0) && Announced(log) == Wrapped(js)
    decreases p.maxRetries - attempts
  {
    hide Requests, TotalSleep, Announced, QuietlyGivesUp, Announces, Loop, Delay, NextPayload, Wrapped, AsI32;
    TurnShows(p, judge, world, attempts, payload);
    var verdict := judge(world.reply(attempts));
    if verdict.Again? && attempts < p.maxRetries {
      var payload' := NextPayload(p, world, payload);
      var rest := Loop(p, judge, world, attempts + 1, payload').log;
      var later := AnnouncedRetries(p, judge, world, attempts + 1, payload');
      js := (if verdict.announced then [attempts + 1] else []) + later;
      WrappedCons(attempts + 1, later, verdict.announced);
      AnnouncesOneMore(judge, world, later, attempts + 1, attempts + 1 + Requests(rest));
    } else {
      js := [];
      NothingWrapped();
      AnnouncesNone(judge, world, attempts + 1);
    }
  }

  lemma NothingWrapped()
    ensures Wrapped([]) == []
  {
  }

  /** Two retries are announced, on either side of the sign change. */
  predicate SignChanges(judge: Reply -> Verdict, world: World, n: int) {
    exists i, j | 1 <= i < TWO_32 / 2 <= j < n :: Aloud(judge, world, i) && Aloud(judge, world, j)
  }

  /** The announced indices increase strictly, exactly unless retries are announced on both sides
      of the 2^31-st, where the conversion to a signed integer turns negative.  Up to there they
      are the numbers of the announced retries. */
  lemma AnnouncementsIncrease(p: RetryPolicy, judge: Reply -> Verdict, world: World, payload: Payload)
    requires p.maxRetries < TWO_32 && QuietlyGivesUp(judge)
    ensures var log := Loop(p, judge, world, 0, payload).log;
            && (Increasing(Announced(log)) <==> !SignChanges(judge, world, Requests(log)))
            && (Requests(log) <= TWO_32 / 2 ==> Announces(judge, world, Announced(log), 1, Requests(log)))
  {
    hide Requests, Announced, QuietlyGivesUp, Loop;
    var n := Requests(Loop(p, judge, world, 0, payload).log);
    RequestsAreBounded(p, judge, world, 0, payload);
    var js := AnnouncedRetries(p, judge, world, 0, payload);
    WrappedIncreasesIff(judge, world, js, n);
    if n <= TWO_32 / 2 { UnwrappedBelow(judge, world, js, n); }
  }

  lemma UnwrappedBelow(judge: Reply -> Verdict, world: World, js: seq<int>, n: int)
    requires Announces(judge, world, js, 1, n) && n <= TWO_32 / 2 && forall i | 0 <= i < |js| :: js[i] >= 0
    ensures Wrapped(js) == js
  {
    assert forall i | 0 <= i < |js| :: js[i] in js;
  }

  lemma WrappedIncreasesIff(judge: Reply -> Verdict, world: World, js: seq<int>, n: int)
    requires Announces(judge, world, js, 1, n) && n <= TWO_32 && forall i | 0 <= i < |js| :: js[i] >= 0
    ensures Increasing(Wrapped(js)) <==> !SignChanges(judge, world, n)
  {
    if SignChanges(judge, world, n) {
      hide Aloud, AsI32;
      var a, b :| 1 <= a < TWO_32 / 2 <= b < n && Aloud(judge, world, a) && Aloud(judge, world, b);
      assert a in js && b in js;
      var i :| 0 <= i < |js| && js[i] == a;
      var j :| 0 <= j < |js| && js[j] == b;
      SignedOrder(a, b);
      assert i < j && Wrapped(js)[i] == AsI32(a) && Wrapped(js)[j] == AsI32(b);
    } else {
      hide Aloud, AsI32;
      forall i, j | 0 <= i < j < |js| ensures Wrapped(js)[i] < Wrapped(js)[j] {
        assert js[i] in js && js[j] in js;
        SignedOrder(js[i], js[j]);
      }
    }
  }

  lemma SignedOrder(a: nat, b: nat)
    requires a < b < TWO_32
    ensures AsI32(a) < AsI32(b) <==> !(a < TWO_32 / 2 <= b)
  {
  }

  lemma AnnouncesNone(judge: Reply -> Verdict, world: World, first: nat)
    ensures Announces(judge, world, [], first, first)
  {
  }

  // ----- how long it sleeps -----

  lemma {:induction false} Pow2Grows(a: nat, b: nat)
    requires a <= b
    ensures 1 <= Pow2(a) <= Pow2(b)
    decreases b
  {
    if a < b { Pow2Grows(a, b - 1); } else if a > 0 { Pow2Grows(a - 1, b - 1); }
  }

  lemma Pow2Of64()
    ensures Pow2(64) == U64
  {
    assert Pow2(4) == 16;
    Pow2Adds(4, 4);
    Pow2Adds(8, 8);
    Pow2Adds(16, 16);
    Pow2Adds(32, 32);
  }

  lemma {:induction false} Pow2Adds(a: nat, b: nat)
    ensures Pow2(a + b) == Pow2(a) * Pow2(b)
  {
    if b > 0 {
      Pow2Adds(a, b - 1);
    }
  }

  /** The backoff doubles with each attempt up to the largest 64-bit number, and covers its base
      exactly up to attempt 64: from then on the power of two has wrapped to zero, and so has it. */
  lemma BackoffCoversBaseIff(base: nat, attempt: nat)
    requires 1 <= base < U64 && attempt >= 1
    ensures Backoff(base, attempt) >= base <==> attempt <= 64
    ensures attempt > 64 ==> Backoff(base, attempt) == 0
    ensures attempt <= 64 ==>
              var doubled := base * Pow2(attempt - 1);
              Backoff(base, attempt) == if doubled <= 18_446_744_073_709_551_615 then doubled
                                        else 18_446_744_073_709_551_615
  {
    Pow2Of64();
    if attempt <= 64 {
      Pow2Grows(0, attempt - 1);
      assert Pow2(64) == 2 * Pow2(63);
      Pow2Grows(attempt - 1, 63);
      assert base * Pow2(attempt - 1) >= base by { Scale(base, 1, Pow2(attempt - 1)); }
    } else {
      Pow2Adds(attempt - 65, 64);
      MultipleVanishes(Pow2(attempt - 65));
    }
  }

  lemma Scale(base: nat, a: nat, b: nat)
    requires a <= b
    ensures base * a <= base * b
  {
  }

  lemma MultipleVanishes(n: nat)
    ensures (n * U64) % U64 == 0
  {
  }

  /** No product or sum of the backoff arithmetic overflows. */
  predicate FitsU64(p: RetryPolicy) {
    p.maxRetries <= 64 && 5 * (p.baseBackoff * Pow2(p.maxRetries)) < 8 * U64
  }

  lemma ExactBackoff(p: RetryPolicy, attempt: nat)
    requires FitsU64(p) && 1 <= attempt <= p.maxRetries
    ensures Backoff(p.baseBackoff, attempt) == p.baseBackoff * Pow2(attempt - 1)
    ensures 5 * Backoff(p.baseBackoff, attempt) < 4 * U64
  {
    hide Pow2;
    Pow2Of64();
    Pow2Doubles(63);
    Pow2Doubles(attempt - 1);
    Pow2Grows(attempt - 1, 63);
    Pow2Grows(attempt, p.maxRetries);
    PowerFits(p.baseBackoff, Pow2(attempt - 1), Pow2(attempt), Pow2(p.maxRetries));
  }

  lemma PowerFits(base: nat, half: nat, power: nat, top: nat)
    requires power == 2 * half && power <= top && 5 * (base * top) < 8 * U64
    ensures 5 * (base * half) < 4 * U64
  {
    Scale(base, power, top);
    Twice(base, half);
  }

  lemma Twice(base: nat, n: nat)
    ensures base * (2 * n) == 2 * (base * n)
  {
  }

  lemma Pow2Doubles(n: nat)
    ensures Pow2(n + 1) == 2 * Pow2(n)
  {
  }

  /** The clock adds up to a quarter of the backoff. */
  lemma JitterIsAQuarter(backoff: nat, nanos: nat)
    requires 5 * backoff < 4 * U64
    ensures backoff <= Jittered(backoff, nanos) && 4 * Jittered(backoff, nanos) <= 5 * backoff
    ensures Jittered(backoff, nanos) - backoff == if backoff < 4 then 0 else nanos % (backoff / 4)
  {
  }

  /** Without a delay expression, n requests sleep at most 5/4 * base * (2^(n-1) - 1) in all,
      and at least base * (2^(n-1) - 1). */
  lemma {:induction false} SleepIsBounded(p: RetryPolicy, judge: Reply -> Verdict, world: World, attempts: nat,
                                          payload: Payload)
    requires attempts <= p.maxRetries && QuietlyGivesUp(judge) && FitsU64(p)
    requires forall reply :: judge(reply).Again? ==> judge(reply).hint == None
    ensures var log := Loop(p, judge, world, attempts, payload).log;
            && Requests(log) >= 1
            && var span := p.baseBackoff * (Pow2(attempts + Requests(log) - 1) - Pow2(attempts));
            span <= TotalSleep(log) && 4 * TotalSleep(log) <= 5 * span
    decreases p.maxRetries - attempts
  {
    hide Requests, TotalSleep, Announced, Loop, QuietlyGivesUp, FitsU64, Backoff, Jittered, NextPayload, Pow2;
    TurnShows(p, judge, world, attempts, payload);
    if judge(world.reply(attempts)).Again? && attempts < p.maxRetries {
      var payload' := NextPayload(p, world, payload);
      var rest := Loop(p, judge, world, attempts + 1, payload').log;
      SleepIsBounded(p, judge, world, attempts + 1, payload');
      ExactBackoff(p, attempts + 1);
      JitterIsAQuarter(Backoff(p.baseBackoff, attempts + 1), world.nanos(attempts + 1));
      Pow2Doubles(attempts);
      SpanAdds(p.baseBackoff, Pow2(attempts), Pow2(attempts + Requests(rest)));
    }
  }

  lemma SpanAdds(base: nat, a: nat, c: nat)
    ensures base * a + base * (c - 2 * a) == base * (c - a)
  {
  }

  // ----- execute_job_with_retry -----

  lemma JudgesGiveUpQuietly(p: RetryPolicy, e: Evaluators)
    ensures QuietlyGivesUp(JobJudge(p, e))
  {
  }

  lemma DeliveryGivesUpQuietly()
    ensures QuietlyGivesUp(JudgeDelivery)
  {
  }

  /** An answer whose signature verifies, if it has to. */
  predicate Trusted(p: RetryPolicy, reply: Reply) {
    reply.Answer? && (p.signs ==> reply.job.rejected.None?)
  }

  /** A verified answer with a success status whose payload does not say otherwise. */
  predicate Successful(p: RetryPolicy, reply: Reply) {
    Trusted(p, reply) && reply.job.success && reply.job.payloadSuccess != Some(false)
  }

  /** A verified failure that may be retried: its condition, if there is one, does not evaluate to
      false; without a condition its class is transient, or the limit is zero. */
  predicate AppRetry(p: RetryPolicy, e: Evaluators, reply: Reply) {
    && Trusted(p, reply) && !Successful(p, reply)
    && match p.condition
       case Some(condition) => e.holds(condition, reply.job) != Some(false)
       case None => p.maxRetries == 0 || e.isTransient(e.classify(Or(reply.job.error, "")))
  }

  function Or(o: Option<string>, default: string): string {
    match o
    case Some(text) => text
    case None => default
  }

  /** A request is followed by another exactly when its reply was undelivered or a failure that may
      be retried, and the limit is not reached; `node_retrying` is emitted once for every failure
      that is retried, with its number, in increasing order, within the first 2^31 requests. */
  lemma JobRetryBounds(p: RetryPolicy, e: Evaluators, world: World, payload: Payload)
    requires p.maxRetries < TWO_32
    ensures var run := Loop(p, JobJudge(p, e), world, 0, payload);
            var n := Requests(run.log);
            && 1 <= n <= p.maxRetries + 1
            && (forall k: nat | k < n ::
                  k < n - 1
                  <==> k < p.maxRetries && (world.reply(k).Undelivered? || AppRetry(p, e, world.reply(k))))
            && (n <= TWO_32 / 2 ==>
                  && Increasing(Announced(run.log))
                  && forall j: int :: j in Announced(run.log) <==> 1 <= j < n && AppRetry(p, e, world.reply(j - 1)))
  {
    hide Loop, Requests, Announced, QuietlyGivesUp, JudgeJob, JobJudge, Aloud, AppRetry, Increasing, Successful;
    var n := Requests(Loop(p, JobJudge(p, e), world, 0, payload).log);
    JudgesGiveUpQuietly(p, e);
    RequestsAreBounded(p, JobJudge(p, e), world, 0, payload);
    AnnouncementsIncrease(p, JobJudge(p, e), world, payload);
    forall k: nat { JobVerdict(p, e, world.reply(k)); }
    forall j: int ensures Aloud(JobJudge(p, e), world, j) <==> j >= 1 && AppRetry(p, e, world.reply(j - 1)) {
      if j >= 1 { JobVerdict(p, e, world.reply(j - 1)); }
      AloudIs(JobJudge(p, e), world, j);
    }
  }

  lemma AloudIs(judge: Reply -> Verdict, world: World, j: int)
    ensures Aloud(judge, world, j)
            <==> j >= 1 && judge(world.reply(j - 1)).Again? && judge(world.reply(j - 1)).announced
  {
  }

  lemma JobVerdict(p: RetryPolicy, e: Evaluators, reply: Reply)
    ensures JobJudge(p, e)(reply).Again? <==> reply.Undelivered? || AppRetry(p, e, reply)
    ensures JobJudge(p, e)(reply).Again? ==> (JobJudge(p, e)(reply).announced <==> AppRetry(p, e, reply))
    ensures JobJudge(p, e)(reply).Done? <==> Successful(p, reply)
  {
  }

  /** The outcome after n replies, of which `reply` was the last. */
  ghost predicate EndsAs(p: RetryPolicy, e: Evaluators, reply: Reply, n: nat, outcome: Outcome) {
    var failing := Trusted(p, reply) && !Successful(p, reply);
    match outcome
    case Completed(output) => Successful(p, reply) && output == reply.job
    case Failed(Unparsable(error)) => reply == Garbled(error)
    case Failed(Late) => reply == TimedOut
    case Failed(BadSignature(error)) => p.signs && reply.Answer? && reply.job.rejected == Some(error)
    case Failed(ConditionNotMet(error)) =>
      && failing && p.condition.Some? && e.holds(p.condition.value, reply.job) == Some(false)
      && error == Or(reply.job.error, reply.job.text)
    case Failed(NonTransient(class_, error)) =>
      && failing && p.condition.None? && p.maxRetries > 0
      && error == Or(reply.job.error, "") && class_ == e.classify(error) && !e.isTransient(class_)
    case Failed(Exhausted(announced, attempts, error)) =>
      && n == attempts == p.maxRetries + 1
      && (if announced then AppRetry(p, e, reply) && error == Or(reply.job.error, reply.job.text) + reply.job.diag
          else reply == Undelivered(error))
  }

  /** How a job ends is decided by its last reply alone, and by the limit. */
  lemma JobEndsByItsLastReply(p: RetryPolicy, e: Evaluators, world: World, payload: Payload)
    ensures var run := Loop(p, JobJudge(p, e), world, 0, payload);
            Requests(run.log) >= 1
            && EndsAs(p, e, world.reply(Requests(run.log) - 1), Requests(run.log), run.outcome)
  {
    hide Requests, QuietlyGivesUp, EndsAs, JobJudge;
    JudgesGiveUpQuietly(p, e);
    LastReplyDecides(p, JobJudge(p, e), world, 0, payload);
    var run := Loop(p, JobJudge(p, e), world, 0, payload);
    LastVerdict(p, e, world.reply(Requests(run.log) - 1), Requests(run.log));
  }

  /** What the verdict on the last reply comes to, after n requests. */
  function Ending(verdict: Verdict, n: nat): Outcome {
    match verdict
    case Done(output) => Completed(output)
    case GiveUp(failure, _) => Failed(failure)
    case Again(announced, _, error) => Failed(Exhausted(announced, n, error))
  }

  lemma {:induction false} LastReplyDecides(p: RetryPolicy, judge: Reply -> Verdict, world: World, attempts: nat,
                                            payload: Payload)
    requires attempts <= p.maxRetries && QuietlyGivesUp(judge)
    ensures var run := Loop(p, judge, world, attempts, payload);
            var n := attempts + Requests(run.log);
            && n > attempts && run.outcome == Ending(judge(world.reply(n - 1)), n)
            && (judge(world.reply(n - 1)).Again? ==> n == p.maxRetries + 1)
    decreases p.maxRetries - attempts
  {
    hide Requests, TotalSleep, Announced, QuietlyGivesUp, Delay, NextPayload;
    TurnShows(p, judge, world, attempts, payload);
    if judge(world.reply(attempts)).Again? && attempts < p.maxRetries {
      LastReplyDecides(p, judge, world, attempts + 1, NextPayload(p, world, payload));
    }
  }

  lemma LastVerdict(p: RetryPolicy, e: Evaluators, reply: Reply, n: nat)
    requires JobJudge(p, e)(reply).Again? ==> n == p.maxRetries + 1
    ensures EndsAs(p, e, reply, n, Ending(JobJudge(p, e)(reply), n))
  {
  }

  // ----- the record of a job -----

  function Joined(pieces: seq<seq<Action>>): seq<Action> {
    if pieces == [] then [] else pieces[0] + Joined(pieces[1..])
  }

  /** The payload of one request and the next. */
  ghost predicate Resigned(p: RetryPolicy, world: World, payload: Payload, next: Payload) {
    next == (match world.resign(payload) case Some(signed) => if p.signs then signed else payload case None => payload)
  }

  /** The delay expression gives x milliseconds for a failure. */
  predicate AsksFor(p: RetryPolicy, e: Evaluators, reply: Reply, x: int) {
    reply.Answer? && p.delayExpression.Some? && e.eval(p.delayExpression.value, reply.job) == Some(x) && x > 0
  }

  /** The loop sleeps before retry number `attempt` for as long as the delay expression asks for, but
      no more than a minute; if that asks for nothing, it sleeps for the jittered backoff. */
  ghost predicate SleepsFor(p: RetryPolicy, e: Evaluators, world: World, attempt: nat, reply: Reply, ms: nat)
    requires attempt >= 1
  {
    && (forall x :: AsksFor(p, e, reply, x) ==> ms == x <= 60_000 || ms == 60_000 < x)
    && ((forall x :: !AsksFor(p, e, reply, x)) ==>
          ms == Jittered(Backoff(p.baseBackoff, attempt), world.nanos(attempt)))
  }

  /** Turn k of a job, followed by another. */
  ghost predicate RetriedTurn(p: RetryPolicy, e: Evaluators, world: World, k: nat, payload: Payload,
                              piece: seq<Action>) {
    exists ms: nat :: SleepsFor(p, e, world, k + 1, world.reply(k), ms) &&
      piece == if AppRetry(p, e, world.reply(k)) then [Request(payload), Retrying(AsI32(k + 1)), Sleep(ms)]
               else [Request(payload), Sleep(ms)]
  }

  /** The last turn of a job. */
  predicate LastTurn(outcome: Outcome, payload: Payload, piece: seq<Action>) {
    piece == if outcome.Failed? && outcome.failure.NonTransient? then
      [Request(payload), RetrySkipped(outcome.failure.class_)]
    else [Request(payload)]
  }

  /** The requests of a run carry `payloads`, each its predecessor's signed again, and its log
      consists of `pieces`, one for each request. */
  ghost predicate IsRecord(p: RetryPolicy, world: World, payload: Payload, run: Run, payloads: seq<Payload>,
                           pieces: seq<seq<Action>>) {
    && |payloads| == |pieces| >= 1 && run.log == Joined(pieces) && payloads[0] == payload
    && forall k | 0 <= k < |pieces| - 1 :: Resigned(p, world, payloads[k], payloads[k + 1])
  }

  /** Turn k, if the verdict on its reply lets it be retried. */
  ghost predicate TurnBy(p: RetryPolicy, judge: Reply -> Verdict, world: World, k: nat, payload: Payload,
                         piece: seq<Action>) {
    var verdict := judge(world.reply(k));
    && verdict.Again?
    && piece == [Request(payload)] + Pause(p, world, k + 1, verdict.announced, verdict.hint)
  }

  /** The last turn k. */
  ghost predicate EndBy(judge: Reply -> Verdict, world: World, k: nat, payload: Payload, outcome: Outcome,
                        piece: seq<Action>) {
    var verdict := judge(world.reply(k));
    && outcome == Ending(verdict, k + 1)
    && piece == [Request(payload)] + if verdict.GiveUp? then verdict.notes else []
  }

  /** The pieces of a run, by the verdicts on its replies. */
  ghost predicate ByVerdicts(p: RetryPolicy, judge: Reply -> Verdict, world: World, first: nat, run: Run,
                             payloads: seq<Payload>, pieces: seq<seq<Action>>) {
    var last := |pieces| - 1;
    && |payloads| == |pieces| >= 1
    && (forall k | 0 <= k < last :: TurnBy(p, judge, world, first + k, payloads[k], pieces[k]))
    && EndBy(judge, world, first + last, payloads[last], run.outcome, pieces[last])
  }

  lemma {:induction false} LogByVerdicts(p: RetryPolicy, judge: Reply -> Verdict, world: World, attempts: nat,
        payload: Payload) returns (payloads: seq<Payload>, pieces: seq<seq<Action>>)
    requires attempts <= p.maxRetries
    ensures var run := Loop(p, judge, world, attempts, payload);
            IsRecord(p, world, payload, run, payloads, pieces)
            && ByVerdicts(p, judge, world, attempts, run, payloads, pieces)
    decreases p.maxRetries - attempts
  {
    hide Resigned, Pause, NextPayload, IsRecord, ByVerdicts;
    var run, verdict := Loop(p, judge, world, attempts, payload), judge(world.reply(attempts));
    if verdict.Again? && attempts < p.maxRetries {
      var later, rest := LogByVerdicts(p, judge, world, attempts + 1, NextPayload(p, world, payload));
      var piece := [Request(payload)] + Pause(p, world, attempts + 1, verdict.announced, verdict.hint);
      payloads, pieces := [payload] + later, [piece] + rest;
      var run' := Loop(p, judge, world, attempts + 1, NextPayload(p, world, payload));
      RecordOneMore(p, world, payload, run', later, piece, rest);
      VerdictsOneMore(p, judge, world, attempts, payload, run', later, piece, rest);
    } else {
      payloads, pieces := [payload], [run.log];
      OneRequest(p, judge, world, attempts, payload);
    }
  }

  lemma OneRequest(p: RetryPolicy, judge: Reply -> Verdict, world: World, attempts: nat, payload: Payload)
    requires attempts <= p.maxRetries && (judge(world.reply(attempts)).Again? ==> attempts == p.maxRetries)
    ensures var run := Loop(p, judge, world, attempts, payload);
            IsRecord(p, world, payload, run, [payload], [run.log])
            && ByVerdicts(p, judge, world, attempts, run, [payload], [run.log])
  {
    var run := Loop(p, judge, world, attempts, payload);
    assert [run.log][1..] == [];
  }

  lemma RecordOneMore(p: RetryPolicy, world: World, payload: Payload, run: Run, later: seq<Payload>,
                      piece: seq<Action>, rest: seq<seq<Action>>)
    requires IsRecord(p, world, NextPayload(p, world, payload), run, later, rest)
    ensures IsRecord(p, world, payload, run.After(piece), [payload] + later, [piece] + rest)
  {
    NextIsResigned(p, world, payload);
    hide Resigned, NextPayload;
    var payloads, pieces := [payload] + later, [piece] + rest;
    assert pieces[1..] == rest;
    forall k | 0 <= k < |pieces| - 1 ensures Resigned(p, world, payloads[k], payloads[k + 1]) {
      if k > 0 { assert payloads[k] == later[k - 1] && payloads[k + 1] == later[k - 1 + 1]; }
    }
  }

  lemma VerdictsOneMore(p: RetryPolicy, judge: Reply -> Verdict, world: World, attempts: nat, payload: Payload,
                        run: Run, later: seq<Payload>, piece: seq<Action>, rest: seq<seq<Action>>)
    requires TurnBy(p, judge, world, attempts, payload, piece)
    requires ByVerdicts(p, judge, world, attempts + 1, run, later, rest)
    ensures ByVerdicts(p, judge, world, attempts, run.After(piece), [payload] + later, [piece] + rest)
  {
    hide TurnBy, EndBy;
    var payloads, pieces, last := [payload] + later, [piece] + rest, |rest|;
    assert payloads[last] == later[last - 1] && pieces[last] == rest[last - 1];
    assert attempts + last == attempts + 1 + (last - 1);
    forall k | 0 <= k < last ensures TurnBy(p, judge, world, attempts + k, payloads[k], pieces[k]) {
      if k > 0 {
        assert TurnBy(p, judge, world, attempts + 1 + (k - 1), later[k - 1], rest[k - 1]);
        assert attempts + 1 + (k - 1) == attempts + k;
      }
    }
  }

  /** The whole log of a job: each request carries its predecessor's payload signed again, if the
      policy signs and that succeeds; between two requests come the announcement of a retried failure
      and one sleep; a failure that is not transient is announced at the end. */
  lemma JobLogIs(p: RetryPolicy, e: Evaluators, world: World, payload: Payload)
    returns (payloads: seq<Payload>, pieces: seq<seq<Action>>)
    ensures var run := Loop(p, JobJudge(p, e), world, 0, payload);
            && IsRecord(p, world, payload, run, payloads, pieces)
            && (forall k | 0 <= k < |pieces| - 1 :: RetriedTurn(p, e, world, k, payloads[k], pieces[k]))
            && LastTurn(run.outcome, payloads[|pieces| - 1], pieces[|pieces| - 1])
  {
    hide RetriedTurn, IsRecord, LastTurn, JobJudge, Pause, Loop;
    payloads, pieces := LogByVerdicts(p, JobJudge(p, e), world, 0, payload);
    forall k | 0 <= k < |pieces| - 1 ensures RetriedTurn(p, e, world, k, payloads[k], pieces[k]) {
      assert TurnBy(p, JobJudge(p, e), world, 0 + k, payloads[k], pieces[k]);
      PieceIsTurn(p, e, world, k, payloads[k]);
    }
    EndIsTurn(p, e, world.reply(|pieces| - 1), |pieces|, payloads[|pieces| - 1]);
  }

  /** The whole log of a delivery: requests, each signed again like those of a job, with one sleep
      for the jittered backoff between two of them. */
  lemma DeliveryLogIs(p: RetryPolicy, world: World, payload: Payload)
    returns (payloads: seq<Payload>, pieces: seq<seq<Action>>)
    ensures var run := Loop(p, JudgeDelivery, world, 0, payload);
            && IsRecord(p, world, payload, run, payloads, pieces)
            && (forall k | 0 <= k < |pieces| - 1 ::
                  pieces[k] == [Request(payloads[k]),
                                Sleep(Jittered(Backoff(p.baseBackoff, k + 1), world.nanos(k + 1)))])
            && pieces[|pieces| - 1] == [Request(payloads[|pieces| - 1])]
  {
    hide IsRecord, Loop, Backoff, Jittered;
    payloads, pieces := LogByVerdicts(p, JudgeDelivery, world, 0, payload);
    forall k | 0 <= k < |pieces| - 1
      ensures pieces[k] == [Request(payloads[k]),
                            Sleep(Jittered(Backoff(p.baseBackoff, k + 1), world.nanos(k + 1)))]
    {
      assert TurnBy(p, JudgeDelivery, world, 0 + k, payloads[k], pieces[k]);
    }
    assert EndBy(JudgeDelivery, world, |pieces| - 1, payloads[|pieces| - 1],
                 Loop(p, JudgeDelivery, world, 0, payload).outcome, pieces[|pieces| - 1]);
    LastDelivery(world.reply(|pieces| - 1));
  }

  lemma LastDelivery(reply: Reply)
    ensures JudgeDelivery(reply).GiveUp? ==> JudgeDelivery(reply).notes == []
  {
  }

  lemma PieceIsTurn(p: RetryPolicy, e: Evaluators, world: World, k: nat, payload: Payload)
    requires JobJudge(p, e)(world.reply(k)).Again?
    ensures var verdict := JobJudge(p, e)(world.reply(k));
            RetriedTurn(p, e, world, k, payload,
                        [Request(payload)] + Pause(p, world, k + 1, verdict.announced, verdict.hint))
  {
    var reply := world.reply(k);
    var verdict := JobJudge(p, e)(reply);
    var ms := Delay(p, world, k + 1, verdict.hint);
    HintIsSleep(p, e, world, k + 1, reply);
    JobVerdict(p, e, reply);
    hide SleepsFor, AppRetry, JobJudge, Delay, AsI32;
    assert SleepsFor(p, e, world, k + 1, world.reply(k), ms);
  }

  lemma HintIsSleep(p: RetryPolicy, e: Evaluators, world: World, attempt: nat, reply: Reply)
    requires attempt >= 1 && JobJudge(p, e)(reply).Again?
    ensures SleepsFor(p, e, world, attempt, reply, Delay(p, world, attempt, JobJudge(p, e)(reply).hint))
  {
    hide Backoff, Jittered;
    if reply.Answer? && p.delayExpression.Some? && e.eval(p.delayExpression.value, reply.job).Some? {
      var x := e.eval(p.delayExpression.value, reply.job).value;
      assert x > 0 ==> AsksFor(p, e, reply, x);
    }
  }

  lemma NextIsResigned(p: RetryPolicy, world: World, payload: Payload)
    ensures Resigned(p, world, payload, NextPayload(p, world, payload))
  {
  }

  lemma EndIsTurn(p: RetryPolicy, e: Evaluators, reply: Reply, n: nat, payload: Payload)
    ensures var verdict := JobJudge(p, e)(reply);
            LastTurn(Ending(verdict, n), payload,
                     [Request(payload)] + if verdict.GiveUp? then verdict.notes else [])
  {
  }

  /** Delivery with retries ends with the first answer, whatever it says, with a timeout, or with the
      limit; each request but the last was undelivered. */
  lemma DeliveryEndsByItsLastReply(p: RetryPolicy, world: World, payload: Payload)
    ensures var run := Loop(p, JudgeDelivery, world, 0, payload);
            var n := Requests(run.log);
            && 1 <= n <= p.maxRetries + 1
            && (forall k: nat | k < n :: k < n - 1 <==> k < p.maxRetries && world.reply(k).Undelivered?)
            && match world.reply(n - 1)
               case Answer(job) => run.outcome == Completed(job)
               case Garbled(text) => run.outcome.Completed? && run.outcome.output.text == text
               case TimedOut => run.outcome == Failed(Late)
               case Undelivered(error) => n == p.maxRetries + 1 && run.outcome == Failed(Exhausted(false, n, error))
  {
    hide Requests, QuietlyGivesUp, Loop;
    DeliveryGivesUpQuietly();
    RequestsAreBounded(p, JudgeDelivery, world, 0, payload);
    LastReplyDecides(p, JudgeDelivery, world, 0, payload);
  }

  /** The total sleep of a job without a delay expression. */
  lemma JobSleepBound(p: RetryPolicy, e: Evaluators, world: World, payload: Payload)
    requires p.delayExpression.None? && FitsU64(p)
    ensures 4 * TotalSleep(Loop(p, JobJudge(p, e), world, 0, payload).log)
            <= 5 * (p.baseBackoff * (Pow2(p.maxRetries) - 1))
  {
    JudgesGiveUpQuietly(p, e);
    SleepIsBounded(p, JobJudge(p, e), world, 0, payload);
    RequestsAreBounded(p, JobJudge(p, e), world, 0, payload);
    var n := Requests(Loop(p, JobJudge(p, e), world, 0, payload).log);
    Pow2Grows(n - 1, p.maxRetries);
    Pow2Grows(0, n - 1);
    Scale(p.baseBackoff, Pow2(n - 1) - 1, Pow2(p.maxRetries) - 1);
  }
}
