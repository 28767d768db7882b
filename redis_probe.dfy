/** The Redis block of the `/demo` handler (demo.controller.ts lines 36-49):
    create the client for the URL, connect, write `value-<rnd>` under
    `demo:key:<now>` with a 30-second expiry, read the key back, quit, then
    compare the read-back value with the written one. */
module RedisProbe {
  import opened Outcomes
  import opened Text
  import Config

  /** What each client call of one run replies: `create` is `createClient`,
      which parses the URL and throws on a malformed one before any network
      call, `write` is `client.set`, `read` is `client.get`, which completes
      with the stored string or with `null`. */
  datatype RedisReplies = RedisReplies(
    create: Result<()>,
    connect: Result<()>,
    write: Result<()>,
    read: Result<Option<string>>,
    quit: Result<()>)

  /** A client call the probe issues, with its arguments. */
  datatype RedisCall =
    | CreateClient(url: string)
    | Connect
    | Set(key: string, value: string, expirySeconds: nat)
    | Get(key: string)
    | Quit

  const ExpirySeconds: nat := 30

  /** `demo:key:${Date.now()}` */
  function Key(now: nat): string
  {
    "demo:key:" + Decimal(now)
  }

  /** `value-${rnd}`, where `rnd` stands for `Math.random().toString(36).slice(2, 6)`. */
  function Value(rnd: string): string
  {
    "value-" + rnd
  }

  /** `readBack === value ? 'success' : 'partial_success'`: a missing or
      different value is a partial success, never a failure. */
  function ReadBackVerdict(readBack: Option<string>, value: string): (o: Outcome)
    ensures o.Success? <==> readBack == Some(value)
    ensures o.PartialSuccess? <==> readBack != Some(value)
  {
    if readBack == Some(value) then Success else PartialSuccess
  }

  /** What the five calls throw, in the order they run. */
  function StepErrors(r: RedisReplies): (errs: seq<Option<Thrown>>)
    ensures |errs| == 5
    ensures errs[0].None? <==> r.create.Ok?
    ensures errs[1].None? <==> r.connect.Ok?
    ensures errs[2].None? <==> r.write.Ok?
    ensures errs[3].None? <==> r.read.Ok?
    ensures errs[4].None? <==> r.quit.Ok?
  {
    [ErrorOf(r.create), ErrorOf(r.connect), ErrorOf(r.write), ErrorOf(r.read), ErrorOf(r.quit)]
  }

  /** The value `get` read back (only consulted when it completed). */
  function ReadBack(r: RedisReplies): Option<string>
  {
    if r.read.Ok? then r.read.value else None
  }

  function Plan(url: string, key: string, value: string): (plan: seq<RedisCall>)
    ensures |plan| == 5
  {
    [CreateClient(url), Connect, Set(key, value, ExpirySeconds), Get(key), Quit]
  }

  /** The calls one run issues: the plan up to the first call that throws. */
  function Calls(urlEnv: Option<string>, now: nat, rnd: string, r: RedisReplies): seq<RedisCall>
  {
    Plan(Config.RedisUrl(urlEnv), Key(now), Value(rnd))[..Attempted(StepErrors(r))]
  }

  /** The outcome the block stores in `result.redis`. */
  function Classify(r: RedisReplies, value: string): Outcome
  {
    TryOutcome(StepErrors(r), ReadBackVerdict(ReadBack(r), value))
  }

  /** Runs the five calls in order, stopping at the first that throws, and
      classifies the read-back value. */
  method Run(urlEnv: Option<string>, now: nat, rnd: string, r: RedisReplies)
    returns (o: Outcome, calls: seq<RedisCall>)
    ensures o == Classify(r, Value(rnd))
    ensures calls == Calls(urlEnv, now, rnd, r)
  {
    var url := Config.RedisUrl(urlEnv);
    ghost var plan := Plan(url, Key(now), Value(rnd));
    calls := [CreateClient(url)];
    assert calls == plan[..1];
    if r.create.Err? {
      FirstThrowingStep(StepErrors(r), 0, ReadBackVerdict(ReadBack(r), Value(rnd)));
      return FailWith(r.create.error), calls;
    }
    calls := calls + [Connect];
    assert calls == plan[..2];
    if r.connect.Err? {
      FirstThrowingStep(StepErrors(r), 1, ReadBackVerdict(ReadBack(r), Value(rnd)));
      return FailWith(r.connect.error), calls;
    }
    var key := Key(now);
    var value := Value(rnd);
    calls := calls + [Set(key, value, ExpirySeconds)];
    assert calls == plan[..3];
    if r.write.Err? {
      FirstThrowingStep(StepErrors(r), 2, ReadBackVerdict(ReadBack(r), value));
      return FailWith(r.write.error), calls;
    }
    calls := calls + [Get(key)];
    assert calls == plan[..4];
    if r.read.Err? {
      FirstThrowingStep(StepErrors(r), 3, ReadBackVerdict(ReadBack(r), value));
      return FailWith(r.read.error), calls;
    }
    var readBack := r.read.value;
    calls := calls + [Quit];
    assert calls == plan[..5];
    if r.quit.Err? {
      FirstThrowingStep(StepErrors(r), 4, ReadBackVerdict(ReadBack(r), value));
      return FailWith(r.quit.error), calls;
    }
    NoThrowingStep(StepErrors(r), ReadBackVerdict(ReadBack(r), value));
    o := ReadBackVerdict(readBack, value);
  }

  /** With all five calls completing, the outcome is `success` exactly when
      the value read back is the one written, `partial_success` otherwise;
      an error in any call, the client creation and the closing `quit`
      included, is a failure. */
  lemma Classification(r: RedisReplies, value: string)
    ensures Classify(r, value).Success? <==>
              r.create.Ok? && r.connect.Ok? && r.write.Ok? && r.read.Ok? && r.quit.Ok? && r.read.value == Some(value)
    ensures Classify(r, value).PartialSuccess? <==>
              r.create.Ok? && r.connect.Ok? && r.write.Ok? && r.read.Ok? && r.quit.Ok? && r.read.value != Some(value)
    ensures Classify(r, value).Fail? <==>
              r.create.Err? || r.connect.Err? || r.write.Err? || r.read.Err? || r.quit.Err?
  {
    var errs := StepErrors(r);
    if r.create.Ok? && r.connect.Ok? && r.write.Ok? && r.read.Ok? && r.quit.Ok? {
      NoThrowingStep(errs, ReadBackVerdict(ReadBack(r), value));
    } else {
      TryOutcomeFailsIffSomeStepThrows(errs, ReadBackVerdict(ReadBack(r), value));
      assert errs[0].Some? || errs[1].Some? || errs[2].Some? || errs[3].Some? || errs[4].Some?;
    }
  }

  /** A failure carries the text of the first error, and the calls stop
      there: a malformed URL fails in `createClient`, before any network
      call. */
  lemma FailureStopsAtFirstError(urlEnv: Option<string>, now: nat, rnd: string, r: RedisReplies, value: string)
    ensures r.create.Err? ==>
              Classify(r, value) == FailWith(r.create.error) &&
              Calls(urlEnv, now, rnd, r) == [CreateClient(Config.RedisUrl(urlEnv))]
    ensures r.create.Ok? && r.connect.Err? ==>
              Classify(r, value) == FailWith(r.connect.error) && |Calls(urlEnv, now, rnd, r)| == 2
    ensures r.create.Ok? && r.connect.Ok? && r.write.Err? ==>
              Classify(r, value) == FailWith(r.write.error) && |Calls(urlEnv, now, rnd, r)| == 3
    ensures r.create.Ok? && r.connect.Ok? && r.write.Ok? && r.read.Err? ==>
              Classify(r, value) == FailWith(r.read.error) && |Calls(urlEnv, now, rnd, r)| == 4
    ensures r.create.Ok? && r.connect.Ok? && r.write.Ok? && r.read.Ok? && r.quit.Err? ==>
              Classify(r, value) == FailWith(r.quit.error) && |Calls(urlEnv, now, rnd, r)| == 5
  {
    var errs := StepErrors(r);
    var verdict := ReadBackVerdict(ReadBack(r), value);
    if r.create.Err? {
      FirstThrowingStep(errs, 0, verdict);
    } else if r.connect.Err? {
      FirstThrowingStep(errs, 1, verdict);
    } else if r.write.Err? {
      FirstThrowingStep(errs, 2, verdict);
    } else if r.read.Err? {
      FirstThrowingStep(errs, 3, verdict);
    } else if r.quit.Err? {
      FirstThrowingStep(errs, 4, verdict);
    }
  }

  /** A `quit` that throws after a matching read still makes the block fail,
      with the text of the `quit` error. */
  lemma QuitErrorAfterMatchFails(r: RedisReplies, value: string)
    requires r.create.Ok? && r.connect.Ok? && r.write.Ok? && r.read == Ok(Some(value)) && r.quit.Err?
    ensures Classify(r, value) == FailWith(r.quit.error)
  {
    FirstThrowingStep(StepErrors(r), 4, ReadBackVerdict(ReadBack(r), value));
  }

  /** The write and the read address the same key, built from the clock,
      and the write carries the 30-second expiry. */
  lemma WriteAndReadShareKey(urlEnv: Option<string>, now: nat, rnd: string, r: RedisReplies)
    ensures |Calls(urlEnv, now, rnd, r)| >= 4 ==>
              Calls(urlEnv, now, rnd, r)[2] == Set(Key(now), Value(rnd), 30) &&
              Calls(urlEnv, now, rnd, r)[3] == Get(Key(now))
    ensures "demo:key:" <= Key(now) && "value-" <= Value(rnd)
  {
  }
}
