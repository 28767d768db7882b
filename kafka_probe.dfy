/** The Kafka block of the `/demo` handler (demo.controller.ts lines 52-121):
    make sure the topic exists (swallowing every admin error), connect a
    producer and a consumer of a fresh group, subscribe from the beginning,
    send one message keyed by a fresh correlation id, wait at most five
    seconds for the consumer to receive that key, disconnect both clients,
    and report `success` when the message was seen and `partial_success`
    when it was not. An error in any connect, subscribe, send or disconnect
    makes the block report `fail`. */
module KafkaProbe {
  import opened Outcomes
  import opened Text
  import Config

  /** A received record as `eachMessage` sees it: its key (`null` allowed),
      its value, partition and offset. */
  datatype KafkaMessage = KafkaMessage(key: Option<string>, value: Option<string>, partition: int, offset: string)

  /** What happens while the probe waits, in the order it happens, up to the
      five-second deadline: a message reaches `eachMessage`, or
      `consumer.run` rejects. The deadline itself comes after the last event. */
  datatype ConsumeEvent =
    | Delivered(message: KafkaMessage)
    | RunRejected(error: Thrown)

  /** What each client call of one run replies, and what the consumer sees
      before the deadline. */
  datatype KafkaReplies = KafkaReplies(
    adminConnect: Result<()>,
    createTopics: Result<bool>,
    adminDisconnect: Result<()>,
    producerConnect: Result<()>,
    consumerConnect: Result<()>,
    subscribe: Result<()>,
    send: Result<()>,
    events: seq<ConsumeEvent>,
    consumerDisconnect: Result<()>,
    producerDisconnect: Result<()>)

  /** A client call the probe issues, with its arguments. */
  datatype KafkaCall =
    | AdminConnect(brokers: seq<string>)
    | CreateTopic(topic: string, numPartitions: nat, replicationFactor: nat, waitForLeaders: bool)
    | AdminDisconnect
    | ProducerConnect(brokers: seq<string>)
    | ConsumerConnect(brokers: seq<string>, groupId: string)
    | Subscribe(topic: string, fromBeginning: bool)
    | Send(topic: string, key: string)
    | RunConsumer
    | ConsumerDisconnect
    | ProducerDisconnect

  /** `demo-group-${rnd}`, where `rnd` stands for
      `Math.random().toString(36).slice(2, 10)`. */
  function GroupId(rnd: string): string
  {
    "demo-group-" + rnd
  }

  /** `cid-${Date.now()}-${rnd}`, where `rnd` stands for
      `Math.random().toString(36).slice(2, 6)`. */
  function CorrelationId(now: nat, rnd: string): string
  {
    "cid-" + Decimal(now) + "-" + rnd
  }

  /** The event settles the wait: a message carrying the correlation id
      resolves it, a rejected `consumer.run` rejects it. */
  predicate Settles(e: ConsumeEvent, correlationId: string)
  {
    e.RunRejected? || e.message.key == Some(correlationId)
  }

  /** The value the wait resolves to: the first message whose key is the
      correlation id, unless `consumer.run` rejected before it or the
      deadline came first. */
  function Awaited(events: seq<ConsumeEvent>, correlationId: string): (consumed: Option<KafkaMessage>)
    ensures consumed.Some? ==>
              consumed.value.key == Some(correlationId) &&
              exists i :: 0 <= i < |events| && events[i] == Delivered(consumed.value) &&
                          forall j :: 0 <= j < i ==> !Settles(events[j], correlationId)
  {
    if events == [] then None
    else
      match events[0]
      case RunRejected(_) => None
      case Delivered(m) =>
        if m.key == Some(correlationId) then Some(m)
        else
          var rest := Awaited(events[1..], correlationId);
          if rest.Some? then
            var i :| 0 <= i < |events[1..]| && events[1..][i] == Delivered(rest.value) &&
                     forall j :: 0 <= j < i ==> !Settles(events[1..][j], correlationId);
            assert events[i + 1] == Delivered(rest.value);
            rest
          else rest
  }

  /** The wait: `eachMessage` compares each received key with the
      correlation id and resolves on the first match; a rejected
      `consumer.run` or the deadline leaves `consumed` undefined. */
  method AwaitCorrelated(events: seq<ConsumeEvent>, correlationId: string) returns (consumed: Option<KafkaMessage>)
    ensures consumed == Awaited(events, correlationId)
  {
    consumed := None;
    var i := 0;
    var settled := false;
    while i < |events| && !settled
      invariant 0 <= i <= |events|
      invariant !settled ==> consumed == None && Awaited(events, correlationId) == Awaited(events[i..], correlationId)
      invariant settled ==> consumed == Awaited(events, correlationId)
      decreases |events| - i, if settled then 0 else 1
    {
      match events[i]
      case RunRejected(_) =>
        settled := true;
      case Delivered(m) =>
        if m.key == Some(correlationId) {
          consumed := Some(m);
          settled := true;
        }
      assert events[i..][1..] == events[i + 1..];
      i := i + 1;
    }
  }

  /** `consumed ? 'success' : 'partial_success'` */
  function ConsumeVerdict(consumed: Option<KafkaMessage>): (o: Outcome)
    ensures o.Success? <==> consumed.Some?
    ensures o.PartialSuccess? <==> consumed.None?
  {
    if consumed.Some? then Success else PartialSuccess
  }

  /** What the main steps throw, in the order they run; the wait between
      `send` and the disconnects never throws. */
  function StepErrors(k: KafkaReplies): (errs: seq<Option<Thrown>>)
    ensures |errs| == 7
    ensures errs[0].None? <==> k.producerConnect.Ok?
    ensures errs[1].None? <==> k.consumerConnect.Ok?
    ensures errs[2].None? <==> k.subscribe.Ok?
    ensures errs[3].None? <==> k.send.Ok?
    ensures errs[4].None?
    ensures errs[5].None? <==> k.consumerDisconnect.Ok?
    ensures errs[6].None? <==> k.producerDisconnect.Ok?
  {
    [ErrorOf(k.producerConnect), ErrorOf(k.consumerConnect), ErrorOf(k.subscribe), ErrorOf(k.send),
     None, ErrorOf(k.consumerDisconnect), ErrorOf(k.producerDisconnect)]
  }

  /** The admin calls: connect, create the topic when connected, and always
      disconnect (the `finally`). */
  function AdminCalls(brokers: seq<string>, topic: string, k: KafkaReplies): (calls: seq<KafkaCall>)
    ensures 2 <= |calls| <= 3
    ensures calls[0] == AdminConnect(brokers) && calls[|calls| - 1] == AdminDisconnect
    ensures |calls| == 3 <==> k.adminConnect.Ok?
    ensures |calls| == 3 ==> calls[1] == CreateTopic(topic, 1, 1, true)
  {
    [AdminConnect(brokers)]
    + (if k.adminConnect.Ok? then [CreateTopic(topic, 1, 1, true)] else [])
    + [AdminDisconnect]
  }

  function Plan(brokers: seq<string>, topic: string, groupId: string, correlationId: string): (plan: seq<KafkaCall>)
    ensures |plan| == 7
  {
    [ProducerConnect(brokers), ConsumerConnect(brokers, groupId), Subscribe(topic, true),
     Send(topic, correlationId), RunConsumer, ConsumerDisconnect, ProducerDisconnect]
  }

  /** The calls one run issues: the admin calls, then the main steps up to
      the first that throws. */
  function Calls(brokersEnv: Option<string>, topicEnv: Option<string>, groupRnd: string,
                 correlationId: string, k: KafkaReplies): seq<KafkaCall>
  {
    var brokers := Config.ParseBrokers(brokersEnv);
    var topic := Config.TopicName(topicEnv);
    AdminCalls(brokers, topic, k) + MainCalls(brokers, topic, GroupId(groupRnd), correlationId, k)
  }

  /** The main steps one run issues: the plan up to the first that throws. */
  function MainCalls(brokers: seq<string>, topic: string, groupId: string,
                     correlationId: string, k: KafkaReplies): seq<KafkaCall>
  {
    Plan(brokers, topic, groupId, correlationId)[..Attempted(StepErrors(k))]
  }

  /** The outcome the block stores in `result.kafka`. */
  function Classify(k: KafkaReplies, correlationId: string): Outcome
  {
    TryOutcome(StepErrors(k), ConsumeVerdict(Awaited(k.events, correlationId)))
  }

  /** The topic setup (lines 58-77): connect the admin client, create the
      topic with one partition and replication factor one, waiting for
      leaders; whatever throws is swallowed, and the admin client is always
      disconnected, that error swallowed too. */
  method EnsureTopic(brokers: seq<string>, topic: string, k: KafkaReplies) returns (calls: seq<KafkaCall>)
    ensures calls == AdminCalls(brokers, topic, k)
  {
    calls := [AdminConnect(brokers)];
    if k.adminConnect.Ok? {
      calls := calls + [CreateTopic(topic, 1, 1, true)];
    }
    calls := calls + [AdminDisconnect];
  }

  /** The main steps (lines 79-118), stopping at the first that throws. */
  method ProduceAndConsume(brokers: seq<string>, topic: string, groupId: string,
                           correlationId: string, k: KafkaReplies)
    returns (o: Outcome, calls: seq<KafkaCall>)
    ensures o == Classify(k, correlationId)
    ensures calls == MainCalls(brokers, topic, groupId, correlationId, k)
  {
    ghost var errs := StepErrors(k);
    ghost var verdict := ConsumeVerdict(Awaited(k.events, correlationId));
    ghost var plan := Plan(brokers, topic, groupId, correlationId);
    calls := [ProducerConnect(brokers)];
    assert calls == plan[..1];
    if k.producerConnect.Err? {
      FirstThrowingStep(errs, 0, verdict);
      return FailWith(k.producerConnect.error), calls;
    }
    calls := calls + [ConsumerConnect(brokers, groupId)];
    assert calls == plan[..2];
    if k.consumerConnect.Err? {
      FirstThrowingStep(errs, 1, verdict);
      return FailWith(k.consumerConnect.error), calls;
    }
    calls := calls + [Subscribe(topic, true)];
    assert calls == plan[..3];
    if k.subscribe.Err? {
      FirstThrowingStep(errs, 2, verdict);
      return FailWith(k.subscribe.error), calls;
    }
    calls := calls + [Send(topic, correlationId)];
    assert calls == plan[..4];
    if k.send.Err? {
      FirstThrowingStep(errs, 3, verdict);
      return FailWith(k.send.error), calls;
    }
    CompletedStepsSetAside(errs, 4, verdict);
    var tail;
    o, tail := ConsumeAndDisconnect(correlationId, k);
    assert plan[4..] == Teardown();
    calls := calls + tail;
  }

  /** `consumer.run`, the wait, and the two disconnects. */
  function Teardown(): seq<KafkaCall>
  {
    [RunConsumer, ConsumerDisconnect, ProducerDisconnect]
  }

  /** The wait and the teardown (lines 91-118): the wait never throws, the
      disconnects may. */
  method ConsumeAndDisconnect(correlationId: string, k: KafkaReplies) returns (o: Outcome, calls: seq<KafkaCall>)
    ensures o == TryOutcome(StepErrors(k)[4..], ConsumeVerdict(Awaited(k.events, correlationId)))
    ensures calls == Teardown()[..Attempted(StepErrors(k)[4..])]
  {
    ghost var errs := StepErrors(k)[4..];
    ghost var verdict := ConsumeVerdict(Awaited(k.events, correlationId));
    calls := [RunConsumer];
    var consumed := AwaitCorrelated(k.events, correlationId);
    calls := calls + [ConsumerDisconnect];
    if k.consumerDisconnect.Err? {
      FirstThrowingStep(errs, 1, verdict);
      return FailWith(k.consumerDisconnect.error), calls;
    }
    calls := calls + [ProducerDisconnect];
    if k.producerDisconnect.Err? {
      FirstThrowingStep(errs, 2, verdict);
      return FailWith(k.producerDisconnect.error), calls;
    }
    NoThrowingStep(errs, verdict);
    o := ConsumeVerdict(consumed);
  }

  /** The whole block: configuration, topic setup, then the main steps. */
  method Run(brokersEnv: Option<string>, topicEnv: Option<string>, groupRnd: string,
             now: nat, correlationRnd: string, k: KafkaReplies)
    returns (o: Outcome, calls: seq<KafkaCall>)
    ensures o == Classify(k, CorrelationId(now, correlationRnd))
    ensures calls == Calls(brokersEnv, topicEnv, groupRnd, CorrelationId(now, correlationRnd), k)
  {
    var brokers := Config.ParseBrokers(brokersEnv);
    var topic := Config.TopicName(topicEnv);
    var adminCalls := EnsureTopic(brokers, topic, k);
    var groupId := GroupId(groupRnd);
    var correlationId := CorrelationId(now, correlationRnd);
    var mainCalls;
    o, mainCalls := ProduceAndConsume(brokers, topic, groupId, correlationId, k);
    calls := adminCalls + mainCalls;
  }

  /** The wait resolves exactly when a message carrying the correlation id
      arrives before the deadline and before any rejection of
      `consumer.run`. */
  lemma {:induction false} AwaitedSomeIff(events: seq<ConsumeEvent>, correlationId: string)
    ensures Awaited(events, correlationId).Some? <==>
              exists i :: 0 <= i < |events| && events[i].Delivered? && events[i].message.key == Some(correlationId) &&
                          forall j :: 0 <= j < i ==> !events[j].RunRejected?
  {
    if events != [] && events[0].Delivered? && events[0].message.key != Some(correlationId) {
      AwaitedSomeIff(events[1..], correlationId);
      if exists i :: 0 <= i < |events| && events[i].Delivered? && events[i].message.key == Some(correlationId) &&
                     forall j :: 0 <= j < i ==> !events[j].RunRejected? {
        var i :| 0 <= i < |events| && events[i].Delivered? && events[i].message.key == Some(correlationId) &&
                 forall j :: 0 <= j < i ==> !events[j].RunRejected?;
        assert i > 0;
        assert events[1..][i - 1] == events[i];
        assert forall j :: 0 <= j < i - 1 ==> events[1..][j] == events[j + 1];
      }
    }
  }

  /** Messages with other keys are ignored: dropping them from what the
      consumer sees does not change what the wait resolves to. */
  function WithoutOtherKeys(events: seq<ConsumeEvent>, correlationId: string): seq<ConsumeEvent>
  {
    if events == [] then []
    else if events[0].Delivered? && events[0].message.key != Some(correlationId) then
      WithoutOtherKeys(events[1..], correlationId)
    else [events[0]] + WithoutOtherKeys(events[1..], correlationId)
  }

  lemma {:induction false} OtherKeysIgnored(events: seq<ConsumeEvent>, correlationId: string)
    ensures Awaited(events, correlationId) == Awaited(WithoutOtherKeys(events, correlationId), correlationId)
  {
    if events != [] {
      OtherKeysIgnored(events[1..], correlationId);
      var rest := WithoutOtherKeys(events[1..], correlationId);
      if !(events[0].Delivered? && events[0].message.key != Some(correlationId)) {
        assert ([events[0]] + rest)[0] == events[0];
        assert ([events[0]] + rest)[1..] == rest;
      }
    }
  }

  /** The wait settles once: after a matching message or a rejection, later
      events change nothing (no second resolution, no late timeout). */
  lemma {:induction false} SettlesOnce(settled: seq<ConsumeEvent>, later: seq<ConsumeEvent>, correlationId: string)
    requires exists i :: 0 <= i < |settled| && Settles(settled[i], correlationId)
    ensures Awaited(settled + later, correlationId) == Awaited(settled, correlationId)
  {
    assert (settled + later)[0] == settled[0];
    if !Settles(settled[0], correlationId) {
      var i :| 0 <= i < |settled| && Settles(settled[i], correlationId);
      assert settled[1..][i - 1] == settled[i];
      SettlesOnce(settled[1..], later, correlationId);
      assert (settled + later)[1..] == settled[1..] + later;
    }
  }

  /** A wait keyed on one correlation id is never satisfied by a message
      keyed on another: with no message carrying this run's id, the block
      cannot report `success`. */
  lemma TokensDoNotCrossMatch(k: KafkaReplies, correlationId: string)
    requires forall i :: 0 <= i < |k.events| && k.events[i].Delivered? ==> k.events[i].message.key != Some(correlationId)
    ensures Awaited(k.events, correlationId).None?
    ensures !Classify(k, correlationId).Success?
  {
    AwaitedSomeIff(k.events, correlationId);
    Classification(k, correlationId);
  }

  /** The block fails exactly when a connect, the subscribe, the send or a
      disconnect throws; otherwise it reports `success` when the wait
      resolved and `partial_success` when it did not. */
  lemma Classification(k: KafkaReplies, correlationId: string)
    ensures Classify(k, correlationId).Fail? <==>
              k.producerConnect.Err? || k.consumerConnect.Err? || k.subscribe.Err? || k.send.Err? ||
              k.consumerDisconnect.Err? || k.producerDisconnect.Err?
    ensures Classify(k, correlationId).Success? <==>
              !Classify(k, correlationId).Fail? && Awaited(k.events, correlationId).Some?
    ensures Classify(k, correlationId).PartialSuccess? <==>
              !Classify(k, correlationId).Fail? && Awaited(k.events, correlationId).None?
  {
    var errs := StepErrors(k);
    var verdict := ConsumeVerdict(Awaited(k.events, correlationId));
    TryOutcomeFailsIffSomeStepThrows(errs, verdict);
    if k.producerConnect.Err? || k.consumerConnect.Err? || k.subscribe.Err? || k.send.Err? ||
       k.consumerDisconnect.Err? || k.producerDisconnect.Err? {
      assert errs[0].Some? || errs[1].Some? || errs[2].Some? || errs[3].Some? || errs[5].Some? || errs[6].Some?;
    } else {
      assert forall i :: 0 <= i < 7 ==> errs[i].None?;
    }
  }

  /** A failure carries the text of the first error among the main steps,
      and the main calls stop there. */
  lemma FailureStopsAtFirstError(brokers: seq<string>, topic: string, groupId: string,
                                 correlationId: string, k: KafkaReplies)
    ensures k.producerConnect.Err? ==>
              Classify(k, correlationId) == FailWith(k.producerConnect.error) &&
              MainCalls(brokers, topic, groupId, correlationId, k) == [ProducerConnect(brokers)]
    ensures k.producerConnect.Ok? && k.consumerConnect.Err? ==>
              Classify(k, correlationId) == FailWith(k.consumerConnect.error) &&
              |MainCalls(brokers, topic, groupId, correlationId, k)| == 2
    ensures k.producerConnect.Ok? && k.consumerConnect.Ok? && k.subscribe.Err? ==>
              Classify(k, correlationId) == FailWith(k.subscribe.error) &&
              |MainCalls(brokers, topic, groupId, correlationId, k)| == 3
    ensures k.producerConnect.Ok? && k.consumerConnect.Ok? && k.subscribe.Ok? && k.send.Err? ==>
              Classify(k, correlationId) == FailWith(k.send.error) &&
              |MainCalls(brokers, topic, groupId, correlationId, k)| == 4
    ensures k.producerConnect.Ok? && k.consumerConnect.Ok? && k.subscribe.Ok? && k.send.Ok? &&
            k.consumerDisconnect.Err? ==>
              Classify(k, correlationId) == FailWith(k.consumerDisconnect.error) &&
              |MainCalls(brokers, topic, groupId, correlationId, k)| == 6
    ensures k.producerConnect.Ok? && k.consumerConnect.Ok? && k.subscribe.Ok? && k.send.Ok? &&
            k.consumerDisconnect.Ok? && k.producerDisconnect.Err? ==>
              Classify(k, correlationId) == FailWith(k.producerDisconnect.error) &&
              |MainCalls(brokers, topic, groupId, correlationId, k)| == 7
  {
    var errs := StepErrors(k);
    var verdict := ConsumeVerdict(Awaited(k.events, correlationId));
    if k.producerConnect.Err? {
      FirstThrowingStep(errs, 0, verdict);
    } else if k.consumerConnect.Err? {
      FirstThrowingStep(errs, 1, verdict);
    } else if k.subscribe.Err? {
      FirstThrowingStep(errs, 2, verdict);
    } else if k.send.Err? {
      FirstThrowingStep(errs, 3, verdict);
    } else if k.consumerDisconnect.Err? {
      FirstThrowingStep(errs, 5, verdict);
    } else if k.producerDisconnect.Err? {
      FirstThrowingStep(errs, 6, verdict);
    }
  }

  /** The main calls address this run: the consumer joins the run's own
      group, it subscribes from the beginning, and the one message sent is
      keyed by the correlation id the wait compares against. */
  lemma MainCallsAddressTheRun(brokers: seq<string>, topic: string, groupId: string,
                               correlationId: string, k: KafkaReplies)
    ensures |MainCalls(brokers, topic, groupId, correlationId, k)| >= 2 ==>
              MainCalls(brokers, topic, groupId, correlationId, k)[1] == ConsumerConnect(brokers, groupId)
    ensures |MainCalls(brokers, topic, groupId, correlationId, k)| >= 3 ==>
              MainCalls(brokers, topic, groupId, correlationId, k)[2] == Subscribe(topic, true)
    ensures |MainCalls(brokers, topic, groupId, correlationId, k)| >= 4 ==>
              MainCalls(brokers, topic, groupId, correlationId, k)[3] == Send(topic, correlationId)
  {
  }

  /** A call addresses the run: a call naming a topic names the configured
      one, a consumer joins the run's group, a subscription starts from the
      beginning, and a message is keyed by the run's correlation id. */
  predicate AddressesRun(c: KafkaCall, topic: string, groupId: string, correlationId: string)
  {
    && ((c.CreateTopic? || c.Subscribe? || c.Send?) ==> c.topic == topic)
    && (c.ConsumerConnect? ==> c.groupId == groupId)
    && (c.Subscribe? ==> c.fromBeginning)
    && (c.Send? ==> c.key == correlationId)
  }

  /** Every call a run issues, admin calls included, addresses that run. */
  lemma CallsAddressTheRun(brokersEnv: Option<string>, topicEnv: Option<string>, groupRnd: string,
                           correlationId: string, k: KafkaReplies)
    ensures forall i | 0 <= i < |Calls(brokersEnv, topicEnv, groupRnd, correlationId, k)| ::
              AddressesRun(Calls(brokersEnv, topicEnv, groupRnd, correlationId, k)[i],
                           Config.TopicName(topicEnv), GroupId(groupRnd), correlationId)
  {
    var brokers := Config.ParseBrokers(brokersEnv);
    var topic := Config.TopicName(topicEnv);
    var groupId := GroupId(groupRnd);
    var admin := AdminCalls(brokers, topic, k);
    var main := MainCalls(brokers, topic, groupId, correlationId, k);
    AdminCallsAddressTheRun(brokers, topic, groupId, correlationId, k);
    EveryMainCallAddressesTheRun(brokers, topic, groupId, correlationId, k);
    var calls := admin + main;
    forall i | 0 <= i < |calls| ensures AddressesRun(calls[i], topic, groupId, correlationId) {
      if i >= |admin| {
        assert calls[i] == main[i - |admin|];
      }
    }
  }

  lemma AdminCallsAddressTheRun(brokers: seq<string>, topic: string, groupId: string,
                                correlationId: string, k: KafkaReplies)
    ensures forall i | 0 <= i < |AdminCalls(brokers, topic, k)| ::
              AddressesRun(AdminCalls(brokers, topic, k)[i], topic, groupId, correlationId)
  {
  }

  lemma EveryMainCallAddressesTheRun(brokers: seq<string>, topic: string, groupId: string,
                            correlationId: string, k: KafkaReplies)
    ensures forall i | 0 <= i < |MainCalls(brokers, topic, groupId, correlationId, k)| ::
              AddressesRun(MainCalls(brokers, topic, groupId, correlationId, k)[i], topic, groupId, correlationId)
  {
    var plan := Plan(brokers, topic, groupId, correlationId);
    assert forall i | 0 <= i < |plan| :: AddressesRun(plan[i], topic, groupId, correlationId);
  }

  /** Distinct clock readings or random suffixes give distinct correlation
      ids: the rendering of the clock is made of digits, so the first `-`
      after `cid-` marks where it ends. */
  lemma CorrelationIdInjective(now1: nat, rnd1: string, now2: nat, rnd2: string)
    ensures CorrelationId(now1, rnd1) == CorrelationId(now2, rnd2) <==> now1 == now2 && rnd1 == rnd2
  {
    if CorrelationId(now1, rnd1) == CorrelationId(now2, rnd2) {
      var d1, d2 := Decimal(now1), Decimal(now2);
      assert CorrelationId(now1, rnd1)[4..] == d1 + "-" + rnd1;
      assert CorrelationId(now2, rnd2)[4..] == d2 + "-" + rnd2;
      DigitsEndAtDash(d1, rnd1, d2, rnd2);
      DecimalInjective(now1, now2);
    }
  }

  /** Two runs of digits followed by `-` and a tail: equal strings have
      equal digits and equal tails. */
  lemma DigitsEndAtDash(d1: string, t1: string, d2: string, t2: string)
    requires forall i :: 0 <= i < |d1| ==> '0' <= d1[i] <= '9'
    requires forall i :: 0 <= i < |d2| ==> '0' <= d2[i] <= '9'
    requires d1 + "-" + t1 == d2 + "-" + t2
    ensures d1 == d2 && t1 == t2
  {
    var s := d1 + "-" + t1;
    assert forall i :: 0 <= i < |d1| ==> s[i] == d1[i] != '-';
    assert s[|d1|] == '-';
    assert forall i :: 0 <= i < |d2| ==> s[i] == d2[i] != '-';
    assert s[|d2|] == '-';
    assert |d1| == |d2|;
    assert d1 == s[..|d1|] == d2;
    assert t1 == s[|d1| + 1..] == t2;
  }

  /** Admin errors are swallowed: whatever the admin connect, the topic
      creation and the admin disconnect reply, the outcome is the same. */
  lemma AdminErrorsSwallowed(k: KafkaReplies, adminConnect: Result<()>, createTopics: Result<bool>,
                             adminDisconnect: Result<()>, correlationId: string)
    ensures Classify(k.(adminConnect := adminConnect, createTopics := createTopics, adminDisconnect := adminDisconnect),
                     correlationId) == Classify(k, correlationId)
  {
  }

  /** The producer and consumer are disconnected only when everything up to
      the send completed, so an early error leaves an already connected
      client open (the admin client, by contrast, is always disconnected:
      see AdminCalls). */
  lemma DisconnectsOnlyAfterSend(brokers: seq<string>, topic: string, groupId: string,
                                 correlationId: string, k: KafkaReplies)
    ensures ConsumerDisconnect in MainCalls(brokers, topic, groupId, correlationId, k) <==>
              k.producerConnect.Ok? && k.consumerConnect.Ok? && k.subscribe.Ok? && k.send.Ok?
  {
    var plan := Plan(brokers, topic, groupId, correlationId);
    var errs := StepErrors(k);
    var n := Attempted(errs);
    if k.producerConnect.Ok? && k.consumerConnect.Ok? && k.subscribe.Ok? && k.send.Ok? {
      CompletedStepsSetAside(errs, 5, Success);
      assert n >= 6 by { assert errs[5..][0] == errs[5]; }
      assert plan[..n][5] == ConsumerDisconnect;
    } else {
      var first := if k.producerConnect.Err? then 0 else if k.consumerConnect.Err? then 1
                   else if k.subscribe.Err? then 2 else 3;
      FirstThrowingStep(errs, first, Success);
      assert forall i :: 0 <= i < n ==> plan[..n][i] != ConsumerDisconnect;
    }
  }
}
