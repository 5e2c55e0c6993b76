/**
 * The service provider's completion hook, run after every processed job,
 * and the reflective property selection it uses to reach into the job.
 */
module ServiceProvider {
  import opened Wrappers
  import opened PubSub
  import opened Jobs

  /**
   * A property value as read off a job; `Null` is PHP's null, `Unmodelled`
   * a value (the container, the handler instance, the deleted flag) that
   * this model does not represent.
   */
  datatype PropertyValue =
    | Null
    | Unmodelled
    | ClientValue(client: PubSubQueue)
    | MessageValue(message: Message)
    | StringValue(text: string)
    | PayloadValue(payload: Option<JobPayload>)
    | CountValue(count: Option<int>)
    | FlagValue(flag: bool)

  datatype ReflectionError = NoSuchProperty(name: string)

  /** The properties a `PubSubJob` declares or inherits from Laravel's job. */
  const JobProperties: set<string> :=
    {"pubsub", "job", "queue", "connectionName", "maxDeliveryAttempts",
     "usePubsubRetries", "decoded", "released", "failed",
     "container", "instance", "deleted"}

  /** Reading property `name` of `job`, or null when the class has no such property. */
  function Property(job: PubSubJob, name: string): (r: Option<PropertyValue>)
    reads job
    ensures r.Some? <==> name in JobProperties
  {
    match name
    case "pubsub" => Some(ClientValue(job.pubsub))
    case "job" => Some(MessageValue(job.job))
    case "queue" => Some(StringValue(job.queue))
    case "connectionName" => Some(StringValue(job.connectionName))
    case "maxDeliveryAttempts" => Some(CountValue(job.maxDeliveryAttempts))
    case "usePubsubRetries" => Some(FlagValue(job.mode == BrokerNative))
    case "decoded" => Some(PayloadValue(job.decoded))
    case "released" => Some(FlagValue(job.released))
    case "failed" => Some(FlagValue(job.failed))
    case "container" => Some(Unmodelled)
    case "instance" => Some(Unmodelled)
    case "deleted" => Some(Unmodelled)
    case _ => None
  }

  /**
   * The values of the properties named in `props`, in order. A missing
   * property fails the whole selection with the first one missing.
   */
  method GetProperties(job: PubSubJob, props: seq<string>) returns (r: Result<seq<PropertyValue>, ReflectionError>)
    ensures r.Ok? <==> forall i :: 0 <= i < |props| ==> props[i] in JobProperties
    ensures r.Ok? ==> |r.value| == |props|
    ensures r.Ok? ==> forall i :: 0 <= i < |props| ==> Some(r.value[i]) == Property(job, props[i])
    ensures r.Err? ==>
              exists k :: && 0 <= k < |props| && r.error == NoSuchProperty(props[k])
                          && props[k] !in JobProperties
                          && forall i :: 0 <= i < k ==> props[i] in JobProperties
  {
    var properties: seq<PropertyValue> := [];
    for i := 0 to |props|
      invariant |properties| == i
      invariant forall j :: 0 <= j < i ==> props[j] in JobProperties
      invariant forall j :: 0 <= j < i ==> Some(properties[j]) == Property(job, props[j])
    {
      var prop := props[i];
      var value := Property(job, prop);
      if value.None? {
        properties := properties + [Null];
        // Fetching the missing property throws here.
        return Err(NoSuchProperty(prop));
      }
      properties := properties + [value.value];
    }
    r := Ok(properties);
  }

  /**
   * The selection the null appended for a missing property evidently aims
   * at: one value per requested name, in order, null where the job has no
   * such property.
   */
  method GetPropertiesOrNull(job: PubSubJob, props: seq<string>) returns (values: seq<PropertyValue>)
    ensures |values| == |props|
    ensures forall i :: 0 <= i < |props| && props[i] in JobProperties ==> Some(values[i]) == Property(job, props[i])
    ensures forall i :: 0 <= i < |props| && props[i] !in JobProperties ==> values[i] == Null
  {
    values := [];
    for i := 0 to |props|
      invariant |values| == i
      invariant forall j :: 0 <= j < i && props[j] in JobProperties ==> Some(values[j]) == Property(job, props[j])
      invariant forall j :: 0 <= j < i && props[j] !in JobProperties ==> values[j] == Null
    {
      var value := Property(job, props[i]);
      if value.None? {
        values := values + [Null];
      } else {
        values := values + [value.value];
      }
    }
  }

  /** As written, asking for a property the job lacks raises instead of giving null. */
  method MissingPropertyRaises(job: PubSubJob) returns (asWritten: Result<seq<PropertyValue>, ReflectionError>, intended: seq<PropertyValue>)
    ensures asWritten == Err(NoSuchProperty("attempts"))
    ensures intended == [Null]
  {
    var props := ["attempts"];
    assert props[0] !in JobProperties;
    asWritten := GetProperties(job, props);
    intended := GetPropertiesOrNull(job, props);
  }

  /** The calls the hook makes for a job with outcome `failed` over `message` on `queue`. */
  function HookCalls(failed: bool, message: Message, queue: string): (calls: seq<Call>)
    ensures !failed ==> calls == [AcknowledgeCall(message, queue)]
    ensures failed ==> calls == []
  {
    if failed then [] else [AcknowledgeCall(message, queue)]
  }

  /**
   * The `JobProcessed` listener: acknowledge the job's message on its queue
   * when the job did not fail, and make no broker call when it did.
   */
  method AfterJobProcessed(job: PubSubJob)
    modifies job.pubsub
    ensures job.pubsub.calls == old(job.pubsub.calls) + HookCalls(job.failed, job.job, job.queue)
    ensures job.released == old(job.released) && job.failed == old(job.failed)
  {
    var props := ["pubsub", "job", "queue"];
    var selected := GetProperties(job, props);
    assert props[0] in JobProperties && props[1] in JobProperties && props[2] in JobProperties;
    assert selected.Ok?;
    var pubsubQueue := selected.value[0].client;
    var message := selected.value[1].message;
    var queue := selected.value[2].text;
    if job.HasFailed() {
      // Only a log entry is written.
    } else {
      pubsubQueue.Acknowledge(message, queue);
    }
  }

  /** A job marked failed is processed without any call to the broker. */
  method ProcessFailedJob(job: PubSubJob)
    modifies job`failed, job.pubsub
    ensures job.failed && job.pubsub.calls == old(job.pubsub.calls)
  {
    job.MarkAsFailed();
    AfterJobProcessed(job);
  }

  /** What the hook sees of one processed job. */
  datatype Processed = Processed(failed: bool, message: Message, queue: string)

  /** The outcomes of a run of jobs, as the hook sees them. */
  function Events(jobs: seq<PubSubJob>): (events: seq<Processed>)
    reads jobs
    ensures |events| == |jobs|
    ensures forall i :: 0 <= i < |jobs| ==> events[i] == Processed(jobs[i].failed, jobs[i].job, jobs[i].queue)
  {
    if jobs == [] then []
    else
      var last := jobs[|jobs| - 1];
      Events(jobs[..|jobs| - 1]) + [Processed(last.failed, last.job, last.queue)]
  }

  /**
   * The hook run once per processed job, in order, all on one queue
   * client: the client's log grows by exactly the run's `HookLog`.
   */
  method ProcessRun(client: PubSubQueue, jobs: seq<PubSubJob>)
    requires forall i :: 0 <= i < |jobs| ==> jobs[i].pubsub == client
    modifies client
    ensures client.calls == old(client.calls) + HookLog(Events(jobs))
    decreases |jobs|
  {
    if jobs != [] {
      var init := jobs[..|jobs| - 1];
      var last := jobs[|jobs| - 1];
      ProcessRun(client, init);
      ghost var done := client.calls;
      ghost var before := Events(init);
      AfterJobProcessed(last);
      assert Events(init) == before;
      assert Events(jobs) == before + [Processed(last.failed, last.job, last.queue)];
      RunStep(old(client.calls), done, client.calls, before, Processed(last.failed, last.job, last.queue));
    }
  }

  /** One more processed job extends the run's log by that job's calls. */
  lemma RunStep(start: seq<Call>, done: seq<Call>, now: seq<Call>, before: seq<Processed>, e: Processed)
    requires done == start + HookLog(before)
    requires now == done + HookCalls(e.failed, e.message, e.queue)
    ensures now == start + HookLog(before + [e])
  {
    assert (before + [e])[..|before|] == before;
  }

  /** The calls the hook makes over a run of processed jobs, in order. */
  function HookLog(events: seq<Processed>): seq<Call> {
    if events == [] then []
    else
      var last := events[|events| - 1];
      HookLog(events[..|events| - 1]) + HookCalls(last.failed, last.message, last.queue)
  }

  function AcknowledgeCount(calls: seq<Call>): nat {
    if calls == [] then 0
    else AcknowledgeCount(calls[..|calls| - 1]) + (if calls[|calls| - 1].AcknowledgeCall? then 1 else 0)
  }

  function SuccessCount(events: seq<Processed>): nat {
    if events == [] then 0
    else SuccessCount(events[..|events| - 1]) + (if events[|events| - 1].failed then 0 else 1)
  }

  /** Over any run, the hook acknowledges exactly as often as jobs succeed. */
  lemma {:induction false} AcknowledgesMatchSuccesses(events: seq<Processed>)
    ensures AcknowledgeCount(HookLog(events)) == SuccessCount(events)
  {
    if events != [] {
      var init := events[..|events| - 1];
      var last := events[|events| - 1];
      AcknowledgesMatchSuccesses(init);
      if !last.failed {
        var log := HookLog(init) + [AcknowledgeCall(last.message, last.queue)];
        assert log[..|log| - 1] == HookLog(init);
      } else {
        assert HookLog(events) == HookLog(init);
      }
    }
  }

  /** Every call over a run is an acknowledgement of a job that did not fail. */
  lemma {:induction false} HookLogAcknowledgesOnlySuccesses(events: seq<Processed>)
    ensures forall c :: c in HookLog(events) ==>
              exists e :: e in events && !e.failed && c == AcknowledgeCall(e.message, e.queue)
  {
    if events != [] {
      var init := events[..|events| - 1];
      HookLogAcknowledgesOnlySuccesses(init);
      forall c | c in HookLog(events)
        ensures exists e :: e in events && !e.failed && c == AcknowledgeCall(e.message, e.queue)
      {
        if c in HookLog(init) {
          var e :| e in init && !e.failed && c == AcknowledgeCall(e.message, e.queue);
          assert e in events;
        } else {
          assert events[|events| - 1] in events;
        }
      }
    }
  }
}
