/**
 * The job adapter: one pulled Pub/Sub message presented to Laravel's worker
 * as a queue job.
 */
module Jobs {
  import opened Wrappers
  import opened PubSub
  import PhpCast

  /**
   * The fields of the decoded job payload that the adapter and the hook read.
   * `displayName` is the entry the hook's log lines read
   * (src/PubSubQueueServiceProvider.php:28 and :30); the model keeps it but
   * does not use it, since it leaves the log entries out.
   */
  datatype JobPayload = JobPayload(id: Option<string>, displayName: Option<string>, maxTries: Option<int>)

  /**
   * The two foreign decoders: `base64_decode` on the message data and
   * `json_decode` of the result (None when the body is not a JSON object).
   */
  datatype Codec = Codec(base64Decode: string -> string, jsonDecode: string -> Option<JobPayload>)

  /**
   * Who counts delivery attempts: the broker (`usePubsubRetries` set) or the
   * adapter itself, through the `attempts` attribute of republished messages.
   */
  datatype RetryMode = BrokerNative | ApplicationLevel

  class PubSubJob {
    const pubsub: PubSubQueue
    const job: Message
    const queue: string
    const connectionName: string
    const maxDeliveryAttempts: Option<int>
    const mode: RetryMode
    const codec: Codec
    /** The payload as decoded once, at construction. */
    const decoded: Option<JobPayload>
    /** Flags inherited from Laravel's base job. */
    var released: bool
    var failed: bool

    constructor (pubsub: PubSubQueue, job: Message, connectionName: string, queue: string,
                 maxDeliveryAttempts: Option<int>, codec: Codec, usePubsubRetries: bool := false)
      ensures this.pubsub == pubsub && this.job == job && this.queue == queue
      ensures this.connectionName == connectionName && this.maxDeliveryAttempts == maxDeliveryAttempts
      ensures mode == (if usePubsubRetries then BrokerNative else ApplicationLevel)
      ensures this.codec == codec
      ensures decoded == codec.jsonDecode(codec.base64Decode(job.data))
      ensures Valid()
      ensures !released && !failed
    {
      this.pubsub := pubsub;
      this.job := job;
      this.queue := queue;
      this.connectionName := connectionName;
      this.maxDeliveryAttempts := maxDeliveryAttempts;
      this.mode := if usePubsubRetries then BrokerNative else ApplicationLevel;
      this.codec := codec;
      this.decoded := codec.jsonDecode(codec.base64Decode(job.data));
      this.released := false;
      this.failed := false;
    }

    /** The cached payload is the decoding of the message body. */
    predicate Valid() {
      decoded == Payload()
    }

    /** The body of the message with its base64 encoding removed. */
    function RawBody(): (body: string)
      ensures body == codec.base64Decode(job.data)
    {
      codec.base64Decode(job.data)
    }

    /** Laravel's `payload()`: the raw body decoded afresh on every call. */
    function Payload(): (p: Option<JobPayload>)
      ensures p == codec.jsonDecode(codec.base64Decode(job.data))
    {
      codec.jsonDecode(RawBody())
    }

    /** The `id` of the payload decoded at construction, or null. */
    function GetJobId(): (id: Option<string>)
      ensures Valid() ==> (id.Some? <==> Payload().Some? && Payload().value.id.Some?)
      ensures Valid() && id.Some? ==> id == Payload().value.id
    {
      match decoded
      case None => None
      case Some(p) => p.id
    }

    /** The number of the current attempt. */
    function Attempts(): (n: Option<int>)
      ensures mode == BrokerNative ==> n == job.deliveryAttempt
      ensures mode == ApplicationLevel ==> n.Some?
      ensures mode == ApplicationLevel && "attempts" in job.attributes ==>
                n.value == PhpCast.ParseInt(job.attributes["attempts"]) + 1
      ensures mode == ApplicationLevel && "attempts" !in job.attributes ==> n.value == 1
    {
      match mode
      case BrokerNative => job.deliveryAttempt
      case ApplicationLevel =>
        var stored := match job.Attribute("attempts")
                      case None => 0
                      case Some(s) => PhpCast.ParseInt(s);
        Some(stored + 1)
    }

    /** Laravel's own `maxTries()`: the payload's `maxTries`, or null. */
    function DefaultMaxTries(): (r: Option<int>)
      ensures Payload().Some? ==> r == Payload().value.maxTries
      ensures Payload().None? ==> r.None?
    {
      match Payload()
      case None => None
      case Some(p) => p.maxTries
    }

    /** The configured ceiling on attempts, falling back to Laravel's default. */
    function MaxTries(): (r: Option<int>)
      ensures maxDeliveryAttempts.Some? ==> r == maxDeliveryAttempts
      ensures maxDeliveryAttempts.None? ==> r == DefaultMaxTries()
    {
      if maxDeliveryAttempts.Some? then maxDeliveryAttempts else DefaultMaxTries()
    }

    /** The attributes an application-level release republishes with. */
    function ReleaseAttributes(): (attrs: map<string, string>)
      requires mode == ApplicationLevel
      ensures attrs.Keys == {"attempts"}
    {
      map["attempts" := PhpCast.IntToString(Attempts().value)]
    }

    function HasFailed(): bool
      reads this
    {
      failed
    }

    /** Laravel's `markAsFailed()`. */
    method MarkAsFailed()
      modifies this`failed
      ensures failed && released == old(released)
    {
      failed := true;
    }

    /**
     * Put the job back on the queue. With broker-native retries this does
     * nothing; otherwise the job is marked released and the same message is
     * republished carrying the current attempt number.
     */
    method Release(delay: int := 0)
      modifies this`released, pubsub
      ensures mode == BrokerNative ==> released == old(released) && pubsub.calls == old(pubsub.calls)
      ensures mode == ApplicationLevel ==> released
      ensures mode == ApplicationLevel ==>
                pubsub.calls == old(pubsub.calls) + [RepublishCall(job, queue, ReleaseAttributes(), delay)]
      ensures failed == old(failed)
    {
      if mode == BrokerNative {
        return;
      }
      released := true;
      var attempts := Attempts();
      pubsub.Republish(job, queue, map["attempts" := PhpCast.IntToString(attempts.value)], delay);
    }
  }

  /**
   * A job over a message whose `attempts` attribute is the one a release
   * republished reports one attempt more than the job that released it.
   */
  lemma RepublishedAttemptsAdvance(released: PubSubJob, next: PubSubJob)
    requires released.mode == ApplicationLevel && next.mode == ApplicationLevel
    requires "attempts" in next.job.attributes
    requires next.job.attributes["attempts"] == released.ReleaseAttributes()["attempts"]
    ensures next.Attempts() == Some(released.Attempts().value + 1)
  {
    PhpCast.ParseIntRoundTrip(released.Attempts().value);
  }

  /**
   * A message that has never been republished reports attempt 1, and its
   * release republishes it with `attempts` set to "1".
   */
  lemma FirstAttemptReleasesOne(first: PubSubJob)
    requires first.mode == ApplicationLevel && "attempts" !in first.job.attributes
    ensures first.Attempts() == Some(1)
    ensures first.ReleaseAttributes() == map["attempts" := "1"]
  {
    assert PhpCast.IntToString(1) == [PhpCast.DigitChar(1)];
  }

  /** With broker-native retries the attempt number ignores the attributes. */
  lemma BrokerNativeIgnoresAttributes(a: PubSubJob, b: PubSubJob)
    requires a.mode == BrokerNative && b.mode == BrokerNative
    requires a.job.deliveryAttempt == b.job.deliveryAttempt
    ensures a.Attempts() == b.Attempts()
  {
  }
}
