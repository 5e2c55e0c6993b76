# Pub/Sub queue job adapter for Laravel — a Dafny model

This project models the core of `laravel-pubsub-queue`. That core is the
adapter that presents a Google Cloud Pub/Sub message to Laravel's queue
worker as a job (`PubSubJob`), plus the completion hook the service provider
registers with `Queue::after`.

- `wrappers.dfy`: `Option` (PHP null) and `Result` (PHP exceptions).
- `php_cast.dfy`: the PHP casts the adapter relies on.
  - `ParseInt` is `(int)` on a string: leading whitespace, optional sign, digit prefix, otherwise 0.
  - `IntToString` is `(string)` on an integer.
  - The lemma `ParseIntRoundTrip` proves that reading back what was written gives the same integer.
- `pubsub.dfy`: the broker side.
  - `Message` holds the id, data, string attributes and the optional broker delivery counter.
  - `PubSubQueue` is the queue client as a recording stub: a log of `RepublishCall` / `AcknowledgeCall` entries.
- `jobs.dfy`: the `PubSubJob` class.
  - Fields assigned only by the constructor are `const`.
  - `released` and `failed` are the mutable flags inherited from Laravel's base job.
  - The `usePubsubRetries` flag becomes the `RetryMode` value `BrokerNative` / `ApplicationLevel`.
  - Base64 and JSON decoding are uninterpreted functions held in a `Codec` value given to the constructor.
  - `RawBody` (`getRawBody`) and `Payload` (Laravel's `payload()`) apply them.
  - The payload is decoded once, into `decoded`, at construction.
  - Laravel's own `maxTries()` is modelled as the payload's `maxTries` entry (`DefaultMaxTries`).
- `service_provider.dfy` holds the completion hook and the property selection it uses.
  - `Property` models reading one declared property by name. It replaces reflection.
  - `GetProperties` is the selection loop as written.
  - `GetPropertiesOrNull` is the selection it evidently intends (see Findings).
  - `AfterJobProcessed` is the hook, with `HookCalls` as its per-job effect.
  - `HookLog`, `AcknowledgeCount` and `SuccessCount` describe a run of processed jobs.
  - `ProcessRun` runs the hook over a sequence of jobs and ties the client's log to `HookLog`.
  - `ProcessFailedJob` marks a job failed with Laravel's `markAsFailed()` (`PubSubJob.MarkAsFailed`), then runs the hook.

The source's parameter defaults are kept as Dafny default values:

- `Release` takes `delay := 0`, as at src/Jobs/PubSubJob.php:110.
- The constructor takes `usePubsubRetries := false`, as at src/Jobs/PubSubJob.php:53. It comes last, after the `Codec`, because a defaulted parameter must follow the others.

Two behaviours of the code worth noting:

- The constructor does not fail on a body that does not decode. `GetJobId` then gives null.
- In broker-native mode `Attempts` returns the broker's counter, which may be null. It is not necessarily at least 1.

## Model

| member | source | states |
|---|---|---|
| Jobs.PubSubJob.constructor | src/Jobs/PubSubJob.php:53-64 | stores queue client, message, queue, connection name, max attempts and retry mode as given; `decoded` is the JSON decoding of the base64-decoded message data; not released, not failed |
| Jobs.PubSubJob.RawBody | src/Jobs/PubSubJob.php:81-84 | the base64 decoding of the message data |
| Jobs.PubSubJob.Payload | src/Jobs/PubSubJob.php:63 | Laravel's `payload()`: the JSON decoding of the base64-decoded message data, the value cached at construction |
| Jobs.PubSubJob.GetJobId | src/Jobs/PubSubJob.php:71-74 | when the cached payload is the body's decoding, the id is present exactly when the decoded payload has one, and is that id; otherwise null, never an error |
| Jobs.PubSubJob.Attempts | src/Jobs/PubSubJob.php:91-97 | broker-native: exactly the message's delivery counter; application-level: always an integer, the parsed `attempts` attribute plus one, and 1 when the attribute is absent |
| Jobs.BrokerNativeIgnoresAttributes | src/Jobs/PubSubJob.php:93-95 | in broker-native mode two jobs with the same delivery counter report the same attempts, whatever their attributes |
| Jobs.PubSubJob.DefaultMaxTries | src/Jobs/PubSubJob.php:101 | `parent::maxTries()`: the payload's `maxTries` entry when present, and null when the body does not decode |
| Jobs.PubSubJob.MaxTries | src/Jobs/PubSubJob.php:99-102 | the configured maximum when set, otherwise Laravel's default from the payload |
| Jobs.PubSubJob.Release | src/Jobs/PubSubJob.php:110-125 | broker-native: released flag and client log unchanged; application-level: job marked released and exactly one republish appended, carrying the same message, the job's queue, `{"attempts": (string) attempts()}` and the same delay; the failed flag and, by the frame, every other field unchanged |
| Jobs.RepublishedAttemptsAdvance | src/Jobs/PubSubJob.php:118-122 | a job over a message whose `attempts` attribute is what a release wrote reports one attempt more than the releasing job |
| Jobs.FirstAttemptReleasesOne | src/Jobs/PubSubJob.php:96 | a message never republished reports attempt 1 and its release writes `attempts` = "1" |
| PhpCast.ParseIntRoundTrip | src/Jobs/PubSubJob.php:122 | `(int)` of `(string) n` is `n` for every integer |
| ServiceProvider.Property | src/PubSubQueueServiceProvider.php:42-47 | a property value exists exactly for the names the job class declares or inherits from Laravel's job |
| ServiceProvider.GetProperties | src/PubSubQueueServiceProvider.php:36-50 | succeeds exactly when every requested name is a property, then gives one value per name in order; otherwise fails with the first missing name |
| ServiceProvider.GetPropertiesOrNull | src/PubSubQueueServiceProvider.php:40-49 | one value per requested name, in order: the property's value, or null when it is missing |
| ServiceProvider.MissingPropertyRaises | src/PubSubQueueServiceProvider.php:42-45 | requesting a name the job does not have (`attempts`) raises as written, where null was intended |
| ServiceProvider.HookCalls | src/PubSubQueueServiceProvider.php:27-31 | a single acknowledgement with the message and queue exactly when the job did not fail; no call exactly when it failed |
| ServiceProvider.AfterJobProcessed | src/PubSubQueueServiceProvider.php:25-33 | appends to the job's client log exactly the calls of `HookCalls` for the job's failed flag, message and captured queue; leaves the job's flags unchanged |
| ServiceProvider.ProcessFailedJob | src/PubSubQueueServiceProvider.php:27-28 | a job marked failed, then processed, leaves the client's log unchanged |
| ServiceProvider.Events | src/PubSubQueueServiceProvider.php:26-27 | one event per job, in order, holding the job's failed flag, message and captured queue |
| ServiceProvider.ProcessRun | src/PubSubQueueServiceProvider.php:25-33 | running the hook once per job of a run on one client appends exactly `HookLog` of the run's events to the client's log |
| ServiceProvider.AcknowledgesMatchSuccesses | src/PubSubQueueServiceProvider.php:25-33 | over any run of processed jobs the number of acknowledgements equals the number of jobs that did not fail |
| ServiceProvider.HookLogAcknowledgesOnlySuccesses | src/PubSubQueueServiceProvider.php:27-31 | every call the hook makes over a run acknowledges the message and queue of a job that did not fail |

## Left out

- Laravel's container, the log entries the hook writes and the connector registration in `boot` are framework plumbing and are not modelled.
- AfterJobProcessed assumes a payload that decodes and has a `displayName` entry. Both log calls (src/PubSubQueueServiceProvider.php:28 and :30) read `payload()['displayName']`. On the success path that read comes before the `acknowledge`. Without the entry PHP raises a warning, and Laravel turns it into an exception, so in the code no acknowledgement is made. The model acknowledges every job that did not fail.
- Base64 and JSON decoding are foreign library calls. They are uninterpreted functions (`Codec`). A JSON body that is not an object is modelled as a null payload.
- ParseInt: PHP's exponent forms (`(int)"1e3"` is 1000) and 64-bit saturation are not modelled. Integers are unbounded, so the overflow of `attempts() + 1` beyond `PHP_INT_MAX` is not either.
- The Google `Message` class and the network effects of `republish` and `acknowledge` are I/O. The client is a stub that records calls and always succeeds.
- Republish or acknowledge failures are not modelled, because the stub cannot fail. In the code, `released` is already set when a republish throws. The model therefore cannot tell this ordering from the reverse order.
- `PubSubQueue::republish` is not part of this model. RepublishedAttemptsAdvance assumes only that the republished message carries the `attempts` attribute it was given.
- Property: the reflective lookup is replaced by named field reads. The values of the inherited properties `container`, `instance` and `deleted` are not represented (`Unmodelled`), only their presence.
- AfterJobProcessed takes a `PubSubJob`. `Queue::after` also fires for jobs of other connections. For those, `getProperties` throws on the missing `pubsub` property.
- `release` also accepts dates and intervals as its delay in Laravel. The model takes an integer.
- Broker redelivery, visibility deadlines, concurrency between workers and idempotence of a double acknowledgement belong to the broker and to time. None of them is in the code modelled.

## Findings

| source | as written | input that shows it | evidently intended | confidence | as-written member | corrected member |
|---|---|---|---|---|---|---|
| src/PubSubQueueServiceProvider.php:42-45 | a missing property appends null, then falls through to `getProperty`, which throws | the hook's `getProperties($event->job, ['pubsub', 'job', 'queue'])` for a job of another queue connection, which has no `pubsub` property; on a `PubSubJob`, any name it lacks, such as `attempts` | append null and continue with the next name | medium, not executed | ServiceProvider.GetProperties, ServiceProvider.MissingPropertyRaises | ServiceProvider.GetPropertiesOrNull |

The hook calls GetProperties as written. For a `PubSubJob` the names it requests (`pubsub`, `job`, `queue`) are all declared, and AfterJobProcessed proves that the selection succeeds. The corrected GetPropertiesOrNull is for callers that expect null for a missing name.
