/**
 * The broker side: a Pub/Sub message as the job adapter sees it, and the
 * queue client reduced to a recorder of the calls made on it.
 */
module PubSub {
  import opened Wrappers

  /**
   * A pulled message: its broker id, its (base64) data, its string attributes
   * and the broker's delivery counter, which is only present when the
   * subscription tracks delivery attempts.
   */
  datatype Message = Message(
    id: string,
    data: string,
    attributes: map<string, string>,
    deliveryAttempt: Option<int>)
  {
    /** The value of one attribute, or null when the message does not carry it. */
    function Attribute(key: string): (r: Option<string>)
      ensures r.Some? <==> key in attributes
      ensures r.Some? ==> r.value == attributes[key]
    {
      if key in attributes then Some(attributes[key]) else None
    }
  }

  /** One call made on the queue client. */
  datatype Call =
    | RepublishCall(message: Message, queue: string, attributes: map<string, string>, delay: int)
    | AcknowledgeCall(message: Message, queue: string)

  /**
   * The queue client. Its network effects are not modelled; every call it
   * receives is appended to `calls`.
   */
  class PubSubQueue {
    var calls: seq<Call>

    constructor ()
      ensures calls == []
    {
      calls := [];
    }

    /** Publish a copy of `message` with `attributes`, visible after `delay`. */
    method Republish(message: Message, queue: string, attributes: map<string, string>, delay: int)
      modifies this
      ensures calls == old(calls) + [RepublishCall(message, queue, attributes, delay)]
    {
      calls := calls + [RepublishCall(message, queue, attributes, delay)];
    }

    /** Remove `message` from the subscription of `queue`. */
    method Acknowledge(message: Message, queue: string)
      modifies this
      ensures calls == old(calls) + [AcknowledgeCall(message, queue)]
    {
      calls := calls + [AcknowledgeCall(message, queue)];
    }
  }
}
