/**
  The sender: the per-delivery callback (decode the body, then ack or
  nack it on one uniform draw) and the prefetch-1 consumption of the
  queue by one sender process. The sender never reads or writes the
  stats store.
 */
module Sender {
  import opened Wrappers
  import opened Json
  import Producer

  /** The hard-coded failure rate the uniform draw is compared with. */
  const FailureRate: real := 0.1

  /** A draw of `random.random()`: uniform in [0, 1). */
  type UniformDraw = r: real | 0.0 <= r < 1.0

  /** One delivery handed to the callback: its channel-scoped tag and its body. */
  datatype Delivery = Delivery(tag: nat, body: Text)

  /** The two fields the callback reads out of a body; their JSON kinds are not checked. */
  datatype WorkItem = WorkItem(phoneNumber: Value, message: Value)

  /** The terminal acknowledgement the callback issues for a delivery. */
  datatype Disposition = Ack(deliveryTag: nat) | Nack(deliveryTag: nat, requeue: bool) {
    function Tag(): nat {
      match this
      case Ack(t) => t
      case Nack(t, _) => t
    }
  }

  /** `json.loads(body)` followed by `message_data['phone_number']` and `message_data['message']`. */
  function DecodeBody(body: Text): (r: Result<WorkItem, DecodeError>)
    ensures r.Success? <==> body.Doc? && "phone_number" in body.fields && "message" in body.fields
    ensures r.Success? ==>
              r.value.phoneNumber == body.fields["phone_number"] && r.value.message == body.fields["message"]
    ensures body.Doc? && "phone_number" !in body.fields ==> r == Failure(MissingKey("phone_number"))
    ensures body == Empty || body == Unparsable ==> r == Failure(Malformed)
  {
    match body
    case Empty => Failure(Malformed)
    case Unparsable => Failure(Malformed)
    case NotAnObject => Failure(NoFields)
    case Doc(o) =>
      if "phone_number" !in o then Failure(MissingKey("phone_number"))
      else if "message" !in o then Failure(MissingKey("message"))
      else Success(WorkItem(o["phone_number"], o["message"]))
  }

  /** The outcome rule: a draw below the failure rate fails the send. */
  function Dispose(tag: nat, draw: UniformDraw): (d: Disposition)
    ensures d.Tag() == tag
    ensures d.Nack? <==> draw < FailureRate
    ensures d.Nack? ==> !d.requeue
  {
    if draw < FailureRate then Nack(tag, false) else Ack(tag)
  }

  /**
    `send_message`: a body that does not decode raises before any
    acknowledgement; otherwise exactly one disposition is issued, on the
    delivery's own tag. The simulated sending delay is not modelled.
   */
  function SendMessage(delivery: Delivery, draw: UniformDraw): (r: Result<Disposition, DecodeError>)
    ensures r.Failure? <==> DecodeBody(delivery.body).Failure?
    ensures r.Failure? ==> r.error == DecodeBody(delivery.body).error
    ensures r.Success? ==> r.value.Tag() == delivery.tag
    ensures r.Success? ==> (r.value.Nack? <==> draw < FailureRate)
    ensures r.Success? && r.value.Nack? ==> !r.value.requeue
  {
    var _ :- DecodeBody(delivery.body);
    Success(Dispose(delivery.tag, draw))
  }

  /** Every body the producer publishes decodes into the phone number and message it was built from. */
  lemma ProducedBodiesDecode(phone: string, message: string)
    ensures DecodeBody(Producer.EncodeBody(phone, message)) == Success(WorkItem(Str(phone), Str(message)))
  {
  }

  // ---------------------------------------------------------------------
  // Prefetch-1 consumption
  // ---------------------------------------------------------------------

  /**
    One consumer's view of the queue: the bodies not yet delivered, the at
    most one delivered but unacknowledged item (prefetch 1), the next
    delivery tag of the channel, and the dispositions issued so far.
   */
  datatype Channel = Channel(ready: seq<Text>, unacked: Option<Delivery>, nextTag: nat, issued: seq<Disposition>)

  /** Items still in the queue: ready ones plus the one held unacknowledged. */
  function Depth(c: Channel): nat {
    |c.ready| + (if c.unacked.Some? then 1 else 0)
  }

  /** A fresh channel on a queue holding `queue`; tags start at 1. */
  function Open(queue: seq<Text>): (c: Channel)
    ensures Depth(c) == |queue| && c.unacked.None? && c.issued == []
    ensures c.ready == queue && c.nextTag == 1
  {
    Channel(queue, None, 1, [])
  }

  /**
    The broker's delivery step: the head of the queue goes to the consumer
    only when it holds nothing unacknowledged.
   */
  function Deliver(c: Channel): (c': Channel)
    ensures Depth(c') == Depth(c)
    ensures c.unacked.Some? || c.ready == [] ==> c' == c
    ensures c.unacked.None? && c.ready != [] ==>
              && c'.unacked == Some(Delivery(c.nextTag, c.ready[0]))
              && c'.ready == c.ready[1..]
              && c'.nextTag == c.nextTag + 1
    ensures c'.issued == c.issued
  {
    if c.unacked.Some? || c.ready == [] then c
    else Channel(c.ready[1..], Some(Delivery(c.nextTag, c.ready[0])), c.nextTag + 1, c.issued)
  }

  /**
    The callback on the held delivery: on success the item leaves the
    queue, whether acked or nacked, and its disposition is recorded.
    On a decode error the callback raises and the channel is unchanged.
   */
  function Handle(c: Channel, draw: UniformDraw): (r: Result<Channel, DecodeError>)
    requires c.unacked.Some?
    ensures r.Success? <==> DecodeBody(c.unacked.value.body).Success?
    ensures r.Success? ==>
              && Depth(r.value) == Depth(c) - 1
              && r.value.unacked.None?
              && r.value.ready == c.ready
              && r.value.nextTag == c.nextTag
              && r.value.issued == c.issued + [Dispose(c.unacked.value.tag, draw)]
  {
    var d :- SendMessage(c.unacked.value, draw);
    Success(Channel(c.ready, None, c.nextTag, c.issued + [d]))
  }

  /**
    The connection closes after the callback raised: the broker puts the
    unacknowledged item back at the head of the queue.
   */
  function Requeue(c: Channel): (c': Channel)
    ensures Depth(c') == Depth(c) && c'.unacked.None?
    ensures c.unacked.Some? ==> c'.ready == [c.unacked.value.body] + c.ready
    ensures c'.issued == c.issued && c'.nextTag == c.nextTag
  {
    match c.unacked
    case None => c
    case Some(d) => Channel([d.body] + c.ready, None, c.nextTag, c.issued)
  }

  /**
    `start_sender` on a queue holding `queue`: deliveries are processed one at
    a time until the queue is empty or a body fails to decode, in which case
    the consumer stops and the failing item is back in the queue. The i-th
    processed item uses the i-th uniform draw.
   */
  method Consume(queue: seq<Text>, draws: seq<UniformDraw>) returns (c: Channel, crash: Option<DecodeError>)
    requires |queue| <= |draws|
    ensures c.unacked.None?
    ensures |c.issued| <= |queue|
    ensures c.ready == queue[|c.issued|..]
    ensures Depth(c) == |queue| - |c.issued|
    ensures forall i :: 0 <= i < |c.issued| ==>
              && DecodeBody(queue[i]).Success?
              && c.issued[i] == Dispose(i + 1, draws[i])
    ensures crash.None? <==> |c.issued| == |queue|
    ensures crash.Some? ==> DecodeBody(queue[|c.issued|]) == Failure(crash.value)
  {
    c := Open(queue);
    crash := None;
    while c.ready != [] && crash.None?
      invariant c.unacked.None?
      invariant |c.issued| <= |queue|
      invariant c.ready == queue[|c.issued|..]
      invariant crash.None? ==> c.nextTag == |c.issued| + 1
      invariant forall i :: 0 <= i < |c.issued| ==>
                  && DecodeBody(queue[i]).Success?
                  && c.issued[i] == Dispose(i + 1, draws[i])
      invariant crash.Some? ==> |c.issued| < |queue| && DecodeBody(queue[|c.issued|]) == Failure(crash.value)
      decreases |c.ready|, if crash.None? then 1 else 0
    {
      var k := |c.issued|;
      var held := Deliver(c);
      var r := Handle(held, draws[k]);
      match r {
        case Success(next) =>
          c := next;
        case Failure(e) =>
          c := Requeue(held);
          crash := Some(e);
      }
    }
  }
}
