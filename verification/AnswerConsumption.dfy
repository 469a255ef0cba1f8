/** The consumers of the stock service's answers: look at an answer, apply it, and only then take it off its queue. */
module AnswerConsumption {
  import opened Prelude
  import opened Items
  import opened Orders
  import opened Effects
  import opened Orchestration
  import opened UseCases

  /** A queue that keeps a message until it is deleted. */
  class AnswerQueue {
    var answers: multiset<Answer>

    method DeleteMessage(answer: Answer, ok: bool) returns (err: Option<Error>)
      modifies this
      ensures err == if ok then None else Some(WriteFailed)
      ensures answers == if ok then old(answers) - multiset{answer} else old(answers)
    {
      if !ok {
        return Some(WriteFailed);
      }
      answers := answers - multiset{answer};
      err := None;
    }
  }

  class AnswerConsumer {
    const queue: AnswerQueue
    const service: Service

    constructor (queue: AnswerQueue, service: Service)
      ensures this.queue == queue && this.service == service
    {
      this.queue, this.service := queue, service;
    }

    ghost predicate Valid()
      reads service.saga.orders
    {
      service.Valid()
    }

    /** Handles one answer; `receipt` and `ackOk` say whether its removal from the queue goes through. The answer leaves
        the queue exactly when no error is reported, and then its saga is no longer the one in flight: it has been
        applied now, or there was nothing left to apply. An answer to a saga that is not in flight changes nothing
        but the queue. */
    method HandleMessage(answer: Answer, receipt: bool, ackOk: bool, now: Time, f: Faults) returns (err: Option<Error>)
      requires Valid()
      modifies queue, service.saga.orders, service.saga.history
      ensures Valid()
      ensures queue.answers == if err.None? then old(queue.answers) - multiset{answer} else old(queue.answers)
      ensures answer.orderId in old(service.saga.orders.rows) ==>
        var e := Consume(old(service.saga.orders.rows[answer.orderId]), answer, now, f);
        && service.saga.Performed(answer.orderId, e)
        && (err.None? <==> e.error.None? && receipt && ackOk)
      ensures answer.orderId !in old(service.saga.orders.rows) ==> service.saga.Untouched() && err.Some?
      ensures err.None? ==>
        && answer.orderId in service.saga.orders.rows
        && service.saga.orders.rows[answer.orderId].Current() != Some(answer.sagaId)
      ensures (answer.orderId in old(service.saga.orders.rows) ==>
          old(service.saga.orders.rows[answer.orderId]).Current() != Some(answer.sagaId)) ==> service.saga.Untouched()
    {
      hide Consume, ProductLines;
      if answer.orderId in service.saga.orders.rows {
        ConsumedIsOver(service.saga.orders.rows[answer.orderId], answer, now, f);
      }
      err := service.HandleAnswer(answer, now, f);
      assert answer.orderId in old(service.saga.orders.rows) ==>
        old(service.saga.orders.rows)[answer.orderId := old(service.saga.orders.rows[answer.orderId])] ==
          old(service.saga.orders.rows);
      if err.Some? {
        return;
      }
      if !receipt {
        return Some(MissingReceipt);
      }
      err := queue.DeleteMessage(answer, ackOk);
    }
  }

  /** An answer dealt with without error is of no saga that is still in flight; one of another saga changes nothing. */
  lemma ConsumedIsOver(o: Order, answer: Answer, now: Time, f: Faults)
    ensures var e := Consume(o, answer, now, f);
      && (e.error.None? ==> e.order.Current() != Some(answer.sagaId))
      && (o.Current() != Some(answer.sagaId) ==> e.order == o && e.entries == [] && e.published == [])
  {
  }
}
