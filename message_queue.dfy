/**
 * The nRF52840 message bus (`MessageQueue` over a Zephyr `k_msgq`): posting
 * copies a `Message` into a bounded queue without waiting, and a post that
 * finds the queue full, or no queue at all, is dropped.
 */
module Zephyr {
  import opened Msg

  /** Zephyr's `ENOMSG`, returned negated by `k_msgq_put` on a full queue. */
  const ENOMSG: int := 35

  /** A Zephyr message queue of `Message` records holding at most `maxMsgs` of them. */
  class KMsgq {
    const maxMsgs: nat
    var contents: seq<Message>

    ghost predicate Valid()
      reads this
    {
      |contents| <= maxMsgs
    }

    /** `K_MSGQ_DEFINE(name, sizeof(Message), maxMsgs, align)`: an empty queue. */
    constructor(maxMsgs: nat)
      ensures Valid() && this.maxMsgs == maxMsgs && contents == []
    {
      this.maxMsgs := maxMsgs;
      contents := [];
    }

    /** `k_msgq_put(q, &msg, K_NO_WAIT)`: appends if there is room, otherwise answers `-ENOMSG`. */
    method Put(msg: Message) returns (r: int)
      requires Valid()
      modifies this
      ensures Valid()
      ensures contents == Enqueued(old(contents), maxMsgs, msg)
      ensures r == if |old(contents)| < maxMsgs then 0 else -ENOMSG
    {
      if |contents| < maxMsgs {
        contents := contents + [msg];
        r := 0;
      } else {
        r := -ENOMSG;
      }
    }
  }

  /** The contents of a queue of capacity `maxMsgs` after posting `msg` without waiting. */
  function Enqueued(contents: seq<Message>, maxMsgs: nat, msg: Message): (r: seq<Message>)
    requires |contents| <= maxMsgs
    ensures |r| <= maxMsgs
    ensures |contents| < maxMsgs <==> r == contents + [msg]
    ensures |contents| == maxMsgs <==> r == contents
  {
    if |contents| < maxMsgs then contents + [msg] else contents
  }

  /** Posting never reorders or loses what was already queued: the old contents stay a prefix. */
  lemma {:induction false} EnqueuedKeepsPrefix(contents: seq<Message>, maxMsgs: nat, msgs: seq<Message>)
    requires |contents| <= maxMsgs
    ensures contents <= EnqueueAll(contents, maxMsgs, msgs)
    ensures |EnqueueAll(contents, maxMsgs, msgs)| == Min(maxMsgs, |contents| + |msgs|)
    decreases |msgs|
  {
    if |msgs| > 0 {
      EnqueuedKeepsPrefix(Enqueued(contents, maxMsgs, msgs[0]), maxMsgs, msgs[1..]);
    }
  }

  function Min(a: int, b: int): int
  {
    if a < b then a else b
  }

  /** The contents after posting each of `msgs` in turn. */
  function EnqueueAll(contents: seq<Message>, maxMsgs: nat, msgs: seq<Message>): (r: seq<Message>)
    requires |contents| <= maxMsgs
    ensures |r| <= maxMsgs
    decreases |msgs|
  {
    if |msgs| == 0 then contents
    else EnqueueAll(Enqueued(contents, maxMsgs, msgs[0]), maxMsgs, msgs[1..])
  }

  /**
   * `MessageQueue`: a poster bound to one queue, which may be NULL. Every
   * post waits `K_NO_WAIT`, and the result of `k_msgq_put` is ignored.
   */
  class MessageQueue {
    const queueRef: KMsgq?

    /** `MessageQueue(queue)`. */
    constructor(queue: KMsgq?)
      ensures queueRef == queue
    {
      queueRef := queue;
    }

    /** `queue()`. */
    function Queue(): (q: KMsgq?)
      ensures q == queueRef
    {
      queueRef
    }

    /** `postEvent(queue, msg)`: a NULL queue drops the message. */
    method PostMessageTo(q: KMsgq?, msg: Message)
      requires q != null ==> q.Valid()
      modifies q
      ensures q != null ==> q.Valid() && q.contents == Enqueued(old(q.contents), q.maxMsgs, msg)
    {
      if q == null {
        return;
      }
      var _ := q.Put(msg);
    }

    /** `postEvent(queue, event, iParam, uParam, lParam)`, parameters defaulting to 0. */
    method PostEventTo(q: KMsgq?, event: int16, iParam: int16 := 0, uParam: uint16 := 0, lParam: uint32 := 0)
      requires q != null ==> q.Valid()
      modifies q
      ensures q != null ==>
        q.Valid() && q.contents == Enqueued(old(q.contents), q.maxMsgs, Message(event, iParam, uParam, lParam))
    {
      PostMessageTo(q, Post(event, iParam, uParam, lParam));
    }

    /** `postEvent(event, iParam, uParam, lParam)` on the bound queue. */
    method PostEvent(event: int16, iParam: int16 := 0, uParam: uint16 := 0, lParam: uint32 := 0)
      requires queueRef != null ==> queueRef.Valid()
      modifies queueRef
      ensures queueRef != null ==>
        queueRef.Valid() && queueRef.contents == Enqueued(old(queueRef.contents), queueRef.maxMsgs, Message(event, iParam, uParam, lParam))
    {
      PostEventTo(Queue(), event, iParam, uParam, lParam);
    }

    /** `postEvent(msg)` on the bound queue. */
    method PostMessage(msg: Message)
      requires queueRef != null ==> queueRef.Valid()
      modifies queueRef
      ensures queueRef != null ==>
        queueRef.Valid() && queueRef.contents == Enqueued(old(queueRef.contents), queueRef.maxMsgs, msg)
    {
      PostMessageTo(Queue(), msg);
    }
  }
}
