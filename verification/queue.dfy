/** The single-slot admission queue in front of the GPU server (server.js).
    `enqueueJob` pushes a job with its promise callbacks onto `videoQueue`
    and calls `processQueue`; `processQueue` does nothing while a job is
    running or when the queue is empty, and otherwise shifts the head entry,
    sets `isProcessing` and runs it; when the job returns or throws, exactly
    that entry's promise is settled, `isProcessing` is cleared and the next
    head, if any, is started. The asynchronous steps are modelled as a
    sequence of events: Submit, ProcessQueue and Complete. */
module AdmissionQueue {
  import opened Wrappers

  /** A queued job with the promise it settles, identified by its ticket. */
  datatype Entry<J> = Entry(ticket: nat, job: J)

  /** How a job ended: the value it returned or the error it threw. */
  datatype Outcome<V> = Returned(value: V) | Threw(error: string)

  /** One call of an entry's `resolve` or `reject`. */
  datatype Settlement<V> = Resolved(ticket: nat, value: V) | Rejected(ticket: nat, error: string)

  /** `resolve(result)` when the job returned, `reject(err)` when it threw. */
  function Settle<V>(ticket: nat, outcome: Outcome<V>): (s: Settlement<V>)
    ensures s.ticket == ticket
    ensures s.Resolved? <==> outcome.Returned?
    ensures s.Resolved? ==> s.value == outcome.value
    ensures s.Rejected? ==> s.error == outcome.error
  {
    match outcome
    case Returned(v) => Resolved(ticket, v)
    case Threw(e) => Rejected(ticket, e)
  }

  class VideoQueue<J, V> {
    /** `videoQueue`: entries waiting to start, head first. */
    var pending: seq<Entry<J>>
    /** `isProcessing`. */
    var isProcessing: bool
    /** The entry whose job is being awaited. */
    var inService: Option<Entry<J>>
    /** The ticket the next submitted entry gets. */
    var nextTicket: nat
    /** Every `resolve`/`reject` call so far, in order. */
    var settled: seq<Settlement<V>>
    /** Every entry ever submitted, in submission order. */
    ghost var submitted: seq<Entry<J>>
    /** Every entry ever started, in start order. */
    ghost var started: seq<Entry<J>>

    /** The state between two steps of one event: entries start in submission
        order, tickets number the submissions, at most one started entry is
        unsettled and it is the one in service, and settlements come in start
        order. */
    ghost predicate Consistent()
      reads this
    {
      && submitted == started + pending
      && nextTicket == |submitted|
      && (forall i :: 0 <= i < |submitted| ==> submitted[i].ticket == i)
      && (isProcessing <==> inService.Some?)
      && (isProcessing ==> |started| > 0 && inService.value == started[|started| - 1])
      && |settled| == (if isProcessing then |started| - 1 else |started|)
      && (forall i :: 0 <= i < |settled| ==> settled[i].ticket == started[i].ticket)
    }

    /** Between events, additionally, nothing waits while the slot is free. */
    ghost predicate Valid()
      reads this
    {
      Consistent() && (!isProcessing ==> pending == [])
    }

    constructor ()
      ensures Valid()
      ensures pending == [] && !isProcessing && inService == None && settled == [] && submitted == []
    {
      pending := [];
      isProcessing := false;
      inService := None;
      nextTicket := 0;
      settled := [];
      submitted := [];
      started := [];
    }

    /** `enqueueJob`: the entry goes to the tail, the entries already waiting
        keep their order, and it starts at once when the slot is free. */
    method Submit(job: J) returns (ticket: nat)
      requires Valid()
      modifies this
      ensures Valid()
      ensures ticket == old(nextTicket)
      ensures submitted == old(submitted) + [Entry(ticket, job)]
      ensures settled == old(settled)
      ensures nextTicket == old(nextTicket) + 1 && isProcessing
      ensures old(isProcessing) ==>
        && pending == old(pending) + [Entry(ticket, job)] && inService == old(inService)
        && started == old(started)
      ensures !old(isProcessing) ==>
        && pending == [] && inService == Some(Entry(ticket, job))
        && started == old(started) + [Entry(ticket, job)]
    {
      ticket := nextTicket;
      pending := pending + [Entry(ticket, job)];
      submitted := submitted + [Entry(ticket, job)];
      nextTicket := nextTicket + 1;
      ProcessQueue();
    }

    /** `processQueue`: a no-op while a job runs or when nothing waits;
        otherwise exactly the head entry is removed and put in service. */
    method ProcessQueue()
      requires Consistent()
      modifies this
      ensures Valid()
      ensures old(isProcessing) || old(pending) == [] ==> unchanged(this)
      ensures !old(isProcessing) && old(pending) != [] ==>
        && isProcessing && inService == Some(old(pending)[0])
        && pending == old(pending)[1..]
        && started == old(started) + [old(pending)[0]]
      ensures settled == old(settled) && submitted == old(submitted) && nextTicket == old(nextTicket)
    {
      if isProcessing {
        return;
      }
      if |pending| == 0 {
        return;
      }
      var item := pending[0];
      pending := pending[1..];
      isProcessing := true;
      inService := Some(item);
      started := started + [item];
    }

    /** The end of the running job, whether it returned or threw: only its own
        promise is settled, the slot is freed, and the next head starts. */
    method Complete(outcome: Outcome<V>)
      requires Valid() && isProcessing
      modifies this
      ensures Valid()
      ensures settled == old(settled) + [Settle(old(inService).value.ticket, outcome)]
      ensures submitted == old(submitted) && nextTicket == old(nextTicket)
      ensures old(pending) == [] ==> !isProcessing && pending == [] && inService == None
      ensures old(pending) != [] ==> isProcessing && inService == Some(old(pending)[0]) && pending == old(pending)[1..]
    {
      var item := inService.value;
      settled := settled + [Settle(item.ticket, outcome)];
      isProcessing := false;
      inService := None;
      if |pending| > 0 {
        ProcessQueue();
      }
    }

    /** First in, first out: entries start in submission order, the promises
        are settled in submission order, and the entry in service is the
        first one not yet settled. */
    lemma FifoOrder()
      requires Consistent()
      ensures started == submitted[..|started|]
      ensures forall i :: 0 <= i < |settled| ==> settled[i].ticket == i
      ensures inService.Some? ==> inService.value.ticket == |settled|
      ensures forall i :: 0 <= i < |pending| ==> pending[i].ticket == |started| + i
    {
      assert submitted[..|started|] == started;
      forall i | 0 <= i < |settled| ensures settled[i].ticket == i {
        assert started[i] == submitted[i];
      }
      if inService.Some? {
        assert submitted[|started| - 1] == started[|started| - 1];
      }
      forall i | 0 <= i < |pending| ensures pending[i].ticket == |started| + i {
        assert submitted[|started| + i] == pending[i];
      }
    }
  }
}
