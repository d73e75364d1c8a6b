/**
  The dispatch side of main.go, run one step at a time: the shared job queue,
  the two halves of one inbound message of a client's read pump (enqueue the
  job, then send its acknowledgement), and one iteration of a worker. Any step
  may run between the two halves. Blocking sends become "not full"
  preconditions. A ghost trace records, in order, every enqueue, dequeue and
  outbox append.
*/
module Dispatch {
  import opened Wrappers
  import opened Types
  import opened Worker
  import opened JobIds

  /** What happened to the queue and to the outboxes, in order. */
  datatype Event =
    | Enqueue(job: DownloadJob)
    | Dequeue(job: DownloadJob)
    | Deliver(to: Client, result: DownloadResult)

  /** The acknowledgement the read pump sends for a job it has queued. */
  function QueuedAck(job: DownloadJob): DownloadResult
  {
    DownloadResult(job.id, job.url, "", StatusQueued, MsgQueued, "", "")
  }

  /** The jobs put on the queue, in submission order. */
  ghost function Enqueued(t: seq<Event>): seq<DownloadJob>
  {
    if t == [] then []
    else Enqueued(t[..|t| - 1]) + (if t[|t| - 1].Enqueue? then [t[|t| - 1].job] else [])
  }

  /** The jobs taken off the queue by workers, in the order they were taken. */
  ghost function Dequeued(t: seq<Event>): seq<DownloadJob>
  {
    if t == [] then []
    else Dequeued(t[..|t| - 1]) + (if t[|t| - 1].Dequeue? then [t[|t| - 1].job] else [])
  }

  /** The k-th submitted job carries the k-th id. */
  ghost predicate IssuedInOrder(t: seq<Event>)
  {
    forall k :: 0 <= k < |Enqueued(t)| ==> Enqueued(t)[k].id == JobId(k)
  }

  /** Some submitted job with id `id` belongs to client `c`. */
  ghost predicate OwnedBy(jobs: seq<DownloadJob>, c: Client, id: string)
  {
    exists j :: 0 <= j < |jobs| && jobs[j].client == c && jobs[j].id == id
  }

  /**
    Every outbox append comes after a job with the result's id was put on the
    queue, and goes to the client that submitted that job.
  */
  ghost predicate Routed(t: seq<Event>)
  {
    forall i :: 0 <= i < |t| && t[i].Deliver? ==> OwnedBy(Enqueued(t[..i]), t[i].to, t[i].result.jobId)
  }

  lemma EnqueuedSnoc(t: seq<Event>, e: Event)
    ensures Enqueued(t + [e]) == if e.Enqueue? then Enqueued(t) + [e.job] else Enqueued(t)
    ensures Dequeued(t + [e]) == if e.Dequeue? then Dequeued(t) + [e.job] else Dequeued(t)
  {
  }

  /** The jobs enqueued by a prefix of the trace are a prefix of those of the whole trace. */
  lemma {:induction false} EnqueuedPrefix(t: seq<Event>, i: nat)
    requires i <= |t|
    ensures Enqueued(t[..i]) <= Enqueued(t)
    decreases |t| - i
  {
    if i == |t| {
      assert t[..i] == t;
    } else {
      var s := t[..|t| - 1];
      assert s[..i] == t[..i];
      EnqueuedPrefix(s, i);
    }
  }

  /** Every enqueued job has its own `Enqueue` event in the trace. */
  lemma {:induction false} EnqueuedFrom(t: seq<Event>, j: nat)
    requires j < |Enqueued(t)|
    ensures exists k :: 0 <= k < |t| && t[k] == Enqueue(Enqueued(t)[j])
    decreases |t|
  {
    var s := t[..|t| - 1];
    if j < |Enqueued(s)| {
      EnqueuedFrom(s, j);
      var k :| 0 <= k < |s| && s[k] == Enqueue(Enqueued(s)[j]);
      assert t[k] == s[k];
    } else {
      assert t[|t| - 1] == Enqueue(Enqueued(t)[j]);
    }
  }

  lemma RoutedSnoc(t: seq<Event>, e: Event)
    requires Routed(t)
    requires e.Deliver? ==> OwnedBy(Enqueued(t), e.to, e.result.jobId)
    ensures Routed(t + [e])
  {
    var t' := t + [e];
    forall i | 0 <= i < |t'| && t'[i].Deliver?
      ensures OwnedBy(Enqueued(t'[..i]), t'[i].to, t'[i].result.jobId)
    {
      if i < |t| {
        assert t'[..i] == t[..i];
      } else {
        assert t'[..i] == t;
      }
    }
  }

  /** Job ids are never reused: no two submitted jobs share an id. */
  lemma JobIdsUnique(t: seq<Event>)
    requires IssuedInOrder(t)
    ensures forall i, j :: 0 <= i < j < |Enqueued(t)| ==> Enqueued(t)[i].id != Enqueued(t)[j].id
  {
    forall i, j | 0 <= i < j < |Enqueued(t)|
      ensures Enqueued(t)[i].id != Enqueued(t)[j].id
    {
      JobIdInjective(i, j);
    }
  }

  /**
    Every outbox append, the "queued" acknowledgement included, comes after the
    enqueue of a job with the result's id by the same client.
  */
  lemma DeliveryFollowsEnqueue(t: seq<Event>, i: nat)
    requires Routed(t) && i < |t| && t[i].Deliver?
    ensures exists k :: 0 <= k < i && t[k].Enqueue? && t[k].job.client == t[i].to && t[k].job.id == t[i].result.jobId
  {
    var p := t[..i];
    var j :| 0 <= j < |Enqueued(p)| && Enqueued(p)[j].client == t[i].to && Enqueued(p)[j].id == t[i].result.jobId;
    EnqueuedFrom(p, j);
    var k :| 0 <= k < |p| && p[k] == Enqueue(Enqueued(p)[j]);
    assert t[k] == p[k];
  }

  /** A result reaches only the client that submitted the job it answers. */
  lemma ResultsReachOwner(t: seq<Event>, i: nat, j: nat)
    requires IssuedInOrder(t) && Routed(t)
    requires i < |t| && t[i].Deliver?
    requires j < |Enqueued(t)| && Enqueued(t)[j].id == t[i].result.jobId
    ensures t[i].to == Enqueued(t)[j].client
  {
    var jobs := Enqueued(t[..i]);
    var j' :| 0 <= j' < |jobs| && jobs[j'].client == t[i].to && jobs[j'].id == t[i].result.jobId;
    EnqueuedPrefix(t, i);
    assert Enqueued(t)[j'] == jobs[j'];
    JobIdsUnique(t);
    assert j' == j;
  }

  /** Workers have taken exactly the oldest submitted jobs, in submission order. */
  lemma TakenInSubmissionOrder(queue: seq<DownloadJob>, nextId: nat, t: seq<Event>)
    requires Inv(queue, nextId, t)
    ensures |Dequeued(t)| + |queue| == nextId
    ensures Dequeued(t) == Enqueued(t)[..|Dequeued(t)|]
    ensures queue == Enqueued(t)[|Dequeued(t)|..]
  {
  }

  lemma IssuedSnoc(t: seq<Event>, e: Event)
    requires IssuedInOrder(t)
    requires e.Enqueue? ==> e.job.id == JobId(|Enqueued(t)|)
    ensures IssuedInOrder(t + [e])
  {
  }

  /**
    The dispatch invariant over the queue, the id counter and the trace: the queue
    is bounded; first in, first out (workers take jobs exactly in submission order);
    the k-th submitted job carries the k-th id; every outbox append follows the
    enqueue of its job and goes to that job's client.
  */
  ghost predicate Inv(queue: seq<DownloadJob>, nextId: nat, t: seq<Event>)
  {
    && |queue| <= QueueCapacity
    && Enqueued(t) == Dequeued(t) + queue
    && |Enqueued(t)| == nextId
    && IssuedInOrder(t)
    && Routed(t)
  }

  /** Putting a job with the next id at the back of the queue keeps the invariant. */
  lemma {:induction false} SubmitKeepsInv(queue: seq<DownloadJob>, nextId: nat, t: seq<Event>, job: DownloadJob)
    requires Inv(queue, nextId, t) && |queue| < QueueCapacity
    requires job.id == JobId(nextId)
    ensures Inv(queue + [job], nextId + 1, t + [Enqueue(job)])
    ensures Enqueued(t + [Enqueue(job)]) == Enqueued(t) + [job]
    ensures OwnedBy(Enqueued(t + [Enqueue(job)]), job.client, job.id)
  {
    EnqueuedSnoc(t, Enqueue(job));
    IssuedSnoc(t, Enqueue(job));
    RoutedSnoc(t, Enqueue(job));
    assert Enqueued(t + [Enqueue(job)])[nextId] == job;
  }

  /** Taking the head job off the queue keeps the invariant; that job was submitted by its client. */
  lemma TakeKeepsInv(queue: seq<DownloadJob>, nextId: nat, t: seq<Event>)
    requires Inv(queue, nextId, t) && queue != []
    ensures Enqueued(t + [Dequeue(queue[0])]) == Enqueued(t)
    ensures OwnedBy(Enqueued(t + [Dequeue(queue[0])]), queue[0].client, queue[0].id)
    ensures Inv(queue[1..], nextId, t + [Dequeue(queue[0])])
  {
    EnqueuedSnoc(t, Dequeue(queue[0]));
    RoutedSnoc(t, Dequeue(queue[0]));
    assert Enqueued(t)[|Dequeued(t)|] == queue[0];
  }

  /** Appending a result to the outbox of the client that submitted its job keeps the invariant. */
  lemma DeliverKeepsInv(queue: seq<DownloadJob>, nextId: nat, t: seq<Event>, c: Client, r: DownloadResult)
    requires Inv(queue, nextId, t) && OwnedBy(Enqueued(t), c, r.jobId)
    ensures Enqueued(t + [Deliver(c, r)]) == Enqueued(t)
    ensures Inv(queue, nextId, t + [Deliver(c, r)])
  {
    EnqueuedSnoc(t, Deliver(c, r));
    RoutedSnoc(t, Deliver(c, r));
  }

  /** The process-wide dispatch state: the job queue and the id counter. */
  class Server {
    var jobQueue: seq<DownloadJob>
    var nextId: nat
    ghost var trace: seq<Event>

    ghost predicate Valid()
      reads this
    {
      Inv(jobQueue, nextId, trace)
    }

    constructor ()
      ensures Valid() && jobQueue == [] && nextId == 0 && trace == []
    {
      jobQueue := [];
      nextId := 0;
      trace := [];
    }

    /**
      The first half of one message read by client `c`'s read pump, already
      decoded (None when it is not a valid request). A request becomes a job
      with a fresh id at the back of the queue; its "queued" acknowledgement is
      then pending in the read pump until `Acknowledge` sends it.
    */
    method HandleMessage(c: Client, msg: Option<JobRequest>)
      requires Valid() && c.pendingAck == None
      requires msg.Some? ==> |jobQueue| < QueueCapacity
      modifies this, c`pendingAck
      ensures Valid()
      ensures msg.None? ==>
        jobQueue == old(jobQueue) && nextId == old(nextId) && trace == old(trace) && c.pendingAck == None
      ensures msg.Some? ==>
        var job := DownloadJob(JobId(old(nextId)), msg.value.url, msg.value.wantsVideo,
                               msg.value.wantsAudio, msg.value.wantsHQ, c);
        && jobQueue == old(jobQueue) + [job]
        && nextId == old(nextId) + 1
        && trace == old(trace) + [Enqueue(job)]
        && Enqueued(trace) == Enqueued(old(trace)) + [job]
        && c.pendingAck == Some(QueuedAck(job))
        && OwnedBy(Enqueued(trace), c, job.id)
    {
      if msg == None {
        return;
      }
      var req := msg.value;
      var jobId := JobId(nextId);
      var job := DownloadJob(jobId, req.url, req.wantsVideo, req.wantsAudio, req.wantsHQ, c);
      SubmitKeepsInv(jobQueue, nextId, trace, job);
      nextId := nextId + 1;
      jobQueue := jobQueue + [job];
      trace := trace + [Enqueue(job)];
      c.pendingAck := Some(DownloadResult(jobId, req.url, "", StatusQueued, MsgQueued, "", ""));
    }

    /**
      The second half: the read pump sends its pending "queued" acknowledgement
      to its own outbox and goes back to reading. The job it acknowledges was
      enqueued by `c` (as `HandleMessage` ensures), but may already have been
      taken and answered by a worker.
    */
    method Acknowledge(c: Client)
      requires Valid() && c.Valid() && c.pendingAck.Some?
      requires OwnedBy(Enqueued(trace), c, c.pendingAck.value.jobId)
      requires |c.send| < SendCapacity
      modifies this`trace, c
      ensures Valid() && c.Valid()
      ensures c.send == old(c.send) + [old(c.pendingAck.value)] && c.pendingAck == None
      ensures trace == old(trace) + [Deliver(c, old(c.pendingAck.value))]
      ensures Enqueued(trace) == Enqueued(old(trace))
    {
      var statusUpdate := c.pendingAck.value;
      DeliverKeepsInv(jobQueue, nextId, trace, c, statusUpdate);
      c.Push(statusUpdate);
      c.pendingAck := None;
      trace := trace + [Deliver(c, statusUpdate)];
    }

    /**
      One iteration of a worker: take the head job and send its single outcome
      to the job's own client, or stop the process when the outcome is a panic.
    */
    method WorkerStep(urlMatch: string -> Option<string>, fetchApi: DownloadContext -> ApiResult)
      returns (crashed: bool)
      requires Valid() && jobQueue != [] && jobQueue[0].client.Valid()
      requires Decide(jobQueue[0], urlMatch, fetchApi).Send? ==> |jobQueue[0].client.send| < SendCapacity
      modifies this, jobQueue[0].client
      ensures Valid()
      ensures
        var job := old(jobQueue[0]);
        && job.client.Valid()
        && job.client.pendingAck == old(job.client.pendingAck)
        && jobQueue == old(jobQueue[1..])
        && nextId == old(nextId)
        && Enqueued(trace) == Enqueued(old(trace))
        && match Decide(job, urlMatch, fetchApi)
           case Panic =>
             crashed && job.client.send == old(job.client.send) && trace == old(trace) + [Dequeue(job)]
           case Send(r) =>
             && !crashed
             && job.client.send == old(job.client.send) + [r]
             && trace == old(trace) + [Dequeue(job), Deliver(job.client, r)]
    {
      var job := jobQueue[0];
      TakeKeepsInv(jobQueue, nextId, trace);
      jobQueue := jobQueue[1..];
      trace := trace + [Dequeue(job)];
      var outcome := ProcessJob(job, urlMatch, fetchApi);
      if outcome.Panic? {
        crashed := true;
        return;
      }
      crashed := false;
      var r := outcome.result;
      DeliverKeepsInv(jobQueue, nextId, trace, job.client, r);
      job.client.Push(r);
      trace := trace + [Deliver(job.client, r)];
    }
  }

  /**
    Client `c` sends a request whose URL the pattern rejects while the queue is
    empty. A worker may take the job and send its error result before the read
    pump sends the "queued" acknowledgement: the outbox then holds the final
    result ahead of the acknowledgement, and every step keeps the invariant.
  */
  method ResultBeforeAck(server: Server, c: Client, req: JobRequest,
                         urlMatch: string -> Option<string>, fetchApi: DownloadContext -> ApiResult)
    requires server.Valid() && server.jobQueue == []
    requires c.Valid() && c.pendingAck == None && |c.send| + 2 <= SendCapacity
    requires urlMatch(req.url) == None
    modifies server, c
    ensures server.Valid() && c.Valid() && c.pendingAck == None && server.jobQueue == []
    ensures
      var job := DownloadJob(JobId(old(server.nextId)), req.url, req.wantsVideo, req.wantsAudio, req.wantsHQ, c);
      c.send == old(c.send) + [InvalidUrlResult(job), QueuedAck(job)]
  {
    var job := DownloadJob(JobId(server.nextId), req.url, req.wantsVideo, req.wantsAudio, req.wantsHQ, c);
    server.HandleMessage(c, Some(req));
    NoMatchIsInvalidUrl(job, urlMatch, fetchApi, fetchApi);
    var crashed := server.WorkerStep(urlMatch, fetchApi);
    server.Acknowledge(c);
  }
}
