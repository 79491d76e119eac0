/** The message-history crawl job: one run fetches a page of a peer's history,
    hands the parsed batch to the event hub and, when the page was not empty,
    schedules its own continuation one page further on. */
module Jobs {
  import opened Common

  /** The peer kinds a job can name (the enum's own spelling). `Unnamed` stands
      for any other `int` value the enum type can hold; an `Unnamed` value
      equal to a named member's integer stands for nothing. */
  datatype PeerType = Channal | Chat | User | Unnamed(raw: Int32)

  /** The remote platform's reference to a conversation endpoint. */
  datatype InputPeer =
    | InputPeerChannel(channelId: Int32)
    | InputPeerChat(chatId: Int32)
    | InputPeerUser(userId: Int32)

  /** Messages asked for per page. */
  const PageSize: int := 100
  /** How far the continuation moves the offset. */
  const OffsetStep: int := 100
  /** Bounds handed to the random source; the upper one is exclusive. */
  const MinDelaySeconds: int := 5
  const MaxDelaySecondsExclusive: int := 20

  /** The arguments of one run of the job. */
  datatype Job = Job(id: Int32, peerType: PeerType, phoneHashId: string, offset: Int32, maxId: Int32)

  /** What the event hub answers; `Rejected` models a send that throws. */
  datatype Ack = Delivered | Rejected(fault: Fault)

  /** The history page request sent to the remote platform. */
  datatype HistoryRequest = HistoryRequest(peer: Option<InputPeer>, offset: Int32, maxId: Int32, limit: int)

  /** A continuation handed to the background scheduler, with its delay. */
  datatype ScheduledJob = ScheduledJob(job: Job, delaySeconds: int)

  /** How a run ended, as seen from outside. */
  datatype Status = Rescheduled | Finished | FetchFailed(fault: Fault) | PublishFailed(fault: Fault)

  /** What the method returns to its caller: normally, or by throwing. */
  datatype Outcome = Returned | Threw(fault: Fault)

  /** The effects of one run: the batch handed to the event hub, if any, and
      the continuation scheduled, if any. */
  datatype StepResult<M> = StepResult(published: Option<seq<M>>, continuation: Option<Job>, status: Status)

  datatype Run<M> = Run(job: Job, result: StepResult<M>)

  /** The id a peer reference carries. */
  function PeerId(p: InputPeer): Int32 {
    match p
    case InputPeerChannel(c) => c
    case InputPeerChat(c) => c
    case InputPeerUser(u) => u
  }

  /** The peer type a peer reference is of. */
  function KindOf(p: InputPeer): PeerType {
    match p
    case InputPeerChannel(_) => Channal
    case InputPeerChat(_) => Chat
    case InputPeerUser(_) => User
  }

  /** The switch on the peer type: each named kind gives the matching
      reference carrying `id`; with no default branch, any other value leaves
      the peer unset. */
  function BuildPeer(id: Int32, peerType: PeerType): (peer: Option<InputPeer>)
    ensures peer.Some? <==> !peerType.Unnamed?
    ensures peer.Some? ==> PeerId(peer.value) == id && KindOf(peer.value) == peerType
  {
    match peerType
    case Channal => Some(InputPeerChannel(id))
    case Chat => Some(InputPeerChat(id))
    case User => Some(InputPeerUser(id))
    case Unnamed(_) => None
  }

  /** Every peer reference is the one built from its own id and kind. */
  lemma BuildPeerRoundTrip(p: InputPeer)
    ensures BuildPeer(PeerId(p), KindOf(p)) == Some(p)
  {
  }

  /** The request one run sends: the job's own cursor and one full page. */
  function RequestFor(job: Job): (req: HistoryRequest)
    ensures req.offset == job.offset && req.maxId == job.maxId && req.limit == PageSize
    ensures req.peer.Some? ==> PeerId(req.peer.value) == job.id && KindOf(req.peer.value) == job.peerType
    ensures req.peer.None? <==> job.peerType.Unnamed?
  {
    HistoryRequest(BuildPeer(job.id, job.peerType), job.offset, job.maxId, PageSize)
  }

  /** The continuation's arguments: same peer and session, the offset one
      step further (with `int` wrap-around), no upper message bound. */
  function NextJob(job: Job): (next: Job)
    ensures next.id == job.id && next.peerType == job.peerType && next.phoneHashId == job.phoneHashId
    ensures next.maxId == 0
    ensures (next.offset - (job.offset + OffsetStep)) % TwoTo32 == 0
    ensures job.offset + OffsetStep <= MaxInt32 ==> next.offset == job.offset + OffsetStep
  {
    Job(job.id, job.peerType, job.phoneHashId, Wrap32(job.offset + OffsetStep), 0)
  }

  /** One run of the job with its collaborators fixed: `fetch` stands for
      building the session client and asking for the page (rate-limit retries
      included), `parse` for the message parser, `send` for the event hub. */
  function Step<H, M>(job: Job, fetch: (string, HistoryRequest) -> Result<H>,
                      parse: (H, Int32, PeerType) -> seq<M>, send: seq<M> -> Ack): (r: StepResult<M>)
    // the batch is handed over exactly when the fetch completed, empty or not
    ensures r.published.Some? <==> fetch(job.phoneHashId, RequestFor(job)).Success?
    ensures r.published.Some? ==>
      r.published.value == parse(fetch(job.phoneHashId, RequestFor(job)).value, job.id, job.peerType)
    // a continuation exactly when the publish went through and the batch is non-empty
    ensures r.continuation.Some? <==>
      r.published.Some? && send(r.published.value).Delivered? && |r.published.value| > 0
    ensures r.continuation.Some? ==> r.continuation.value == NextJob(job)
    // failures are reported, and told apart from normal termination
    ensures fetch(job.phoneHashId, RequestFor(job)).Failure? ==>
      r.status == FetchFailed(fetch(job.phoneHashId, RequestFor(job)).error)
    ensures r.published.Some? && send(r.published.value).Rejected? ==>
      r.status == PublishFailed(send(r.published.value).fault)
    ensures r.status == Rescheduled <==> r.continuation.Some?
    ensures r.status == Finished <==> r.published == Some([]) && send([]) == Delivered
  {
    match fetch(job.phoneHashId, RequestFor(job))
    case Failure(f) => StepResult(None, None, FetchFailed(f))
    case Success(history) =>
      var messages := parse(history, job.id, job.peerType);
      match send(messages)
      case Rejected(f) => StepResult(Some(messages), None, PublishFailed(f))
      case Delivered =>
        if |messages| > 0 then StepResult(Some(messages), Some(NextJob(job)), Rescheduled)
        else StepResult(Some(messages), None, Finished)
  }

  /** The first `n` runs of a crawl started with `job`, each run being the
      continuation the previous one scheduled; `n` only bounds how many
      runs are looked at. */
  function Crawl<H, M>(job: Job, fetch: (string, HistoryRequest) -> Result<H>,
                       parse: (H, Int32, PeerType) -> seq<M>, send: seq<M> -> Ack, n: nat): (runs: seq<Run<M>>)
    ensures |runs| <= n
    ensures n > 0 ==> |runs| > 0 && runs[0] == Run(job, Step(job, fetch, parse, send))
    decreases n
  {
    if n == 0 then []
    else
      var r := Step(job, fetch, parse, send);
      [Run(job, r)] + (if r.continuation.Some? then Crawl(r.continuation.value, fetch, parse, send, n - 1) else [])
  }

  /** The arguments of the k-th run of a crawl started with `job`. */
  function JobAt(job: Job, k: nat): Job {
    if k == 0 then job
    else Job(job.id, job.peerType, job.phoneHashId, Wrap32(job.offset + OffsetStep * k), 0)
  }

  /** Run k of a crawl keeps the peer and session, starts at offset
      `o + 100·k` (as an `int`) and, after the first run, has maxId 0. */
  lemma {:induction false} CrawlJobs<H, M>(job: Job, fetch: (string, HistoryRequest) -> Result<H>,
                                           parse: (H, Int32, PeerType) -> seq<M>, send: seq<M> -> Ack, n: nat)
    ensures forall k :: 0 <= k < |Crawl(job, fetch, parse, send, n)| ==>
      Crawl(job, fetch, parse, send, n)[k].job == JobAt(job, k)
    decreases n
  {
    if n > 0 {
      var r := Step(job, fetch, parse, send);
      if r.continuation.Some? {
        var next := r.continuation.value;
        CrawlJobs(next, fetch, parse, send, n - 1);
        var runs := Crawl(job, fetch, parse, send, n);
        var rest := Crawl(next, fetch, parse, send, n - 1);
        assert runs == [Run(job, r)] + rest;
        forall k | 0 <= k < |runs| ensures runs[k].job == JobAt(job, k) {
          if k > 0 {
            assert runs[k] == rest[k - 1];
            JobAtShift(job, k - 1);
          }
        }
      }
    }
  }

  lemma JobAtShift(job: Job, k: nat)
    ensures JobAt(NextJob(job), k) == JobAt(job, k + 1)
  {
    WrapAdd(job.offset + OffsetStep, OffsetStep * k);
  }

  /** Consecutive runs are linked: every run but the last published a
      non-empty batch and scheduled exactly the run that follows it; the
      crawl stops early only at a run that scheduled nothing (an empty page
      or a failure). */
  lemma {:induction false} CrawlLinks<H, M>(job: Job, fetch: (string, HistoryRequest) -> Result<H>,
                                            parse: (H, Int32, PeerType) -> seq<M>, send: seq<M> -> Ack, n: nat)
    ensures var runs := Crawl(job, fetch, parse, send, n);
      forall k :: 0 <= k < |runs| - 1 ==>
        runs[k].result.continuation == Some(runs[k + 1].job) &&
        runs[k].result.published.Some? && |runs[k].result.published.value| > 0
    ensures var runs := Crawl(job, fetch, parse, send, n);
      |runs| < n ==> |runs| > 0 && runs[|runs| - 1].result.continuation.None?
    decreases n
  {
    if n > 0 {
      var r := Step(job, fetch, parse, send);
      var runs := Crawl(job, fetch, parse, send, n);
      if r.continuation.Some? {
        var next := r.continuation.value;
        CrawlLinks(next, fetch, parse, send, n - 1);
        var rest := Crawl(next, fetch, parse, send, n - 1);
        assert runs == [Run(job, r)] + rest;
        forall k | 0 <= k < |runs| - 1
          ensures runs[k].result.continuation == Some(runs[k + 1].job)
          ensures runs[k].result.published.Some? && |runs[k].result.published.value| > 0
        {
          if k > 0 {
            assert runs[k] == rest[k - 1] && runs[k + 1] == rest[k];
          }
        }
      } else {
        assert runs == [Run(job, r)];
      }
    }
  }

  /** Every run of a crawl is the step of its own job against the same
      remote, parser and event hub. */
  lemma {:induction false} CrawlSteps<H, M>(job: Job, fetch: (string, HistoryRequest) -> Result<H>,
                                            parse: (H, Int32, PeerType) -> seq<M>, send: seq<M> -> Ack, n: nat)
    ensures forall k :: 0 <= k < |Crawl(job, fetch, parse, send, n)| ==>
      Crawl(job, fetch, parse, send, n)[k].result == Step(Crawl(job, fetch, parse, send, n)[k].job, fetch, parse, send)
    decreases n
  {
    if n > 0 {
      var r := Step(job, fetch, parse, send);
      assert Crawl(job, fetch, parse, send, n)[0] == Run(job, r);
      if r.continuation.Some? {
        var next := r.continuation.value;
        CrawlSteps(next, fetch, parse, send, n - 1);
        var rest := Crawl(next, fetch, parse, send, n - 1);
        assert Crawl(job, fetch, parse, send, n) == [Run(job, r)] + rest;
        forall k | 1 <= k < |Crawl(job, fetch, parse, send, n)|
          ensures Crawl(job, fetch, parse, send, n)[k].result == Step(Crawl(job, fetch, parse, send, n)[k].job, fetch, parse, send)
        {
          assert Crawl(job, fetch, parse, send, n)[k] == rest[k - 1];
        }
      }
    }
  }

  /** The crawl stops at the first empty page: a run whose request the
      remote answers with a page that parses to no messages is the last run,
      and the crawl ends there with that empty batch published. */
  lemma CrawlStopsAtEmptyPage<H, M>(job: Job, fetch: (string, HistoryRequest) -> Result<H>,
                                    parse: (H, Int32, PeerType) -> seq<M>, send: seq<M> -> Ack, n: nat, k: nat)
    requires k < |Crawl(job, fetch, parse, send, n)|
    requires fetch(JobAt(job, k).phoneHashId, RequestFor(JobAt(job, k))).Success?
    requires parse(fetch(JobAt(job, k).phoneHashId, RequestFor(JobAt(job, k))).value,
                   JobAt(job, k).id, JobAt(job, k).peerType) == []
    ensures k == |Crawl(job, fetch, parse, send, n)| - 1
    ensures Crawl(job, fetch, parse, send, n)[k].result.published == Some([])
    ensures Crawl(job, fetch, parse, send, n)[k].result.continuation == None
  {
    CrawlJobs(job, fetch, parse, send, n);
    CrawlSteps(job, fetch, parse, send, n);
    CrawlLinks(job, fetch, parse, send, n);
    assert Crawl(job, fetch, parse, send, n)[k].job == JobAt(job, k);
  }

  /** While the offsets stay within `int` range, they are exactly
      `o + 100·k` and strictly increase from run to run. */
  lemma CrawlOffsetsIncrease<H, M>(job: Job, fetch: (string, HistoryRequest) -> Result<H>,
                                   parse: (H, Int32, PeerType) -> seq<M>, send: seq<M> -> Ack, n: nat)
    requires n > 0 ==> job.offset + OffsetStep * (n - 1) <= MaxInt32
    ensures var runs := Crawl(job, fetch, parse, send, n);
      (forall k :: 0 <= k < |runs| ==> runs[k].job.offset == job.offset + OffsetStep * k) &&
      (forall i, j :: 0 <= i < j < |runs| ==> runs[i].job.offset < runs[j].job.offset)
  {
    var runs := Crawl(job, fetch, parse, send, n);
    CrawlJobs(job, fetch, parse, send, n);
    forall k | 0 <= k < |runs| ensures runs[k].job.offset == job.offset + OffsetStep * k {
      assert runs[k].job == JobAt(job, k);
      assert job.offset <= job.offset + OffsetStep * k <= job.offset + OffsetStep * (n - 1);
    }
  }

  /** A remote whose history for chat 42 holds 137 messages: pages of 100,
      37 and then none. The raw response is just the offset asked for. */
  function ExampleFetch(session: string, req: HistoryRequest): Result<Int32> {
    Success(req.offset)
  }

  function ExampleParse(offset: Int32, id: Int32, peerType: PeerType): seq<int> {
    if offset == 0 then seq(100, i => i) else if offset == 100 then seq(37, i => i) else []
  }

  function ExampleSend(batch: seq<int>): Ack { Delivered }

  /** The crawl of chat 42 from cursor (0, 0): a page of 100 schedules offset
      100, a page of 37 schedules offset 200, and the empty page there ends
      the crawl after being published. */
  lemma ExampleCrawl()
    ensures var runs := Crawl(Job(42, Chat, "abc", 0, 0), ExampleFetch, ExampleParse, ExampleSend, 5);
      && |runs| == 3
      && runs[0].job == Job(42, Chat, "abc", 0, 0)
      && runs[1].job == Job(42, Chat, "abc", 100, 0)
      && runs[2].job == Job(42, Chat, "abc", 200, 0)
      && runs[0].result.status == Rescheduled && |runs[0].result.published.value| == 100
      && runs[1].result.status == Rescheduled && |runs[1].result.published.value| == 37
      && runs[2].result == StepResult(Some([]), None, Finished)
  {
  }

  /** The job as the scheduler runs it: the log of batches handed to the
      event hub and the queue of scheduled continuations. */
  class GetMessages<H, M> {
    var published: seq<seq<M>>
    var scheduled: seq<ScheduledJob>

    /** Every scheduled continuation has no upper bound and a delay the
        random source can produce. */
    ghost predicate Valid()
      reads this
    {
      forall s :: s in scheduled ==>
        s.job.maxId == 0 && MinDelaySeconds <= s.delaySeconds < MaxDelaySecondsExclusive
    }

    constructor ()
      ensures Valid() && published == [] && scheduled == []
    {
      published, scheduled := [], [];
    }

    /** One run: build the peer, fetch the page, publish the parsed batch
        and, if it is non-empty, schedule the next page after 5 to 19 whole
        seconds. A failing fetch or publish throws out of the run. */
    method ForPeer(id: Int32, peerType: PeerType, phoneHashId: string, offset: Int32, maxId: Int32,
                   fetch: (string, HistoryRequest) -> Result<H>,
                   parse: (H, Int32, PeerType) -> seq<M>, send: seq<M> -> Ack) returns (outcome: Outcome)
      requires Valid()
      modifies this
      ensures Valid()
      ensures var r := Step(Job(id, peerType, phoneHashId, offset, maxId), fetch, parse, send);
        && published == old(published) + (if r.published.Some? then [r.published.value] else [])
        && |scheduled| == |old(scheduled)| + (if r.continuation.Some? then 1 else 0)
        && scheduled[..|old(scheduled)|] == old(scheduled)
        && (r.continuation.Some? ==> scheduled[|scheduled| - 1].job == r.continuation.value)
        && (outcome == Returned <==> r.status == Rescheduled || r.status == Finished)
        && (r.status.FetchFailed? || r.status.PublishFailed? ==> outcome == Threw(r.status.fault))
    {
      var peer := BuildPeer(id, peerType);
      var history := fetch(phoneHashId, HistoryRequest(peer, offset, maxId, PageSize));
      if history.Failure? {
        return Threw(history.error);
      }
      var messages := parse(history.value, id, peerType);
      published := published + [messages];
      var ack := send(messages);
      if ack.Rejected? {
        return Threw(ack.fault);
      }
      if |messages| > 0 {
        var delay :| MinDelaySeconds <= delay < MaxDelaySecondsExclusive;
        scheduled := scheduled + [ScheduledJob(Job(id, peerType, phoneHashId, Wrap32(offset + OffsetStep), 0), delay)];
      }
      outcome := Returned;
    }
  }
}
