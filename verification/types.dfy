/**
  The records of main.go (`DownloadJob`, `DownloadResult`, `JobRequest`), the
  extractor's media records they are built from, the fixed capacities and
  messages, and a client's bounded result outbox (`Client.send`).
*/
module Types {
  import opened Wrappers

  /** Capacity of the shared job queue, `make(chan DownloadJob, 100)`. */
  const QueueCapacity: nat := 100
  /** Capacity of each client's result channel, `make(chan DownloadResult, 10)`. */
  const SendCapacity: nat := 10

  const StatusQueued: string := "queued"
  const StatusCompleted: string := "completed"
  const StatusError: string := "error"

  const MsgQueued: string := "Your request is in the queue."
  const MsgInvalidUrl: string := "Invalid TikTok URL"
  const MsgNoLinks: string := "No downloadable links found."
  const FetchFailedPrefix: string := "Failed to fetch video data: "

  /** The type tag of a format; every tag other than video and audio is `OtherType`. */
  datatype MediaType = VideoType | AudioType | OtherType

  /** One format of a media entry: its type and its candidate URLs, in the extractor's order. */
  datatype Format = Format(kind: MediaType, urls: seq<string>)

  /** One media entry; `caption` is the string part of the caption (empty when absent). */
  datatype Media = Media(caption: string, formats: seq<Format>)

  /** An inbound request as it is after JSON decoding. */
  datatype JobRequest = JobRequest(url: string, wantsVideo: bool, wantsAudio: bool, wantsHQ: bool)

  /** A queued job; `client` is the session that submitted it and receives its results. */
  datatype DownloadJob = DownloadJob(
    id: string,
    url: string,
    wantsVideo: bool,
    wantsAudio: bool,
    wantsHQ: bool,
    client: Client)

  /** An outbound result; an empty string stands for a field that `omitempty` leaves out. */
  datatype DownloadResult = DownloadResult(
    jobId: string,
    requestUrl: string,
    title: string,
    status: string,
    message: string,
    videoUrl: string,
    audioUrl: string)

  /** A connected client; `send` is its bounded outbox of results, oldest first. */
  class Client {
    var send: seq<DownloadResult>
    /**
      The read pump's "queued" acknowledgement for the job it has just put on the
      queue and not yet sent; None while it waits for the next message.
    */
    var pendingAck: Option<DownloadResult>

    ghost predicate Valid()
      reads this
    {
      |send| <= SendCapacity
    }

    constructor ()
      ensures Valid() && send == [] && pendingAck == None
    {
      send := [];
      pendingAck := None;
    }

    /** `c.send <- r`: the caller has made sure the outbox is not full. */
    method Push(r: DownloadResult)
      requires Valid() && |send| < SendCapacity
      modifies this
      ensures Valid() && send == old(send) + [r] && pendingAck == old(pendingAck)
    {
      send := send + [r];
    }

    /** One receive of the write pump, `for result := range c.send`: the oldest result. */
    method Receive() returns (r: DownloadResult)
      requires Valid() && send != []
      modifies this
      ensures Valid() && r == old(send)[0] && send == old(send)[1..] && pendingAck == old(pendingAck)
    {
      r := send[0];
      send := send[1..];
    }
  }
}
