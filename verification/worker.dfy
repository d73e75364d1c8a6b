/**
  One iteration of the worker loop of main.go: from a dequeued job, the URL
  pattern's match and the extractor's answer, the single outcome of the job.
*/
module Worker {
  import opened Wrappers
  import opened Types
  import opened Formats

  /** What the worker hands to the extractor: the matched content id and the job's URL. */
  datatype DownloadContext = DownloadContext(contentId: string, contentUrl: string)

  /** The extractor's answer: a media list and, when it failed, its error message. */
  datatype ApiResult = ApiResult(media: seq<Media>, err: Option<string>)

  /**
    The outcome of one job: the one result sent to the job's client, or a panic
    of the process (indexing the first media entry of an empty list).
  */
  datatype JobOutcome = Send(result: DownloadResult) | Panic

  /**
    `processTikTokURL`: asks the API extractor and passes its media list on; on
    an API error it logs and still returns the (unchanged) list with no error.
  */
  function ProcessTikTokURL(ctx: DownloadContext, fetchApi: DownloadContext -> ApiResult): (r: ApiResult)
    ensures r.err == None
    ensures r.media == fetchApi(ctx).media
  {
    var api := fetchApi(ctx);
    if api.err == None then ApiResult(api.media, None)
    else ApiResult(api.media, None)
  }

  /** The error result for a URL the pattern does not match; it echoes the request URL. */
  function InvalidUrlResult(job: DownloadJob): DownloadResult
  {
    DownloadResult(job.id, job.url, "", StatusError, MsgInvalidUrl, "", "")
  }

  /** The error result for an extractor failure; it leaves the request URL empty. */
  function FetchFailedResult(job: DownloadJob, reason: string): DownloadResult
  {
    DownloadResult(job.id, "", "", StatusError, FetchFailedPrefix + reason, "", "")
  }

  /** The error result when no video link was found; `requestUrl` is what the branch echoes. */
  function NoLinksResult(job: DownloadJob, requestUrl: string): DownloadResult
  {
    DownloadResult(job.id, requestUrl, "", StatusError, MsgNoLinks, "", "")
  }

  /** The success result: the caption as title and the picked links. */
  function CompletedResult(job: DownloadJob, title: string, videoURL: string, audioURL: string): DownloadResult
  {
    DownloadResult(job.id, job.url, title, StatusCompleted, "", videoURL, audioURL)
  }

  /** The result built from the first media entry, after the format scan. */
  function Classify(job: DownloadJob, media: Media): (r: DownloadResult)
    ensures r.jobId == job.id
    ensures r.status == StatusCompleted <==> FirstURL(media.formats, VideoType) != ""
    ensures r.status != StatusCompleted ==> r.status == StatusError && r.message == MsgNoLinks
  {
    var videoURL := FirstURL(media.formats, VideoType);
    var audioURL := FirstURL(media.formats, AudioType);
    if videoURL == "" && audioURL == "" then NoLinksResult(job, job.url)
    else if videoURL == "" then NoLinksResult(job, "")
    else CompletedResult(job, media.caption, videoURL, audioURL)
  }

  /**
    The outcome of one job. `urlMatch` stands for the extractor's URL pattern
    (the `id` sub-match, or None when the URL does not match); `fetchApi` for
    the API extractor.
  */
  function Decide(job: DownloadJob, urlMatch: string -> Option<string>,
                  fetchApi: DownloadContext -> ApiResult): (o: JobOutcome)
    ensures o.Send? ==> o.result.jobId == job.id
    ensures o.Send? ==> o.result.status == StatusError || o.result.status == StatusCompleted
  {
    match urlMatch(job.url)
    case None =>
      Send(InvalidUrlResult(job))
    case Some(contentId) =>
      var fetched := ProcessTikTokURL(DownloadContext(contentId, job.url), fetchApi);
      match fetched.err
      case Some(e) =>
        Send(FetchFailedResult(job, e))
      case None =>
        if |fetched.media| == 0 then Panic
        else Send(Classify(job, fetched.media[0]))
  }

  /** The body of one worker iteration, with the format scan as a loop. */
  method ProcessJob(job: DownloadJob, urlMatch: string -> Option<string>,
                    fetchApi: DownloadContext -> ApiResult) returns (o: JobOutcome)
    ensures o == Decide(job, urlMatch, fetchApi)
  {
    var matches := urlMatch(job.url);
    if matches == None {
      o := Send(InvalidUrlResult(job));
      return;
    }
    var ctx := DownloadContext(matches.value, job.url);
    var fetched := ProcessTikTokURL(ctx, fetchApi);
    match fetched.err {
      case Some(e) =>
        o := Send(FetchFailedResult(job, e));
        return;
      case None =>
    }
    if |fetched.media| == 0 {
      o := Panic;
      return;
    }
    var media := fetched.media[0];
    var videoURL, audioURL := ScanFormats(media.formats);
    if videoURL == "" && audioURL == "" {
      o := Send(NoLinksResult(job, job.url));
      return;
    }
    if videoURL == "" {
      o := Send(NoLinksResult(job, ""));
      return;
    }
    o := Send(CompletedResult(job, media.caption, videoURL, audioURL));
  }

  /** A URL that does not match yields the "Invalid TikTok URL" error, whatever the extractor would say. */
  lemma NoMatchIsInvalidUrl(job: DownloadJob, urlMatch: string -> Option<string>,
                            fetchApi: DownloadContext -> ApiResult, otherApi: DownloadContext -> ApiResult)
    requires urlMatch(job.url) == None
    ensures Decide(job, urlMatch, fetchApi) ==
      Send(DownloadResult(job.id, job.url, "", StatusError, MsgInvalidUrl, "", ""))
    ensures Decide(job, urlMatch, otherApi) == Decide(job, urlMatch, fetchApi)
  {
  }

  /** The "Failed to fetch video data" result is never produced. */
  lemma FetchFailureUnreachable(job: DownloadJob, urlMatch: string -> Option<string>,
                                fetchApi: DownloadContext -> ApiResult)
    ensures Decide(job, urlMatch, fetchApi).Send? ==>
      Decide(job, urlMatch, fetchApi).result.message in {MsgInvalidUrl, MsgNoLinks, ""}
  {
  }

  /** Exactly one result per job, unless the matched URL got an empty media list. */
  lemma PanicsOnlyOnEmptyMedia(job: DownloadJob, urlMatch: string -> Option<string>,
                               fetchApi: DownloadContext -> ApiResult)
    ensures Decide(job, urlMatch, fetchApi).Panic? <==>
      urlMatch(job.url).Some? &&
      fetchApi(DownloadContext(urlMatch(job.url).value, job.url)).media == []
  {
  }

  /** The requested-output flags never influence the outcome. */
  lemma FlagsIgnored(job: DownloadJob, video: bool, audio: bool, hq: bool,
                     urlMatch: string -> Option<string>, fetchApi: DownloadContext -> ApiResult)
    ensures Decide(job.(wantsVideo := video, wantsAudio := audio, wantsHQ := hq), urlMatch, fetchApi) ==
      Decide(job, urlMatch, fetchApi)
  {
  }

  /**
    A job completes exactly when its URL matches, the extractor returns some
    media, and a format of the first media entry supplies a video link.
  */
  lemma CompletedIffVideo(job: DownloadJob, urlMatch: string -> Option<string>,
                          fetchApi: DownloadContext -> ApiResult)
    ensures
      var o := Decide(job, urlMatch, fetchApi);
      (o.Send? && o.result.status == StatusCompleted) <==>
        && urlMatch(job.url).Some?
        && var media := fetchApi(DownloadContext(urlMatch(job.url).value, job.url)).media;
           media != [] &&
           exists i :: 0 <= i < |media[0].formats| && Supplies(media[0].formats[i], VideoType)
  {
  }

  /** No format supplies a link: error, with the request URL echoed. */
  lemma NoLinksIsError(job: DownloadJob, media: Media)
    requires forall i :: 0 <= i < |media.formats| ==> !Supplies(media.formats[i], VideoType)
    requires forall i :: 0 <= i < |media.formats| ==> !Supplies(media.formats[i], AudioType)
    ensures Classify(job, media) == DownloadResult(job.id, job.url, "", StatusError, MsgNoLinks, "", "")
  {
  }

  /** An audio link without a video link is still an error, and leaves the request URL empty. */
  lemma AudioOnlyIsError(job: DownloadJob, media: Media, i: nat)
    requires forall j :: 0 <= j < |media.formats| ==> !Supplies(media.formats[j], VideoType)
    requires i < |media.formats| && Supplies(media.formats[i], AudioType)
    ensures Classify(job, media) == DownloadResult(job.id, "", "", StatusError, MsgNoLinks, "", "")
  {
  }

  /**
    The earliest video-supplying format makes the job complete, with the title,
    that video link, the first audio link (possibly "") and no message.
  */
  lemma {:induction false} CompletedCarriesFirstVideo(job: DownloadJob, media: Media, i: nat)
    requires i < |media.formats| && Supplies(media.formats[i], VideoType)
    requires forall j :: 0 <= j < i ==> !Supplies(media.formats[j], VideoType)
    ensures Classify(job, media) ==
      DownloadResult(job.id, job.url, media.caption, StatusCompleted, "",
                     media.formats[i].urls[0], FirstURL(media.formats, AudioType))
  {
    FirstURLIsEarliest(media.formats, VideoType, i);
  }

  /** A job for the sample URL whose media has a video and an audio format completes with both links. */
  lemma CompletedScenario(client: Client)
    ensures
      var job := DownloadJob("j1", "https://www.tiktok.com/@user/video/123", true, true, false, client);
      var formats := [Format(VideoType, ["https://cdn/v.mp4"]), Format(AudioType, ["https://cdn/a.mp3"])];
      var api := (ctx: DownloadContext) => ApiResult([Media("clip", formats)], None);
      Decide(job, (u: string) => Some("123"), api) ==
        Send(DownloadResult("j1", job.url, "clip", StatusCompleted, "", "https://cdn/v.mp4", "https://cdn/a.mp3"))
  {
  }

  /** The same job whose media has only an audio format ends in the "no links" error. */
  lemma AudioOnlyScenario(client: Client)
    ensures
      var job := DownloadJob("j1", "https://www.tiktok.com/@user/video/123", true, true, false, client);
      var api := (ctx: DownloadContext) => ApiResult([Media("clip", [Format(AudioType, ["https://cdn/a.mp3"])])], None);
      Decide(job, (u: string) => Some("123"), api) ==
        Send(DownloadResult("j1", "", "", StatusError, MsgNoLinks, "", ""))
  {
  }
}
