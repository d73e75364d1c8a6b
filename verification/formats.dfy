/**
  The format scan of the worker: the first video URL and the first audio URL
  of a media entry, first match wins per type.
*/
module Formats {
  import opened Types

  /** A format yields a link of type `kind` when it has that type and a non-empty first URL. */
  predicate Supplies(f: Format, kind: MediaType)
  {
    f.kind == kind && |f.urls| > 0 && f.urls[0] != ""
  }

  /** The first URL of the first format that supplies `kind`, or "" when none does. */
  function FirstURL(formats: seq<Format>, kind: MediaType): (url: string)
    ensures url != "" ==> exists i :: 0 <= i < |formats| && Supplies(formats[i], kind) && url == formats[i].urls[0]
    ensures url == "" ==> forall i :: 0 <= i < |formats| ==> !Supplies(formats[i], kind)
  {
    if formats == [] then ""
    else if Supplies(formats[0], kind) then formats[0].urls[0]
    else
      var rest := FirstURL(formats[1..], kind);
      assert forall i :: 1 <= i < |formats| ==> formats[i] == formats[1..][i - 1];
      rest
  }

  /** Scanning one more format changes the pick only while it is still empty. */
  lemma {:induction false} FirstURLSnoc(formats: seq<Format>, f: Format, kind: MediaType)
    ensures FirstURL(formats + [f], kind) ==
      if FirstURL(formats, kind) != "" then FirstURL(formats, kind)
      else if Supplies(f, kind) then f.urls[0]
      else ""
  {
    if formats == [] {
      assert [f][1..] == [];
    } else {
      assert (formats + [f])[0] == formats[0];
      assert (formats + [f])[1..] == formats[1..] + [f];
      if !Supplies(formats[0], kind) {
        FirstURLSnoc(formats[1..], f, kind);
      }
    }
  }

  /** The pick is the first URL of the earliest supplying format. */
  lemma {:induction false} FirstURLIsEarliest(formats: seq<Format>, kind: MediaType, i: nat)
    requires i < |formats| && Supplies(formats[i], kind)
    requires forall j :: 0 <= j < i ==> !Supplies(formats[j], kind)
    ensures FirstURL(formats, kind) == formats[i].urls[0]
  {
    if i > 0 {
      assert !Supplies(formats[0], kind);
      FirstURLIsEarliest(formats[1..], kind, i - 1);
    }
  }

  /** A later format of the same type never overwrites a non-empty pick. */
  lemma {:induction false} FirstURLNeverOverwritten(formats: seq<Format>, later: seq<Format>, kind: MediaType)
    requires FirstURL(formats, kind) != ""
    ensures FirstURL(formats + later, kind) == FirstURL(formats, kind)
  {
    assert formats != [];
    assert (formats + later)[0] == formats[0];
    if !Supplies(formats[0], kind) {
      assert (formats + later)[1..] == formats[1..] + later;
      FirstURLNeverOverwritten(formats[1..], later, kind);
    }
  }

  /**
    The loop of the worker over `media.Formats`: it keeps the first non-empty
    `URL[0]` of a video-typed and of an audio-typed format.
  */
  method ScanFormats(formats: seq<Format>) returns (videoURL: string, audioURL: string)
    ensures videoURL == FirstURL(formats, VideoType)
    ensures audioURL == FirstURL(formats, AudioType)
  {
    videoURL, audioURL := "", "";
    for i := 0 to |formats|
      invariant videoURL == FirstURL(formats[..i], VideoType)
      invariant audioURL == FirstURL(formats[..i], AudioType)
    {
      var format := formats[i];
      assert formats[..i + 1] == formats[..i] + [format];
      FirstURLSnoc(formats[..i], format, VideoType);
      FirstURLSnoc(formats[..i], format, AudioType);
      if format.kind == VideoType && videoURL == "" {
        if |format.urls| > 0 {
          videoURL := format.urls[0];
        }
      }
      if format.kind == AudioType && audioURL == "" {
        if |format.urls| > 0 {
          audioURL := format.urls[0];
        }
      }
    }
    assert formats[..|formats|] == formats;
  }
}
