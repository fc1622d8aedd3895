/** The transcription function on the server: it checks the request, fetches
    the captions in Portuguese and falls back to English, and turns the caption
    pieces into the `{text, segments}` shape the page shows. The caption
    fetches are parameters: each is the outcome the caption library would
    give for that language. */
module Transcriber {
  import opened Wrappers
  import opened Text
  import opened TranscriptionService

  /** One caption piece as the library returns it; times in milliseconds. */
  datatype Part = Part(text: string, duration: real, offset: real)

  /** What a caption fetch for one language gives. */
  datatype Fetch = Fetched(parts: seq<Part>) | FetchFailed

  const UrlRequired := "A URL do vídeo é obrigatória."
  const NoCaptions := "Este vídeo não possui legendas disponíveis ou elas foram desativadas."
  const EmptyCaptions := "As legendas para este vídeo foram encontradas, mas estão vazias."

  /** The caption pieces as timed segments numbered from `first` on, times
      converted to seconds. */
  function ToSegments(parts: seq<Part>, first: int): (r: seq<Segment>)
    ensures |r| == |parts|
    ensures forall i :: 0 <= i < |parts| ==>
      && r[i].id == first + i
      && r[i].text == parts[i].text
      && r[i].start == parts[i].offset / 1000.0
      && r[i].end == (parts[i].offset + parts[i].duration) / 1000.0
    decreases |parts|
  {
    if |parts| == 0 then []
    else
      var p := parts[0];
      [Segment(first, p.offset / 1000.0, (p.offset + p.duration) / 1000.0, p.text)]
        + ToSegments(parts[1..], first + 1)
  }

  function PartTexts(parts: seq<Part>): (r: seq<string>)
    ensures |r| == |parts| && forall i :: 0 <= i < |parts| ==> r[i] == parts[i].text
  {
    seq(|parts|, i requires 0 <= i < |parts| => parts[i].text)
  }

  function SegmentTexts(segments: seq<Segment>): (r: seq<string>)
    ensures |r| == |segments| && forall i :: 0 <= i < |segments| ==> r[i] == segments[i].text
  {
    seq(|segments|, i requires 0 <= i < |segments| => segments[i].text)
  }

  /** The languages the function asked the caption library for, in order. */
  function Requested(pt: Fetch): (r: seq<string>)
    ensures r == if pt.FetchFailed? then ["pt", "en"] else ["pt"]
  {
    if pt.Fetched? then ["pt"] else ["pt", "en"]
  }

  /** The request handling: an absent or empty URL is refused without any
      fetch; the captions come from the Portuguese fetch, or from the English
      one when that fails; no captions or an empty list is refused; otherwise
      the reply holds the texts joined by single spaces and one segment per
      piece, numbered from 1. The second component lists the fetches made. */
  function Transcribe(videoURL: Option<string>, pt: Fetch, en: Fetch): (r: (Result<TranscriptionResult, string>, seq<string>))
    ensures videoURL.None? || videoURL.value == "" ==> r == (Failure(UrlRequired), [])
    ensures videoURL.Some? && videoURL.value != "" ==> r.1 == Requested(pt)
    ensures r.0.Success? <==>
      && videoURL.Some? && videoURL.value != ""
      && var used := if pt.Fetched? then pt else en;
         used.Fetched? && |used.parts| > 0
    ensures r.0.Success? ==>
      var parts := if pt.Fetched? then pt.parts else en.parts;
      && r.0.value.segments == Some(ToSegments(parts, 1))
      && r.0.value.text == Join(PartTexts(parts), " ")
  {
    if videoURL.None? || videoURL.value == "" then (Failure(UrlRequired), [])
    else
      var fetched := if pt.Fetched? then pt else en;
      if fetched.FetchFailed? then (Failure(NoCaptions), Requested(pt))
      else if |fetched.parts| == 0 then (Failure(EmptyCaptions), Requested(pt))
      else
        var parts := fetched.parts;
        (Success(TranscriptionResult(Join(PartTexts(parts), " "), Some(ToSegments(parts, 1)))), Requested(pt))
  }

  /** The error a request gets, by the first check it fails. */
  lemma TranscribeErrors(videoURL: string, pt: Fetch, en: Fetch)
    requires videoURL != ""
    ensures pt.FetchFailed? && en.FetchFailed? ==> Transcribe(Some(videoURL), pt, en).0 == Failure(NoCaptions)
    ensures pt == Fetched([]) ==> Transcribe(Some(videoURL), pt, en).0 == Failure(EmptyCaptions)
    ensures pt.FetchFailed? && en == Fetched([]) ==> Transcribe(Some(videoURL), pt, en).0 == Failure(EmptyCaptions)
  {
  }

  /** English is asked for only after Portuguese fails, and a Portuguese
      result is used whatever English would have given. */
  lemma PortugueseFirst(videoURL: string, pt: Fetch, en: Fetch, en2: Fetch)
    requires videoURL != ""
    ensures "en" in Transcribe(Some(videoURL), pt, en).1 <==> pt.FetchFailed?
    ensures pt.Fetched? ==> Transcribe(Some(videoURL), pt, en) == Transcribe(Some(videoURL), pt, en2)
  {
  }

  /** The reply's text is its segments' texts joined by single spaces, and a
      piece with a non-negative duration ends no earlier than it starts. */
  lemma TextMatchesSegments(parts: seq<Part>)
    ensures Join(SegmentTexts(ToSegments(parts, 1)), " ") == Join(PartTexts(parts), " ")
    ensures forall i :: 0 <= i < |parts| && parts[i].duration >= 0.0 ==>
      ToSegments(parts, 1)[i].start <= ToSegments(parts, 1)[i].end
  {
    assert SegmentTexts(ToSegments(parts, 1)) == PartTexts(parts);
  }

  /** Segment ids run 1..n in order, so they are distinct. */
  lemma SegmentIdsDistinct(parts: seq<Part>)
    ensures forall i, j :: 0 <= i < j < |parts| ==> ToSegments(parts, 1)[i].id < ToSegments(parts, 1)[j].id
    ensures |parts| > 0 ==> ToSegments(parts, 1)[|parts| - 1].id == |parts|
  {
  }
}
