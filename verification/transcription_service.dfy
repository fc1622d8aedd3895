/** The transcription helpers of the front end: recognising a YouTube video
    id in a URL, the `[MM:SS]` time stamp, the credit check, and the guard in
    front of the (simulated) YouTube transcription. */
module TranscriptionService {
  import opened Wrappers
  import opened Text

  // ---------------------------------------------------------------------------
  // Results shared with the transcription function
  // ---------------------------------------------------------------------------

  /** One timed piece of a transcript; times are in seconds. */
  datatype Segment = Segment(id: int, start: real, end: real, text: string)

  datatype TranscriptionResult = TranscriptionResult(text: string, segments: Option<seq<Segment>>)

  // ---------------------------------------------------------------------------
  // Video id extraction
  // ---------------------------------------------------------------------------
  //
  // The pattern is ^.*(youtu.be\/|v\/|u\/\w\/|embed\/|watch\?v=|&v=)([^#&?]*).*
  // without flags. `.` matches anything but a line terminator, so the leading
  // `.*` stays on the first line and, being greedy, settles on the rightmost
  // position there at which a marker matches. The six markers start with six
  // different characters, so at most one matches at a position. The id group
  // then takes the longest run of characters other than #, & and ?, which may
  // cross line breaks.

  /** The line terminators of ECMAScript regular expressions. */
  predicate LineTerminator(c: char) {
    c == '\n' || c == '\r' || c == '\U{2028}' || c == '\U{2029}'
  }

  /** `\w`. */
  predicate WordChar(c: char) {
    ('a' <= c <= 'z') || ('A' <= c <= 'Z') || ('0' <= c <= '9') || c == '_'
  }

  /** The characters that end the id group. */
  predicate StopChar(c: char) {
    c == '#' || c == '&' || c == '?'
  }

  /** `lit` occurs in `s` at `k`. */
  predicate HasAt(s: string, k: nat, lit: string) {
    k + |lit| <= |s| && forall i :: 0 <= i < |lit| ==> s[k + i] == lit[i]
  }

  /** The length of the marker that matches at `k`, or 0 if none does. */
  function MarkerAt(s: string, k: nat): (r: nat)
    ensures r > 0 ==> k + r <= |s|
  {
    if HasAt(s, k, "youtu") && HasAt(s, k + 6, "be/") && !LineTerminator(s[k + 5]) then 9
    else if HasAt(s, k, "v/") then 2
    else if HasAt(s, k, "u/") && k + 4 <= |s| && WordChar(s[k + 2]) && s[k + 3] == '/' then 4
    else if HasAt(s, k, "embed/") then 6
    else if HasAt(s, k, "watch?v=") then 8
    else if HasAt(s, k, "&v=") then 3
    else 0
  }

  /** The index of the first line terminator at or after `i`, or |s|. */
  function LineEnd(s: string, i: nat): (r: nat)
    requires i <= |s|
    ensures i <= r <= |s|
    ensures forall j :: i <= j < r ==> !LineTerminator(s[j])
    ensures r < |s| ==> LineTerminator(s[r])
    decreases |s| - i
  {
    if i == |s| || LineTerminator(s[i]) then i else LineEnd(s, i + 1)
  }

  /** The rightmost position at or before `k` where a marker matches. */
  function LastMarker(s: string, k: nat): (r: Option<nat>)
    ensures r.Some? ==> r.value <= k && MarkerAt(s, r.value) > 0
    ensures r.Some? ==> forall j :: r.value < j <= k ==> MarkerAt(s, j) == 0
    ensures r.None? ==> forall j :: 0 <= j <= k ==> MarkerAt(s, j) == 0
    decreases k
  {
    if MarkerAt(s, k) > 0 then Some(k)
    else if k == 0 then None
    else LastMarker(s, k - 1)
  }

  /** The end of the longest run without #, & or ? that starts at `i`. */
  function RunEnd(s: string, i: nat): (r: nat)
    requires i <= |s|
    ensures i <= r <= |s|
    ensures forall j :: i <= j < r ==> !StopChar(s[j])
    ensures r < |s| ==> StopChar(s[r])
    decreases |s| - i
  {
    if i == |s| || StopChar(s[i]) then i else RunEnd(s, i + 1)
  }

  /** Where the pattern matches: the marker's start and the id group's bounds. */
  datatype Match = Match(markerStart: nat, groupStart: nat, groupEnd: nat)

  /** `url.match(regExp)`: the rightmost marker on the first line and the
      longest stop-free run after it; none when the first line has no marker. */
  function FindMatch(url: string): (r: Option<Match>)
    ensures r.None? <==> forall k :: 0 <= k <= LineEnd(url, 0) ==> MarkerAt(url, k) == 0
    ensures r.Some? ==>
      var m := r.value;
      && m.markerStart + MarkerAt(url, m.markerStart) == m.groupStart
      && m.markerStart <= LineEnd(url, 0) && MarkerAt(url, m.markerStart) > 0
      && (forall j :: m.markerStart < j <= LineEnd(url, 0) ==> MarkerAt(url, j) == 0)
      && m.groupStart <= m.groupEnd <= |url|
      && (forall j :: m.groupStart <= j < m.groupEnd ==> !StopChar(url[j]))
      && (m.groupEnd < |url| ==> StopChar(url[m.groupEnd]))
  {
    match LastMarker(url, LineEnd(url, 0))
    case None => None
    case Some(k) =>
      var g := k + MarkerAt(url, k);
      Some(Match(k, g, RunEnd(url, g)))
  }

  /** `extractYoutubeVideoId`: the id group when it is exactly 11 characters
      long, otherwise none. */
  function ExtractVideoId(url: string): (r: Option<string>)
    ensures r.Some? <==> FindMatch(url).Some? && FindMatch(url).value.groupEnd - FindMatch(url).value.groupStart == 11
    ensures r.Some? ==>
      var m := FindMatch(url).value;
      && |r.value| == 11
      && r.value == url[m.groupStart..m.groupEnd]
      && (forall i :: 0 <= i < |r.value| ==> !StopChar(r.value[i]))
    ensures (forall k :: 0 <= k <= LineEnd(url, 0) ==> MarkerAt(url, k) == 0) ==> r.None?
  {
    match FindMatch(url)
    case None => None
    case Some(m) =>
      if m.groupEnd - m.groupStart == 11 then Some(url[m.groupStart..m.groupEnd]) else None
  }

  /** One differing character rules an occurrence out. */
  lemma Mismatch(s: string, k: nat, lit: string, i: nat)
    requires i < |lit| && k + i < |s| && s[k + i] != lit[i]
    ensures !HasAt(s, k, lit)
  {
  }

  /** No marker starts at a character that begins none of them. */
  lemma NoMarkerAtChar(s: string, j: nat)
    requires j < |s| && s[j] !in "yvuew&"
    ensures MarkerAt(s, j) == 0
  {
    Mismatch(s, j, "youtu", 0);
    Mismatch(s, j, "v/", 0);
    Mismatch(s, j, "u/", 0);
    Mismatch(s, j, "embed/", 0);
    Mismatch(s, j, "watch?v=", 0);
    Mismatch(s, j, "&v=", 0);
  }

  /** The six markers' literal beginnings. */
  const Markers: seq<string> := ["youtu", "v/", "u/", "embed/", "watch?v=", "&v="]

  /** Only the marker whose first character is at `j` can match there. */
  lemma NoMarkerAtOther(s: string, j: nat, lit: string)
    requires j < |s| && lit in Markers && s[j] == lit[0] && !HasAt(s, j, lit)
    ensures MarkerAt(s, j) == 0
  {
    if lit != "youtu" { Mismatch(s, j, "youtu", 0); }
    if lit != "v/" { Mismatch(s, j, "v/", 0); }
    if lit != "u/" { Mismatch(s, j, "u/", 0); }
    if lit != "embed/" { Mismatch(s, j, "embed/", 0); }
    if lit != "watch?v=" { Mismatch(s, j, "watch?v=", 0); }
    if lit != "&v=" { Mismatch(s, j, "&v=", 0); }
  }

  /** On a single line, the run after the rightmost marker is the id when it
      is 11 characters long and reaches the end of the URL. */
  lemma IdAfterLastMarker(url: string, k: nat, id: string)
    requires forall i :: 0 <= i < |url| ==> !LineTerminator(url[i])
    requires k <= |url| && MarkerAt(url, k) > 0
    requires forall j :: k < j <= |url| ==> MarkerAt(url, j) == 0
    requires k + MarkerAt(url, k) + |id| == |url| && url[k + MarkerAt(url, k)..] == id
    requires |id| == 11 && forall i :: 0 <= i < |id| ==> !StopChar(id[i])
    ensures ExtractVideoId(url) == Some(id)
  {
    var g := k + MarkerAt(url, k);
    assert LineEnd(url, 0) == |url|;
    LastMarkerIs(url, k, |url|);
    RunToEnd(url, g, id);
    assert FindMatch(url) == Some(Match(k, g, |url|));
    assert url[g..|url|] == id;
  }

  lemma LastMarkerIs(s: string, k: nat, n: nat)
    requires k <= n && MarkerAt(s, k) > 0
    requires forall j :: k < j <= n ==> MarkerAt(s, j) == 0
    ensures LastMarker(s, n) == Some(k)
  {
  }

  lemma RunToEnd(s: string, g: nat, id: string)
    requires g + |id| == |s| && s[g..] == id
    requires forall i :: 0 <= i < |id| ==> !StopChar(id[i])
    ensures RunEnd(s, g) == |s|
  {
    assert forall j :: g <= j < |s| ==> s[j] == id[j - g];
  }

  /** Markers are found in a suffix exactly where they are found in the
      whole string. */
  lemma MarkerAtSuffix(s: string, t: string, j: nat)
    requires j <= |t|
    ensures MarkerAt(s + t, |s| + j) == MarkerAt(t, j)
  {
    var u := s + t;
    assert forall i :: 0 <= i < |t| ==> u[|s| + i] == t[i];
    forall lit: string, k: nat | k >= j ensures HasAt(u, |s| + k, lit) == HasAt(t, k, lit) {
      if HasAt(t, k, lit) {
        assert forall i :: 0 <= i < |lit| ==> u[|s| + k + i] == lit[i];
      }
    }
  }

  /** No marker starts inside `watch?v=` after its first character. */
  lemma NoMarkerInsideWatch(prefix: string, rest: string, j: nat)
    requires |prefix| < j < |prefix| + 8
    ensures MarkerAt(prefix + "watch?v=" + rest, j) == 0
  {
    var w := "watch?v=";
    var url := prefix + w + rest;
    var p := |prefix|;
    assert url[j] == w[j - p];
    if j == p + 6 {
      assert url[p + 7] == '=';
      Mismatch(url, j, "v/", 1);
      NoMarkerAtOther(url, j, "v/");
    } else {
      NoMarkerAtChar(url, j);
    }
  }

  /** `watch?v=` right after `prefix` is an eight-character marker. */
  lemma WatchMarker(prefix: string, rest: string)
    ensures MarkerAt(prefix + "watch?v=" + rest, |prefix|) == 8
  {
    var w := "watch?v=";
    var url := prefix + w + rest;
    var p := |prefix|;
    assert forall i :: 0 <= i < 8 ==> url[p + i] == w[i];
    Mismatch(url, p, "youtu", 0);
    Mismatch(url, p, "v/", 0);
    Mismatch(url, p, "u/", 0);
    Mismatch(url, p, "embed/", 0);
  }

  /** The watch URL stays on one line when its pieces do. */
  lemma WatchUrlOneLine(prefix: string, id: string)
    requires forall i :: 0 <= i < |prefix| ==> !LineTerminator(prefix[i])
    requires forall i :: 0 <= i < |id| ==> !LineTerminator(id[i])
    ensures var url := prefix + "watch?v=" + id;
      forall i :: 0 <= i < |url| ==> !LineTerminator(url[i])
  {
    var w := "watch?v=";
    var url := prefix + w + id;
    var p := |prefix|;
    forall i | 0 <= i < |url| ensures !LineTerminator(url[i]) {
      if i < p {
        assert url[i] == prefix[i];
      } else if i >= p + 8 {
        assert url[i] == id[i - p - 8];
      } else {
        assert url[i] == w[i - p];
      }
    }
  }

  /** No marker starts after the `w` of `watch?v=` when none starts in the
      id. */
  lemma WatchUrlLastMarker(prefix: string, id: string)
    requires forall j :: 0 <= j < |id| ==> MarkerAt(id, j) == 0
    ensures var url := prefix + "watch?v=" + id;
      forall j :: |prefix| < j <= |url| ==> MarkerAt(url, j) == 0
  {
    var w := "watch?v=";
    var url := prefix + w + id;
    var p := |prefix|;
    forall j | p < j <= |url| ensures MarkerAt(url, j) == 0 {
      if j < p + 8 {
        NoMarkerInsideWatch(prefix, id, j);
      } else {
        assert url == (prefix + w) + id;
        MarkerAtSuffix(prefix + w, id, j - p - 8);
      }
    }
  }

  /** A watch URL on one line: the 11-character id after `watch?v=` is found
      when no marker starts inside it. */
  lemma WatchUrl(prefix: string, id: string)
    requires |id| == 11
    requires forall i :: 0 <= i < |prefix| ==> !LineTerminator(prefix[i])
    requires forall i :: 0 <= i < |id| ==> !StopChar(id[i]) && !LineTerminator(id[i])
    requires forall j :: 0 <= j < |id| ==> MarkerAt(id, j) == 0
    ensures ExtractVideoId(prefix + "watch?v=" + id) == Some(id)
  {
    var url := prefix + "watch?v=" + id;
    WatchMarker(prefix, id);
    WatchUrlOneLine(prefix, id);
    WatchUrlLastMarker(prefix, id);
    assert url[|prefix| + 8..] == id;
    IdAfterLastMarker(url, |prefix|, id);
  }

  /** No marker starts inside the example's id. */
  lemma ExampleIdHasNoMarker()
    ensures forall j :: 0 <= j < |"yZfwzhXp_VE"| ==> MarkerAt("yZfwzhXp_VE", j) == 0
  {
    var id := "yZfwzhXp_VE";
    forall j | 0 <= j < |id| ensures MarkerAt(id, j) == 0 {
      if j == 0 {
        Mismatch(id, 0, "youtu", 1);
        NoMarkerAtOther(id, 0, "youtu");
      } else if j == 3 {
        Mismatch(id, 3, "watch?v=", 1);
        NoMarkerAtOther(id, 3, "watch?v=");
      } else {
        NoMarkerAtChar(id, j);
      }
    }
  }

  /** The shared-link example: the id after the last marker is recovered. */
  lemma ExampleShareLink()
    ensures ExtractVideoId("http://googleusercontent.com/youtube.com/" + "watch?v=" + "yZfwzhXp_VE") == Some("yZfwzhXp_VE")
  {
    var prefix := "http://googleusercontent.com/youtube.com/";
    var id := "yZfwzhXp_VE";
    assert forall i :: 0 <= i < |prefix| ==> !LineTerminator(prefix[i]);
    assert forall i :: 0 <= i < |id| ==> !StopChar(id[i]) && !LineTerminator(id[i]);
    ExampleIdHasNoMarker();
    WatchUrl(prefix, id);
  }

  // ---------------------------------------------------------------------------
  // Time stamps
  // ---------------------------------------------------------------------------

  predicate AllDigits(s: string) {
    forall i :: 0 <= i < |s| ==> '0' <= s[i] <= '9'
  }

  /** A two-digit field: the number's digits padded with zeros to width 2. */
  function Pad2(n: nat): (r: string)
    ensures |r| >= 2
    ensures n < 100 <==> |r| == 2
    ensures forall i :: 0 <= i < |r| ==> '0' <= r[i] <= '9'
    ensures DecimalValue(r) == n
  {
    var d := NatToString(n);
    NatToStringRoundTrip(n);
    PadStartZerosValue(d, 2);
    assert n < 100 <==> |d| <= 2;
    var r := PadStart(d, 2, '0');
    assert |r| == if |d| >= 2 then |d| else 2;
    r
  }

  /** `r` is the stamp "[" m ":" s "]": the fields sit between the brackets
      and the colon. */
  predicate IsStamp(r: string, m: string, s: string) {
    && |r| == |m| + 5 && |s| == 2
    && r[0] == '[' && r[|r| - 4] == ':' && r[|r| - 1] == ']'
    && r[1..|r| - 4] == m && r[|r| - 3..|r| - 1] == s
  }

  /** `formatTime` on a whole, non-negative number of seconds:
      "[" minutes ":" seconds "]", each field at least two digits. */
  function FormatTime(seconds: nat): (r: string)
    ensures IsStamp(r, Pad2(seconds / 60), Pad2(seconds % 60))
    ensures |r| == 7 <==> seconds < 6000
  {
    var m, s := Pad2(seconds / 60), Pad2(seconds % 60);
    StampShape(m, s);
    "[" + m + ":" + s + "]"
  }

  /** Where the fields of a stamp sit. */
  lemma StampShape(m: string, s: string)
    requires |s| == 2
    ensures IsStamp("[" + m + ":" + s + "]", m, s)
  {
  }

  /** Reading a time stamp back: "[" minutes ":" two-digit seconds "]" gives
      the minutes times 60 plus the seconds, when the seconds are 00..59. */
  function ParseTime(r: string): (t: Option<nat>)
    ensures t.Some? ==> |r| >= 7 && r[0] == '[' && r[|r| - 4] == ':' && r[|r| - 1] == ']'
  {
    if |r| >= 7 && r[0] == '[' && r[|r| - 4] == ':' && r[|r| - 1] == ']'
      && AllDigits(r[1..|r| - 4]) && AllDigits(r[|r| - 3..|r| - 1])
      && DecimalValue(r[|r| - 3..|r| - 1]) < 60
    then Some(DecimalValue(r[1..|r| - 4]) * 60 + DecimalValue(r[|r| - 3..|r| - 1]))
    else None
  }

  /** A stamp whose fields are digits parses to minutes * 60 + seconds. */
  lemma ParseFields(m: string, s: string, r: string, n: nat)
    requires |m| >= 2 && AllDigits(m) && AllDigits(s) && DecimalValue(s) < 60
    requires IsStamp(r, m, s)
    requires n == DecimalValue(m) * 60 + DecimalValue(s)
    ensures ParseTime(r) == Some(n)
  {
  }

  /** Every time stamp reads back as the seconds it was formatted from. */
  lemma FormatTimeRoundTrip(seconds: nat)
    ensures ParseTime(FormatTime(seconds)) == Some(seconds)
  {
    StampFields(seconds, FormatTime(seconds));
  }

  /** The round trip for any string laid out as the stamp of `seconds`. */
  lemma StampFields(seconds: nat, r: string)
    requires IsStamp(r, Pad2(seconds / 60), Pad2(seconds % 60))
    ensures ParseTime(r) == Some(seconds)
  {
    var m, s := Pad2(seconds / 60), Pad2(seconds % 60);
    DivMod60(seconds);
    ParseFields(m, s, r, seconds);
  }

  lemma DivMod60(n: nat)
    ensures n / 60 * 60 + n % 60 == n && n % 60 < 60
  {
  }

  // ---------------------------------------------------------------------------
  // Credits and the YouTube transcription guard
  // ---------------------------------------------------------------------------

  /** The coins `verifyUserCredits` logs as needed: 5 per minute. */
  function RequiredCoins(minutes: int): int {
    minutes * 5
  }

  /** `verifyUserCredits`: the check always passes; the balance is never
      consulted. */
  function VerifyUserCredits(minutes: int): (r: bool)
    ensures r
  {
    true
  }

  const TranscriptionFailed := "Falha ao transcrever o vídeo do YouTube"

  /** The two segments the simulated transcription returns. */
  const DemoSegments: seq<Segment> := [
    Segment(1, 0.0, 5.0, "Olá a todos e bem-vindos ao canal!"),
    Segment(2, 5.0, 12.0, "Hoje vamos falar sobre como criar conteúdo para o YouTube.")
  ]

  /** `transcribeYoutubeVideo`: a URL without a valid id fails with the
      service's single error message; any other gets the simulated transcript
      (`demoText` stands for its fixed text). */
  function TranscribeYoutubeVideo(url: string, demoText: string): (r: Result<TranscriptionResult, string>)
    ensures r.Failure? <==> ExtractVideoId(url).None?
    ensures r.Failure? ==> r.error == TranscriptionFailed
    ensures r.Success? ==> r.value.segments == Some(DemoSegments) && r.value.text == demoText
  {
    if ExtractVideoId(url).None? then Failure(TranscriptionFailed)
    else Success(TranscriptionResult(demoText, Some(DemoSegments)))
  }
}
