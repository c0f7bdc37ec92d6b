/** The deterministic parts of src/api/youtubeApi.ts: `formatDuration`,
    `searchCreator`, and the conversion of a channel reply into `VideoInfo`
    records inside `getCreatorVideos`. The HTTP requests themselves are not
    modelled; their replies are parameters. */
module YoutubeApi {
  import opened Strings
  import opened Types

  // ---------------------------------------------------------------------
  // formatDuration

  /** Whole hours, minutes within the hour, and seconds within the minute of
      a duration given in seconds (`Math.floor` on naturals). */
  function Hours(seconds: nat): nat { seconds / 3600 }
  function MinutesPart(seconds: nat): nat { (seconds % 3600) / 60 }
  function SecondsPart(seconds: nat): nat { seconds % 60 }

  /** The number of seconds in `h` hours, `m` minutes and `s` seconds. */
  function TotalSeconds(h: nat, m: nat, s: nat): nat
  {
    h * 3600 + m * 60 + s
  }

  /** The three fields decompose the duration exactly. */
  lemma DurationFields(seconds: nat)
    ensures MinutesPart(seconds) < 60 && SecondsPart(seconds) < 60
    ensures TotalSeconds(Hours(seconds), MinutesPart(seconds), SecondsPart(seconds)) == seconds
    ensures Hours(seconds) > 0 <==> seconds >= 3600
    ensures seconds < 3600 ==> MinutesPart(seconds) == seconds / 60
  {
    var q, r := seconds / 3600, seconds % 3600;
    var mm, ss := r / 60, r % 60;
    assert seconds == 3600 * q + r && r < 3600;
    assert r == 60 * mm + ss && ss < 60;
    ModSixty(seconds, 60 * q + mm, ss);
  }

  /** The remainder by 60 is the only one below 60. */
  lemma ModSixty(n: nat, k: nat, rest: nat)
    requires rest < 60 && n == 60 * k + rest
    ensures n % 60 == rest
  {
  }

  /** `formatDuration`: empty for zero, `H:MM:SS` from one hour on, `M:SS`
      below it. The first field is the whole hours (or, below an hour, the
      whole minutes) without padding; every later field is two digits that
      read back as the minutes within the hour or the seconds within the
      minute. */
  function FormatDuration(seconds: nat): (text: string)
    ensures text == "" <==> seconds == 0
    ensures seconds >= 3600 ==>
              var fields := Split(text, ':');
              && |fields| == 3
              && fields[0] == Digits(Hours(seconds))
              && |fields[1]| == 2 && AllDigits(fields[1]) && ParseDecimal(fields[1]) == MinutesPart(seconds)
              && |fields[2]| == 2 && AllDigits(fields[2]) && ParseDecimal(fields[2]) == SecondsPart(seconds)
    ensures 0 < seconds < 3600 ==>
              var fields := Split(text, ':');
              && |fields| == 2
              && fields[0] == Digits(seconds / 60)
              && |fields[1]| == 2 && AllDigits(fields[1]) && ParseDecimal(fields[1]) == SecondsPart(seconds)
  {
    if seconds == 0 then ""
    else
      var h, m, s := Hours(seconds), MinutesPart(seconds), SecondsPart(seconds);
      DurationFields(seconds);
      if h > 0 then
        var text := Digits(h) + ":" + Pad2(Digits(m)) + ":" + Pad2(Digits(s));
        LongFormPieces(h, m, s);
        assert Split(text, ':') == [Digits(h), Pad2(Digits(m)), Pad2(Digits(s))];
        text
      else
        var text := Digits(m) + ":" + Pad2(Digits(s));
        ShortFormPieces(m, s);
        assert Split(text, ':') == [Digits(m), Pad2(Digits(s))];
        text
  }

  /** A field below 60, padded: two digits that read back as the field. */
  lemma PaddedField(n: nat)
    requires n < 60
    ensures |Pad2(Digits(n))| == 2 && AllDigits(Pad2(Digits(n)))
    ensures ParseDecimal(Pad2(Digits(n))) == n
  {
    ParsePad2(n);
  }

  lemma LongFormPieces(h: nat, m: nat, s: nat)
    requires m < 60 && s < 60
    ensures var a, b, c := Digits(h), Pad2(Digits(m)), Pad2(Digits(s));
            && Split(a + ":" + b + ":" + c, ':') == [a, b, c]
            && |b| == 2 && |c| == 2 && AllDigits(b) && AllDigits(c)
            && ParseDecimal(b) == m && ParseDecimal(c) == s
  {
    PaddedField(m);
    PaddedField(s);
    SplitFields3(Digits(h), Pad2(Digits(m)), Pad2(Digits(s)));
  }

  lemma ShortFormPieces(m: nat, s: nat)
    requires s < 60
    ensures var a, b := Digits(m), Pad2(Digits(s));
            && Split(a + ":" + b, ':') == [a, b]
            && |b| == 2 && AllDigits(b) && ParseDecimal(b) == s
  {
    PaddedField(s);
    SplitFields2(Digits(m), Pad2(Digits(s)));
  }

  /** A duration field: a non-empty run of digits. */
  predicate IsField(s: string)
  {
    s != "" && AllDigits(s)
  }

  /** Reads `M:SS` or `H:MM:SS` back into seconds: the reference the
      formatter is checked against. */
  function ParseDuration(text: string): (r: Option<nat>)
  {
    var parts := Split(text, ':');
    if |parts| == 2 && IsField(parts[0]) && IsField(parts[1]) then
      Some(TotalSeconds(0, ParseDecimal(parts[0]), ParseDecimal(parts[1])))
    else if |parts| == 3 && IsField(parts[0]) && IsField(parts[1]) && IsField(parts[2]) then
      Some(TotalSeconds(ParseDecimal(parts[0]), ParseDecimal(parts[1]), ParseDecimal(parts[2])))
    else
      None
  }

  lemma NoColonInDigits(s: string)
    requires AllDigits(s)
    ensures ':' !in s
  {
  }

  lemma {:induction false} SplitFields2(a: string, b: string)
    requires AllDigits(a) && AllDigits(b)
    ensures Split(a + ":" + b, ':') == [a, b]
  {
    NoColonInDigits(a);
    NoColonInDigits(b);
    SplitConcat(a, b, ':');
    SplitNoSeparator(a, ':');
    SplitNoSeparator(b, ':');
  }

  lemma {:induction false} SplitFields3(a: string, b: string, c: string)
    requires AllDigits(a) && AllDigits(b) && AllDigits(c)
    ensures Split(a + ":" + b + ":" + c, ':') == [a, b, c]
  {
    NoColonInDigits(a);
    SplitFields2(b, c);
    assert a + ":" + b + ":" + c == a + [':'] + (b + ":" + c);
    SplitConcat(a, b + ":" + c, ':');
    SplitNoSeparator(a, ':');
  }

  lemma {:induction false} ParseLongForm(h: nat, m: nat, s: nat)
    ensures ParseDuration(Digits(h) + ":" + Pad2(Digits(m)) + ":" + Pad2(Digits(s)))
         == Some(TotalSeconds(h, m, s))
  {
    var a, b, c := Digits(h), Pad2(Digits(m)), Pad2(Digits(s));
    ParseDigits(h);
    ParsePad2(m);
    ParsePad2(s);
    SplitFields3(a, b, c);
    assert IsField(a) && IsField(b) && IsField(c);
    ParseThreeFields(a + ":" + b + ":" + c, a, b, c);
  }

  lemma ParseThreeFields(t: string, a: string, b: string, c: string)
    requires Split(t, ':') == [a, b, c] && IsField(a) && IsField(b) && IsField(c)
    ensures ParseDuration(t) == Some(TotalSeconds(ParseDecimal(a), ParseDecimal(b), ParseDecimal(c)))
  {
    var parts := Split(t, ':');
    assert |parts| == 3 && parts[0] == a && parts[1] == b && parts[2] == c;
  }

  lemma {:induction false} ParseShortForm(m: nat, s: nat)
    ensures ParseDuration(Digits(m) + ":" + Pad2(Digits(s))) == Some(TotalSeconds(0, m, s))
  {
    var a, b := Digits(m), Pad2(Digits(s));
    var t := a + ":" + b;
    ParseDigits(m);
    ParsePad2(s);
    SplitFields2(a, b);
    assert IsField(a) && IsField(b);
    ParseTwoFields(t, a, b);
  }

  lemma ParseTwoFields(t: string, a: string, b: string)
    requires Split(t, ':') == [a, b] && IsField(a) && IsField(b)
    ensures ParseDuration(t) == Some(TotalSeconds(0, ParseDecimal(a), ParseDecimal(b)))
  {
  }

  /** Every positive duration is read back from its text unchanged: the
      fields are the hours, minutes and seconds of the input. */
  lemma {:induction false} FormatDurationRoundTrip(seconds: nat)
    ensures seconds > 0 ==> ParseDuration(FormatDuration(seconds)) == Some(seconds)
  {
    if seconds == 0 {
      return;
    }
    var h, m, s := Hours(seconds), MinutesPart(seconds), SecondsPart(seconds);
    DurationFields(seconds);
    if h > 0 {
      ParseLongForm(h, m, s);
    } else {
      ParseShortForm(m, s);
    }
  }

  // ---------------------------------------------------------------------
  // getCreatorVideos: the conversion of the reply

  /** One video as the channel-search endpoint returns it. */
  datatype ApiVideo = ApiVideo(
    id: string,
    title: string,
    url: string,
    uploadDate: string,
    duration: nat,
    viewCount: nat,
    description: string)

  datatype ApiChannel = ApiChannel(channelName: string, videoCount: nat, videos: seq<ApiVideo>)

  const ThumbnailPrefix := "https://i.ytimg.com/vi/"
  const ThumbnailSuffix := "/maxresdefault.jpg"

  function Thumbnail(videoId: string): string
  {
    ThumbnailPrefix + videoId + ThumbnailSuffix
  }

  /** The video id a thumbnail URL was built from. */
  function ThumbnailVideoId(url: string): Option<string>
  {
    match StripPrefix(url, ThumbnailPrefix)
    case None => None
    case Some(rest) => StripSuffix(rest, ThumbnailSuffix)
  }

  lemma ThumbnailRoundTrip(videoId: string)
    ensures ThumbnailVideoId(Thumbnail(videoId)) == Some(videoId)
  {
    assert ThumbnailPrefix <= Thumbnail(videoId);
    assert Thumbnail(videoId)[|ThumbnailPrefix|..] == videoId + ThumbnailSuffix;
  }

  /** The record built for one video; `now` stands for the current time,
      used when the reply has no upload date. */
  function ToVideoInfo(channelName: string, video: ApiVideo, now: string): (info: VideoInfo)
    ensures info.id == video.id && info.title == video.title && info.url == Some(video.url)
    ensures info.description == Some(video.description) && info.viewCount == Some(video.viewCount)
    ensures info.channel == channelName && info.channelId == channelName
    ensures ThumbnailVideoId(info.thumbnail) == Some(video.id)
    ensures info.publishedAt == (if video.uploadDate != "" then video.uploadDate else now)
    ensures info.duration == Some(FormatDuration(video.duration))
    ensures info.duration.Some? && (info.duration.value == "" <==> video.duration == 0)
    ensures video.duration > 0 ==> ParseDuration(info.duration.value) == Some(video.duration)
    ensures info.likeCount == None && info.summary == None
  {
    ThumbnailRoundTrip(video.id);
    FormatDurationRoundTrip(video.duration);
    VideoInfo(
      id := video.id,
      title := video.title,
      description := Some(video.description),
      channel := channelName,
      channelId := channelName,
      thumbnail := Thumbnail(video.id),
      publishedAt := OrDefault(video.uploadDate, now),
      viewCount := Some(video.viewCount),
      likeCount := None,
      duration := Some(FormatDuration(video.duration)),
      summary := None,
      url := Some(video.url))
  }

  /** `data.videos.map(...)`: one record per video, in the same order. */
  function ToVideoInfos(data: ApiChannel, now: string): (infos: seq<VideoInfo>)
    ensures |infos| == |data.videos|
    ensures forall i :: 0 <= i < |infos| ==> infos[i] == ToVideoInfo(data.channelName, data.videos[i], now)
  {
    seq(|data.videos|, i requires 0 <= i < |data.videos| => ToVideoInfo(data.channelName, data.videos[i], now))
  }

  const CreatorVideosError := "Failed to get creator videos"

  /** `getCreatorVideos` after its request: a reply that is not ok throws,
      an ok reply is converted. */
  function CreatorVideos(ok: bool, data: ApiChannel, now: string): (r: Settled<seq<VideoInfo>>)
    ensures !ok ==> r == Rejected(CreatorVideosError)
    ensures ok ==> r == Resolved(ToVideoInfos(data, now)) && |r.value| == |data.videos|
  {
    if !ok then Rejected(CreatorVideosError) else Resolved(ToVideoInfos(data, now))
  }

  // ---------------------------------------------------------------------
  // searchCreator

  const ChannelUrlPrefix := "https://www.youtube.com/c/"

  /** The channel name a `/c/` channel URL names. */
  function ChannelNameOfUrl(url: string): Option<string>
  {
    StripPrefix(url, ChannelUrlPrefix)
  }

  /** `searchCreator`: exactly one creator, named and identified by the
      query, whose channel URL names the query. */
  function SearchCreator(query: string): (creators: seq<Creator>)
    ensures |creators| == 1
    ensures creators[0].id == query && creators[0].name == query
    ensures ChannelNameOfUrl(creators[0].channelUrl) == Some(query)
    ensures creators[0].profilePicture == None && creators[0].subscriberCount == None
  {
    assert ChannelUrlPrefix <= ChannelUrlPrefix + query;
    assert (ChannelUrlPrefix + query)[|ChannelUrlPrefix|..] == query;
    [Creator(
      id := query,
      name := query,
      profilePicture := None,
      channelUrl := ChannelUrlPrefix + query,
      subscriberCount := None,
      videoCount := None,
      description := None)]
  }
}
