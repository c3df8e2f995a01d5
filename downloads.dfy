/**
 * Download routing of utils/downloads.py. A `Downloader` decides, from
 * which site patterns its URL matches, whether to ask the cobalt service,
 * run yt-dlp as a library or run the yt-dlp command line; it settles on a
 * file format and records finished downloads on the bot. The URL patterns
 * of utils/regexes.py are taken as given predicates, and everything the
 * network, yt-dlp or the file system answers is an input.
 */
module Downloads {
  import opened Wrappers
  import opened Text
  import Functions

  /** The site patterns of utils/regexes.py: `search` on a URL. */
  datatype Patterns = Patterns(
    tiktok: string -> bool,
    ytShort: string -> bool,
    youtube: string -> bool,
    twitter: string -> bool,
    reddit: string -> bool,
    instagram: string -> bool,
    ytClip: string -> bool,
    soundcloud: string -> bool,
    /** The text matched by the combined `VIDEOS_RE`, if any. */
    videos: string -> Option<string>)

  /**
   * The error classes of utils/errors.py raised by downloads, and
   * `MessageNotFound`, the `discord.NotFound` that deleting an already
   * deleted message raises, and `FileMissing`, the `FileNotFoundError` that
   * `discord.File` raises on a path with no file.
   */
  datatype DlError = DownloadError(message: string) | InvalidWebsite | VideoIsLive | MessageNotFound | FileMissing(path: string)

  /** The text each error carries (the defaults of utils/errors.py). */
  function Message(e: DlError): string {
    match e
    case DownloadError(m) => m
    case VideoIsLive => "You are not allowed to download live videos."
    case MessageNotFound => "404 Not Found (error code: 10008): Unknown Message"
    case FileMissing(path) => "[Errno 2] No such file or directory: '" + path + "'"
    case InvalidWebsite =>
      "Unaccepted website. Only Twitter, TikTok, Twitch, Instagram, YouTube, Reddit and Soundcloud are accepted right now. If you want to suggest another website join the support server and let us know."
  }

  /**
   * What `ydl.download` does once the match filter has let the video
   * through: it writes the file, raises a `ValueError`, or returns without
   * writing anything, as it does when the video is over `max_filesize`.
   */
  datatype DownloadOutcome = Written | ValueErrorRaised(message: string) | NotWritten

  /** Where the bytes of an attachment come from. */
  datatype FileSource = OnDisk(path: string) | Fetched(url: string)

  /** A `discord.File`: the attachment name and its bytes' origin. */
  datatype File = File(name: string, source: FileSource)

  /** `match_filter`: yt-dlp refuses a video whose metadata says it is live. */
  function MatchFilter(info: map<string, string>): (r: Result<(), DlError>)
    ensures r.Err? <==> "live_status" in info && info["live_status"] == "is_live"
    ensures r.Err? ==> r.error == VideoIsLive
  {
    if "live_status" in info && info["live_status"] == "is_live" then Err(VideoIsLive) else Ok(())
  }

  /** `cobalt_checker`: the sites the cobalt service handles. */
  predicate CobaltChecker(p: Patterns, url: string) {
    p.tiktok(url) || p.ytShort(url) || p.youtube(url) || p.twitter(url) || p.reddit(url)
  }

  /** The JSON body posted to the cobalt service. */
  datatype RequestBody = RequestBody(url: string, vQuality: string, isAudioOnly: bool, vCodec: string, twitterGif: bool)

  function JsonData(url: string, format: string, twitterGif: bool): (b: RequestBody)
    ensures b.url == url && b.twitterGif == twitterGif
    ensures b.isAudioOnly <==> format == "mp3"
    ensures b.vQuality == "max" && b.vCodec == "h264"
  {
    RequestBody(url, "max", format == "mp3", "h264", twitterGif)
  }

  /** One entry of a cobalt `picker` answer. */
  datatype PickerItem = PickerItem(kind: string, url: string)

  /** The fields of a cobalt answer the bot reads; absent keys are `None`. */
  datatype CobaltReply = CobaltReply(url: Option<string>, status: Option<string>, error: Option<string>, picker: seq<PickerItem>)

  /** The `preferredcodec` given to yt-dlp's audio extractor. */
  datatype Codec = FormatBuiltin | Named(name: string)

  datatype Postprocessor = Postprocessor(key: string, codec: Codec, quality: string)

  /** The option dictionary handed to yt-dlp (the `match_filter` entry is `MatchFilter`). */
  datatype YtDlpOptions = YtDlpOptions(outtmpl: string, quiet: bool, maxFilesize: nat, formatSel: string, postprocessors: seq<Postprocessor>)

  /**
   * What one routing step does: the file or error, the downloader's format
   * afterwards, the names appended to the bot's download list, and the
   * yt-dlp options when yt-dlp was called.
   */
  datatype Step = Step(result: Result<File, DlError>, format: string, recorded: seq<string>, options: Option<YtDlpOptions>)

  const ClipMessage := "Youtube clips are not supported at the moment, sorry."
  const FallbackError := "Something went wrong, this was sent to the developers, sorry."
  const InstagramCookies := "files/cookies/instagram-cookies.txt"

  function SavedFile(filename: string, format: string): File {
    File(filename + "." + format, OnDisk("files/downloads/" + filename + "." + format))
  }

  /** The audio extractor entry as the source builds it: the codec is Python's builtin `format`. */
  function AudioPostprocessorAsWritten(): (pp: Postprocessor)
    ensures pp.codec == FormatBuiltin
  {
    Postprocessor("FFmpegExtractAudio", FormatBuiltin, "192")
  }

  /** The audio extractor entry as intended: the codec is the downloader's format. */
  function AudioPostprocessor(format: string): (pp: Postprocessor)
    ensures pp.key == "FFmpegExtractAudio" && pp.quality == "192"
    ensures pp.codec == Named(format)
  {
    Postprocessor("FFmpegExtractAudio", Named(format), "192")
  }

  /** The codec passed as written is never the `mp3` the audio mode has settled on. */
  lemma AudioCodecAsWrittenIsNotFormat()
    ensures AudioPostprocessorAsWritten().codec != AudioPostprocessor("mp3").codec
  {
  }

  function VideoSelector(format: string): string {
    "bestvideo+bestaudio[ext=" + format + "]/best"
  }

  /** The options `yt_dlp_download` builds, with the audio extractor as written. */
  function Options(filename: string, audio: bool, format: string): YtDlpOptions {
    YtDlpOptions("files/downloads/" + filename + ".%(ext)s", true, 100_000_000,
                 if audio then "bestaudio/best" else VideoSelector(format),
                 if audio then [AudioPostprocessorAsWritten()] else [])
  }

  /** The options as intended: the audio extractor names the selected format. */
  function OptionsIntended(filename: string, audio: bool, format: string): YtDlpOptions {
    Options(filename, audio, format).(postprocessors := if audio then [AudioPostprocessor(format)] else [])
  }

  /**
   * The intended options differ from the written ones only in the audio
   * extractor's codec: the selected format instead of the builtin.
   */
  lemma OptionsIntendedFixesCodec(filename: string, audio: bool, format: string)
    ensures var w, i := Options(filename, audio, format), OptionsIntended(filename, audio, format);
      && i.outtmpl == w.outtmpl && i.quiet == w.quiet && i.maxFilesize == w.maxFilesize && i.formatSel == w.formatSel
      && |i.postprocessors| == |w.postprocessors|
      && (!audio ==> i == w)
      && (audio ==>
            |w.postprocessors| == 1 && w.postprocessors[0].codec == FormatBuiltin
            && i.postprocessors[0] == w.postprocessors[0].(codec := Named(format)))
  {
  }

  /**
   * `yt_dlp_download` on values. `info` is the metadata yt-dlp extracts and
   * `outcome` what the download itself does. The name is recorded whenever
   * the download returns, and only then is the file opened.
   */
  function YtDlp(p: Patterns, url: string, format: string, filename: string,
                 info: map<string, string>, outcome: DownloadOutcome): Step
  {
    var m := p.videos(url);
    if m.None? || m.value == "" then Step(Err(InvalidWebsite), format, [], None)
    else
      var audio := p.soundcloud(m.value) || format == "mp3";
      var fmt := if audio then "mp3" else format;
      var opts := Some(Options(filename, audio, fmt));
      if MatchFilter(info).Err? then Step(Err(VideoIsLive), fmt, [], opts)
      else if outcome.ValueErrorRaised? then Step(Err(DownloadError(outcome.message)), fmt, [], opts)
      else if outcome.NotWritten? then Step(Err(FileMissing("files/downloads/" + filename + "." + fmt)), fmt, [filename + "." + fmt], opts)
      else Step(Ok(SavedFile(filename, fmt)), fmt, [filename + "." + fmt], opts)
  }

  /** The cobalt branch of `_download`; `fetchFails` says the GET of the answer's URL raised. */
  function Cobalt(twitter: bool, format: string, filename: string, reply: CobaltReply,
                  fetchFails: bool, errorId: string): Step
  {
    if reply.url.None? || fetchFails || (twitter && reply.status.None?) then
      Step(Err(DownloadError(CobaltFailure(reply, errorId))), format, [], None)
    else
      var fmt := if twitter && reply.status.value == "stream" then "gif" else format;
      Step(Ok(File(filename + "." + fmt, Fetched(reply.url.value))), fmt, [], None)
  }

  function CobaltFailure(reply: CobaltReply, errorId: string): string {
    Functions.CapitalizeText(reply.error.GetOr(FallbackError)) + " Error ID: `" + errorId + "`"
  }

  /** `_download` on values. */
  function Internal(p: Patterns, url: string, format: string, filename: string, reply: CobaltReply,
                    fetchFails: bool, errorId: string, info: map<string, string>, outcome: DownloadOutcome): Step
  {
    if p.ytClip(url) then Step(Err(DownloadError(ClipMessage)), format, [], None)
    else if CobaltChecker(p, url) then Cobalt(p.twitter(url), format, filename, reply, fetchFails, errorId)
    else YtDlp(p, url, format, filename, info, outcome)
  }

  /** YouTube clips are refused before anything else is tried, whatever the other answers. */
  lemma ClipRejectedFirst(p: Patterns, url: string, format: string, filename: string, reply: CobaltReply,
                          fetchFails: bool, errorId: string, info: map<string, string>, outcome: DownloadOutcome)
    requires p.ytClip(url)
    ensures var s := Internal(p, url, format, filename, reply, fetchFails, errorId, info, outcome);
      s == Step(Err(DownloadError(ClipMessage)), format, [], None)
  {
  }

  /**
   * Any other URL goes to cobalt exactly when `cobalt_checker` accepts it,
   * and to yt-dlp otherwise; only the cobalt branch depends on the answer.
   */
  lemma InternalRouting(p: Patterns, url: string, format: string, filename: string, reply: CobaltReply,
                        fetchFails: bool, errorId: string, info: map<string, string>, outcome: DownloadOutcome)
    requires !p.ytClip(url)
    ensures var s := Internal(p, url, format, filename, reply, fetchFails, errorId, info, outcome);
      && (CobaltChecker(p, url) <==> (p.tiktok(url) || p.ytShort(url) || p.youtube(url) || p.twitter(url) || p.reddit(url)))
      && (CobaltChecker(p, url) ==> s == Cobalt(p.twitter(url), format, filename, reply, fetchFails, errorId))
      && (!CobaltChecker(p, url) ==> s == YtDlp(p, url, format, filename, info, outcome))
  {
  }

  /** `InvalidWebsite` comes exactly from a missing or empty match of the combined pattern. */
  lemma InvalidWebsiteIff(p: Patterns, url: string, format: string, filename: string,
                          info: map<string, string>, outcome: DownloadOutcome)
    ensures YtDlp(p, url, format, filename, info, outcome).result == Err(InvalidWebsite)
        <==> p.videos(url).None? || p.videos(url).value == ""
  {
  }

  /**
   * Audio mode is chosen exactly for SoundCloud matches or the `mp3` format;
   * it then fixes the format to `mp3`, asks for `bestaudio/best` and adds the
   * audio extractor. Otherwise the format is kept and the selector names it.
   */
  lemma {:induction false} AudioModeIff(p: Patterns, url: string, format: string, filename: string,
                                        info: map<string, string>, outcome: DownloadOutcome)
    requires p.videos(url).Some? && p.videos(url).value != ""
    ensures var s := YtDlp(p, url, format, filename, info, outcome);
      var audio := p.soundcloud(p.videos(url).value) || format == "mp3";
      && s.options.Some?
      && (s.options.value.formatSel == "bestaudio/best" <==> audio)
      && (s.options.value.postprocessors != [] <==> audio)
      && (audio ==> s.format == "mp3" && s.options.value.postprocessors == [AudioPostprocessorAsWritten()])
      && (!audio ==> s.format == format && s.options.value.formatSel == VideoSelector(format))
  {
    var sel := VideoSelector(format);
    assert sel[0] == 'b' && sel[4] == 'v';
    assert "bestaudio/best"[4] == 'a';
  }

  /**
   * The name goes on the bot's download list exactly when `ydl.download`
   * returns, whether or not it wrote the file; the result is the saved file
   * exactly when it was also written, and a missing file otherwise.
   */
  lemma YtDlpRecordsSuccess(p: Patterns, url: string, format: string, filename: string,
                            info: map<string, string>, outcome: DownloadOutcome)
    ensures var s := YtDlp(p, url, format, filename, info, outcome);
      var returned := p.videos(url).Some? && p.videos(url).value != "" && MatchFilter(info).Ok? && !outcome.ValueErrorRaised?;
      && (s.recorded != [] <==> returned)
      && (returned ==> s.recorded == [filename + "." + s.format])
      && (s.result.Ok? <==> returned && outcome == Written)
      && (s.result.Ok? ==> s.recorded == [s.result.value.name] && s.result.value == SavedFile(filename, s.format))
      && (returned && outcome == NotWritten ==> s.result == Err(FileMissing(SavedFile(filename, s.format).source.path)))
  {
  }

  /** A live video is refused once the URL is accepted, whatever yt-dlp would raise afterwards. */
  lemma LiveVideoRefused(p: Patterns, url: string, format: string, filename: string,
                         info: map<string, string>, outcome: DownloadOutcome)
    requires p.videos(url).Some? && p.videos(url).value != ""
    requires "live_status" in info && info["live_status"] == "is_live"
    ensures YtDlp(p, url, format, filename, info, outcome).result == Err(VideoIsLive)
  {
  }

  /**
   * A cobalt answer fails when its URL is missing, its file cannot be fetched,
   * or, for Twitter, its status is missing; the message then is the answer's
   * capitalised error (or the fallback) followed by the error id. Only a
   * Twitter `stream` answer changes the format, to `gif`.
   */
  lemma CobaltOutcome(twitter: bool, format: string, filename: string, reply: CobaltReply,
                      fetchFails: bool, errorId: string)
    ensures var s := Cobalt(twitter, format, filename, reply, fetchFails, errorId);
      && (s.result.Err? <==> reply.url.None? || fetchFails || (twitter && reply.status.None?))
      && (s.result.Err? ==> s.result.error == DownloadError(CobaltFailure(reply, errorId)) && s.format == format)
      && (s.result.Ok? ==> s.result.value == File(filename + "." + s.format, Fetched(reply.url.value)))
      && (s.format != format ==> twitter && reply.status == Some("stream") && s.format == "gif")
      && s.recorded == []
  {
  }

  /** The error text ends with the error id in back-quotes. */
  lemma CobaltFailureEndsWithId(reply: CobaltReply, errorId: string)
    ensures var m := CobaltFailure(reply, errorId);
      var tail := " Error ID: `" + errorId + "`";
      |m| >= |tail| && m[|m| - |tail|..] == tail
  {
  }

  /** Items of a picker answer that yield a file: everything but photos, in order. */
  function NonPhotos(items: seq<PickerItem>): (r: seq<PickerItem>)
    ensures |r| <= |items|
  {
    if items == [] then []
    else
      var last := items[|items| - 1];
      NonPhotos(items[..|items| - 1]) + (if last.kind == "photo" then [] else [last])
  }

  /** The kept items are exactly the items that are not photos. */
  lemma {:induction false} NonPhotosExactly(items: seq<PickerItem>, x: PickerItem)
    ensures x in NonPhotos(items) <==> x in items && x.kind != "photo"
  {
    if items != [] {
      var init, last := items[..|items| - 1], items[|items| - 1];
      assert items == init + [last];
      NonPhotosExactly(init, x);
    }
  }

  function PickerFile(filename: string, item: PickerItem): File {
    File(filename + "." + (if item.kind == "gif" then "gif" else "mp4"), Fetched(item.url))
  }

  /** The files the picker loop collects, item by item. */
  function PickerFiles(filename: string, items: seq<PickerItem>): seq<File> {
    if items == [] then []
    else
      var last := items[|items| - 1];
      PickerFiles(filename, items[..|items| - 1]) + (if last.kind == "photo" then [] else [PickerFile(filename, last)])
  }

  /**
   * Picker files: one per non-photo item, in order; `gif` items are named
   * `<filename>.gif` and every other kind `<filename>.mp4`.
   */
  lemma {:induction false} PickerFilesAreNonPhotos(filename: string, items: seq<PickerItem>)
    ensures |PickerFiles(filename, items)| == |NonPhotos(items)|
    ensures forall i :: 0 <= i < |NonPhotos(items)| ==>
      PickerFiles(filename, items)[i] == PickerFile(filename, NonPhotos(items)[i])
  {
    if items != [] {
      var init, last := items[..|items| - 1], items[|items| - 1];
      assert items == init + [last];
      PickerFilesAreNonPhotos(filename, init);
    }
  }

  /** Taking a prefix of the items never keeps more non-photos. */
  lemma {:induction false} NonPhotosPrefix(items: seq<PickerItem>, i: nat)
    requires i <= |items|
    ensures |NonPhotos(items[..i])| <= |NonPhotos(items)|
    decreases |items|
  {
    if i < |items| {
      var init := items[..|items| - 1];
      assert init[..i] == items[..i];
      NonPhotosPrefix(init, i);
    } else {
      assert items[..i] == items;
    }
  }

  /**
   * The picker loop as written deletes the "Multiple videos detected"
   * notice after every non-photo item, so the second such item deletes a
   * message that is already gone and `discord.NotFound` ends the download.
   */
  function PickerAsWritten(filename: string, items: seq<PickerItem>): Result<seq<File>, DlError> {
    if |NonPhotos(items)| >= 2 then Err(MessageNotFound) else Ok(PickerFiles(filename, items))
  }

  /** A picker answer with two videos yields no files at all as written. */
  lemma TwoPickerVideosFail(filename: string, a: string, b: string)
    ensures PickerAsWritten(filename, [PickerItem("video", a), PickerItem("video", b)]) == Err(MessageNotFound)
  {
    var items := [PickerItem("video", a), PickerItem("video", b)];
    assert items[..1] == [PickerItem("video", a)];
    assert items[..1][..0] == [];
    assert NonPhotos(items[..1]) == [PickerItem("video", a)];
  }

  /**
   * What `manual_dl` hands back: the saved `filename.format` when the run
   * wrote it, and otherwise the `FileNotFoundError` of opening that path,
   * as when the cookies have expired, the post is private, or yt-dlp fell
   * back to `best` and wrote another extension.
   */
  function ManualResult(filename: string, format: string, written: bool): (r: Result<File, DlError>)
    ensures r.Ok? <==> written
    ensures r.Ok? ==> r.value.name == filename + "." + format && r.value.source == OnDisk("files/downloads/" + r.value.name)
    ensures r.Err? ==> r.error == FileMissing(SavedFile(filename, format).source.path)
  {
    var name := filename + "." + format;
    assert "files/downloads/" + name == "files/downloads/" + filename + "." + format;
    if written then Ok(SavedFile(filename, format)) else Err(FileMissing("files/downloads/" + filename + "." + format))
  }

  /** The argument words of the `manual_dl` command line. */
  function ManualArgs(url: string, cookies: Option<string>, format: string, filename: string): seq<string> {
    ["venv/bin/yt-dlp", url]
    + (if cookies.Some? && cookies.value != "" then ["--cookies", cookies.value] else [])
    + ["--format", VideoSelector(format), "-o", "\"" + filename + ".%(ext)s\"", "-P", "\"files/downloads\""]
  }

  /** Cookies appear in the command exactly when a non-empty cookie path is given, right after the URL. */
  lemma ManualArgsCookies(url: string, cookies: Option<string>, format: string, filename: string)
    ensures var a := ManualArgs(url, cookies, format, filename);
      && a[..2] == ["venv/bin/yt-dlp", url]
      && (cookies.Some? && cookies.value != "" ==> |a| == 10 && a[2..4] == ["--cookies", cookies.value])
      && (!(cookies.Some? && cookies.value != "") ==> |a| == 8 && a[2] == "--format")
      && a[|a| - 6..] == ["--format", VideoSelector(format), "-o", "\"" + filename + ".%(ext)s\"", "-P", "\"files/downloads\""]
  {
  }

  /** The command words, grouped the way the command line appends them. */
  lemma ManualArgsSteps(url: string, cookies: Option<string>, format: string, filename: string)
    ensures ManualArgs(url, cookies, format, filename)
      == (if cookies.Some? && cookies.value != "" then ["venv/bin/yt-dlp", url] + ["--cookies", cookies.value]
          else ["venv/bin/yt-dlp", url])
         + ["--format", VideoSelector(format)] + ["-o", "\"" + filename + ".%(ext)s\""] + ["-P", "\"files/downloads\""]
  {
  }

  /** Joining two more words with spaces appends `a`, a space and `b`. */
  lemma JoinPair(words: seq<string>, a: string, b: string)
    requires words != []
    ensures Join(words + [a, b], " ") == Join(words, " ") + " " + (a + " ") + b
  {
    JoinSnoc(words, a, " ");
    JoinSnoc(words + [a], b, " ");
    assert words + [a] + [b] == words + [a, b];
  }

  /** `cmd` is the space-joined `words` followed by one space, as the command stands between two `+=`. */
  ghost predicate Tracks(cmd: string, words: seq<string>) {
    words != [] && cmd == Join(words, " ") + " "
  }

  /** Appending `a b ` to the command appends the two words. */
  lemma TracksExtend(cmd: string, words: seq<string>, a: string, b: string)
    requires Tracks(cmd, words)
    ensures Tracks(cmd + a + " " + b + " ", words + [a, b])
  {
    JoinPair(words, a, b);
    assert cmd + a + " " + b + " " == cmd + (a + " ") + b + " ";
  }

  /** The bot's list of downloaded file names, which is cleaned up elsewhere. */
  class BotState {
    var currentDownloads: seq<string>

    constructor()
      ensures currentDownloads == []
    {
      currentDownloads := [];
    }
  }

  class Downloader {
    const bot: BotState
    const patterns: Patterns
    const url: string
    var format: string
    const twitterGif: bool
    const filename: string
    const hidden: bool
    const jsonData: RequestBody

    /** `filename` is a parameter: the source's default is a random token drawn once. */
    constructor(bot: BotState, patterns: Patterns, url: string, format: string, twitterGif: bool, filename: string, hidden: bool)
      ensures this.bot == bot && this.patterns == patterns && this.url == url && this.format == format
      ensures this.twitterGif == twitterGif && this.filename == filename && this.hidden == hidden
      ensures jsonData == JsonData(url, format, twitterGif)
    {
      this.bot := bot;
      this.patterns := patterns;
      this.url := url;
      this.format := format;
      this.twitterGif := twitterGif;
      this.filename := filename;
      this.hidden := hidden;
      jsonData := JsonData(url, format, twitterGif);
    }

    /** `yt_dlp_download`. */
    method YtDlpDownload(info: map<string, string>, outcome: DownloadOutcome) returns (r: Result<File, DlError>, options: Option<YtDlpOptions>)
      modifies this`format, bot`currentDownloads
      ensures var s := YtDlp(patterns, url, old(format), filename, info, outcome);
        r == s.result && options == s.options && format == s.format
        && bot.currentDownloads == old(bot.currentDownloads) + s.recorded
    {
      var m := patterns.videos(url);
      if m.None? || m.value == "" {
        return Err(InvalidWebsite), None;
      }
      var video := m.value;
      var audio := false;
      if patterns.soundcloud(video) || format == "mp3" {
        format := "mp3";
        audio := true;
      }
      var opts := YtDlpOptions("files/downloads/" + filename + ".%(ext)s", true, 100_000_000, "", []);
      if audio {
        opts := opts.(postprocessors := opts.postprocessors + [AudioPostprocessorAsWritten()]);
        assert opts.postprocessors == [AudioPostprocessorAsWritten()];
        opts := opts.(formatSel := "bestaudio/best");
      } else {
        opts := opts.(formatSel := VideoSelector(format));
      }
      options := Some(opts);
      if MatchFilter(info).Err? {
        return Err(VideoIsLive), options;
      }
      if outcome.ValueErrorRaised? {
        return Err(DownloadError(outcome.message)), options;
      }
      bot.currentDownloads := bot.currentDownloads + [filename + "." + format];
      if outcome.NotWritten? {
        return Err(FileMissing("files/downloads/" + filename + "." + format)), options;
      }
      r := Ok(SavedFile(filename, format));
    }

    /** `_download`: `reply` is the cobalt answer, `errorId` the random id of an error report. */
    method DownloadInternal(reply: CobaltReply, fetchFails: bool, errorId: string,
                            info: map<string, string>, outcome: DownloadOutcome) returns (r: Result<File, DlError>)
      modifies this`format, bot`currentDownloads
      ensures var s := Internal(patterns, url, old(format), filename, reply, fetchFails, errorId, info, outcome);
        r == s.result && format == s.format && bot.currentDownloads == old(bot.currentDownloads) + s.recorded
    {
      if patterns.ytClip(url) {
        return Err(DownloadError(ClipMessage));
      }
      if CobaltChecker(patterns, url) {
        if reply.url.None? || fetchFails || (patterns.twitter(url) && reply.status.None?) {
          return Err(DownloadError(CobaltFailure(reply, errorId)));
        }
        if patterns.twitter(url) && reply.status.value == "stream" {
          format := "gif";
        }
        r := Ok(File(filename + "." + format, Fetched(reply.url.value)));
      } else {
        var opts;
        r, opts := YtDlpDownload(info, outcome);
      }
    }

    /** The command-line part of `manual_dl`, built word pair by word pair. */
    static method CommandLine(url: string, cookies: Option<string>, format: string, filename: string) returns (cmd: string)
      ensures cmd == Join(ManualArgs(url, cookies, format, filename), " ")
    {
      ghost var words := ["venv/bin/yt-dlp", url];
      cmd := "venv/bin/yt-dlp" + " " + url + " ";
      assert Tracks(cmd, words) by {
        assert words[1..] == [url];
      }
      if cookies.Some? && cookies.value != "" {
        TracksExtend(cmd, words, "--cookies", cookies.value);
        cmd := cmd + "--cookies" + " " + cookies.value + " ";
        words := words + ["--cookies", cookies.value];
      }
      var selector := VideoSelector(format);
      var output := "\"" + filename + ".%(ext)s\"";
      TracksExtend(cmd, words, "--format", selector);
      cmd := cmd + "--format" + " " + selector + " ";
      words := words + ["--format", selector];
      TracksExtend(cmd, words, "-o", output);
      cmd := cmd + "-o" + " " + output + " ";
      words := words + ["-o", output];
      JoinPair(words, "-P", "\"files/downloads\"");
      cmd := cmd + "-P" + " " + "\"files/downloads\"";
      words := words + ["-P", "\"files/downloads\""];
      ManualArgsSteps(url, cookies, format, filename);
    }

    /**
     * `manual_dl`: builds the yt-dlp command line, runs it and records the
     * download. The run's exit status is never checked, so the name is
     * recorded either way; `written` says whether the run left a file named
     * `filename.format`, which `discord.File` then opens.
     */
    method ManualDl(cookies: Option<string>, written: bool) returns (cmd: string, r: Result<File, DlError>)
      modifies bot`currentDownloads
      ensures cmd == Join(ManualArgs(url, cookies, format, filename), " ")
      ensures r == ManualResult(filename, format, written)
      ensures bot.currentDownloads == old(bot.currentDownloads) + [filename + "." + format]
    {
      cmd := CommandLine(url, cookies, format, filename);
      bot.currentDownloads := bot.currentDownloads + [filename + "." + format];
      if !written {
        return cmd, Err(FileMissing("files/downloads/" + filename + "." + format));
      }
      r := Ok(SavedFile(filename, format));
    }

    /**
     * The picker loop of `download` as written: photos are skipped, every
     * other item becomes a file and is followed by deleting the notice.
     */
    method PickerDownloadAsWritten(items: seq<PickerItem>) returns (r: Result<seq<File>, DlError>)
      ensures r == PickerAsWritten(filename, items)
    {
      var files := [];
      var deleted := false;
      for i := 0 to |items|
        invariant files == PickerFiles(filename, items[..i])
        invariant deleted <==> |NonPhotos(items[..i])| >= 1
        invariant |NonPhotos(items[..i])| <= 1
      {
        assert items[..i + 1][..i] == items[..i];
        var tempformat := "mp4";
        if items[i].kind == "photo" {
          continue;
        }
        if items[i].kind == "gif" {
          tempformat := "gif";
        }
        files := files + [File(filename + "." + tempformat, Fetched(items[i].url))];
        if deleted {
          NonPhotosPrefix(items, i + 1);
          return Err(MessageNotFound);
        }
        deleted := true;
      }
      assert items[..|items|] == items;
      r := Ok(files);
    }

    /** The picker loop as intended, deleting the notice once after the loop: every non-photo item becomes a file. */
    method PickerDownload(items: seq<PickerItem>) returns (files: seq<File>)
      ensures files == PickerFiles(filename, items)
    {
      files := [];
      for i := 0 to |items|
        invariant files == PickerFiles(filename, items[..i])
      {
        assert items[..i + 1][..i] == items[..i];
        var tempformat := "mp4";
        if items[i].kind == "photo" {
          continue;
        }
        if items[i].kind == "gif" {
          tempformat := "gif";
        }
        files := files + [File(filename + "." + tempformat, Fetched(items[i].url))];
      }
      assert items[..|items|] == items;
    }

    /**
     * `download`: Instagram goes to the command line with the Instagram
     * cookies, `manualWritten` saying whether that run wrote its file; a Twitter URL whose cobalt answer `first` is a picker yields
     * the picker files; everything else is one `_download`, which for
     * Twitter posts again and reads `second`.
     */
    method Download(first: CobaltReply, second: CobaltReply, fetchFails: bool, errorId: string,
                    info: map<string, string>, outcome: DownloadOutcome, manualWritten: bool) returns (r: Result<seq<File>, DlError>)
      modifies this`format, bot`currentDownloads
      ensures patterns.instagram(url) ==>
        var m := ManualResult(filename, old(format), manualWritten);
        r == (if m.Ok? then Ok([m.value]) else Err(m.error)) && format == old(format)
        && bot.currentDownloads == old(bot.currentDownloads) + [filename + "." + old(format)]
      ensures !patterns.instagram(url) && patterns.twitter(url) && first.status == Some("picker") ==>
        r == PickerAsWritten(filename, first.picker) && format == old(format)
        && bot.currentDownloads == old(bot.currentDownloads)
      ensures !patterns.instagram(url) && !(patterns.twitter(url) && first.status == Some("picker")) ==>
        var reply := if patterns.twitter(url) then second else first;
        var s := Internal(patterns, url, old(format), filename, reply, fetchFails, errorId, info, outcome);
        r == (if s.result.Ok? then Ok([s.result.value]) else Err(s.result.error))
        && format == s.format && bot.currentDownloads == old(bot.currentDownloads) + s.recorded
    {
      if patterns.instagram(url) {
        var cmd, file := ManualDl(Some(InstagramCookies), manualWritten);
        r := if file.Ok? then Ok([file.value]) else Err(file.error);
      } else if patterns.twitter(url) && first.status == Some("picker") {
        r := PickerDownloadAsWritten(first.picker);
      } else {
        var reply := if patterns.twitter(url) then second else first;
        var file := DownloadInternal(reply, fetchFails, errorId, info, outcome);
        r := if file.Ok? then Ok([file.value]) else Err(file.error);
      }
    }
  }
}
