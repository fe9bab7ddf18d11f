/**
 * The download orchestrator: `download_video` (bot.py:301-327),
 * `download_audio` (bot.py:329-404) and the choice between them in
 * `download_and_send` (bot.py:244-262).
 *
 * The fetch engine's `download` call is a parameter (true when it returns,
 * false when it raises), whether `ffmpeg` is on the search path is a boolean,
 * and the scratch directory's `os.listdir` after the download is an injected
 * listing, in listing order.
 */
module Download {
  import opened Wrappers
  import opened Filenames
  import opened Extraction

  datatype Kind = Video | Audio

  /** `download_and_send`'s branch: `"mp4"` is a video, anything else audio (bot.py:259-262). */
  function KindOf(formatType: string): (k: Kind)
    ensures k == Video <==> formatType == "mp4"
  {
    if formatType == "mp4" then Video else Audio
  }

  datatype Postprocessor = Postprocessor(key: string, preferredCodec: string, preferredQuality: string)

  /** The engine options the orchestrator builds; a key the source leaves out is `false`. */
  datatype Options = Options(
    format: string, outtmpl: string, postprocessors: seq<Postprocessor>,
    quiet: bool, noWarnings: bool, noCheckCertificate: bool)

  /** The options and, for audio, the extension the discovery looks for first. */
  datatype Plan = Plan(options: Options, expectedExtension: Option<string>)

  const VideoFormat := "best[ext=mp4]/mp4/best"
  const TranscodeFormat := "bestaudio/best"
  const NativeAudioFormat := "bestaudio[ext=m4a]/bestaudio[ext=webm]/bestaudio/best"
  const Mp3Extractor := Postprocessor("FFmpegExtractAudio", "mp3", "192")

  /**
   * The extension the audio discovery looks for first: `.mp3` when ffmpeg
   * transcodes to MP3 (bot.py:374-378), none otherwise.
   */
  function ExpectedExtension(ffmpeg: bool): (e: Option<string>)
    ensures e.Some? <==> ffmpeg
    ensures e.Some? ==> e.value == "." + Mp3Extractor.preferredCodec
  {
    if ffmpeg then Some(".mp3") else None
  }

  /**
   * The options of bot.py:307-313 (video) and bot.py:339-363 (audio): only
   * audio with ffmpeg present transcodes, to MP3 at 192 kbit/s, and only then
   * is an extension expected, the one of the codec it transcodes to.
   */
  function MakePlan(kind: Kind, ffmpeg: bool, outtmpl: string): (p: Plan)
    ensures p.options.outtmpl == outtmpl && p.options.noCheckCertificate
    ensures p.options.quiet <==> kind == Video
    ensures p.options.noWarnings <==> kind == Video
    ensures kind == Audio && ffmpeg ==>
              && p.options.postprocessors == [Postprocessor("FFmpegExtractAudio", "mp3", "192")]
              && p.expectedExtension == Some(".mp3")
    ensures p.options.postprocessors != [] <==> kind == Audio && ffmpeg
    ensures p.expectedExtension.Some? <==> p.options.postprocessors != []
    ensures p.expectedExtension == (if kind == Audio then ExpectedExtension(ffmpeg) else None)
    ensures p.expectedExtension.Some? ==>
              p.expectedExtension.value == "." + p.options.postprocessors[0].preferredCodec
    ensures p.options.format == (if kind == Video then VideoFormat
                                 else if ffmpeg then TranscodeFormat else NativeAudioFormat)
  {
    match kind
    case Video => Plan(Options(VideoFormat, outtmpl, [], true, true, true), None)
    case Audio =>
      if ffmpeg then Plan(Options(TranscodeFormat, outtmpl, [Mp3Extractor], false, false, true), ExpectedExtension(true))
      else Plan(Options(NativeAudioFormat, outtmpl, [], false, false, true), ExpectedExtension(false))
  }

  /** `os.path.join(dir, name)` on POSIX. */
  function JoinPath(dir: string, name: string): (r: string)
    ensures |name| <= |r| && r[|r| - |name|..] == name
    ensures name != [] && name[0] != '/' && dir != [] && dir[|dir| - 1] != '/' ==> r == dir + "/" + name
  {
    if name != [] && name[0] == '/' then name
    else if dir == [] || dir[|dir| - 1] == '/' then dir + name
    else dir + "/" + name
  }

  /** The output template `os.path.join(output_dir, f"{safe_title}.%(ext)s")`. */
  function OutputTemplate(dir: string, safeTitle: string): string {
    JoinPath(dir, safeTitle + ".%(ext)s")
  }

  /** A sanitised title never starts with `/`, so the template stays inside the scratch directory. */
  lemma TemplateInsideDirectory(dir: string, title: string)
    requires dir != [] && dir[|dir| - 1] != '/'
    ensures OutputTemplate(dir, Sanitized(title)) == dir + "/" + Sanitized(title) + ".%(ext)s"
  {
    var t := Sanitized(title);
    SanitizedIsSafe(title);
    if t != [] {
      assert t[0] in t;
    }
    assert (t + ".%(ext)s")[0] != '/';
    assert dir + "/" + (t + ".%(ext)s") == dir + "/" + t + ".%(ext)s";
  }

  // ---------------------------------------------------------------------
  // Output discovery.
  // ---------------------------------------------------------------------

  predicate StartsWith(s: string, prefix: string) {
    prefix <= s
  }

  predicate EndsWith(s: string, suffix: string) {
    |suffix| <= |s| && s[|s| - |suffix|..] == suffix
  }

  /** The extensions the audio discovery accepts, in the order they are tried (bot.py:381). */
  const AudioExtensions: seq<string> := [".mp3", ".m4a", ".webm", ".ogg", ".aac", ".opus"]

  predicate IsAudioFile(name: string) {
    exists i :: 0 <= i < |AudioExtensions| && EndsWith(name, AudioExtensions[i])
  }

  /** The first entry of `listing` that satisfies `p`. */
  function FirstWhere(listing: seq<string>, p: string -> bool): (r: Option<string>)
    ensures r.None? <==> forall k :: 0 <= k < |listing| ==> !p(listing[k])
    ensures r.Some? ==>
      exists k :: && 0 <= k < |listing| && listing[k] == r.value && p(r.value)
                  && forall j :: 0 <= j < k ==> !p(listing[j])
  {
    if listing == [] then None
    else if p(listing[0]) then Some(listing[0])
    else
      var r := FirstWhere(listing[1..], p);
      assert forall k :: 1 <= k < |listing| ==> listing[k] == listing[1..][k - 1];
      r
  }

  /** The entry the audio discovery settles on: its three passes in order (bot.py:373-397). */
  function AudioChoice(listing: seq<string>, safeTitle: string, expected: Option<string>): Option<string> {
    var exact := if expected.Some?
                 then FirstWhere(listing, f => StartsWith(f, safeTitle) && EndsWith(f, expected.value))
                 else None;
    if exact.Some? then exact
    else
      var titled := FirstWhere(listing, f => StartsWith(f, safeTitle) && IsAudioFile(f));
      if titled.Some? then titled
      else FirstWhere(listing, IsAudioFile)
  }

  /** The video discovery (bot.py:319-323): the first entry that starts with the title, whatever its extension. */
  method FindVideoFile(listing: seq<string>, safeTitle: string) returns (found: Option<string>)
    ensures found == FirstWhere(listing, f => StartsWith(f, safeTitle))
  {
    for i := 0 to |listing|
      invariant forall k :: 0 <= k < i ==> !StartsWith(listing[k], safeTitle)
    {
      if StartsWith(listing[i], safeTitle) {
        FirstWhereAt(listing, f => StartsWith(f, safeTitle), i);
        return Some(listing[i]);
      }
    }
    return None;
  }

  /** The inner loop over `audio_extensions` (bot.py:384-387 and 391-394). */
  method HasAudioExtension(name: string) returns (b: bool)
    ensures b == IsAudioFile(name)
  {
    for i := 0 to |AudioExtensions|
      invariant forall k :: 0 <= k < i ==> !EndsWith(name, AudioExtensions[k])
    {
      if EndsWith(name, AudioExtensions[i]) {
        return true;
      }
    }
    return false;
  }

  /** The audio discovery (bot.py:373-397). */
  method FindAudioFile(listing: seq<string>, safeTitle: string, expected: Option<string>) returns (found: Option<string>)
    ensures found == AudioChoice(listing, safeTitle, expected)
  {
    ghost var titledP := (f: string) => StartsWith(f, safeTitle) && IsAudioFile(f);
    if expected.Some? {
      for i := 0 to |listing|
        invariant forall k :: 0 <= k < i ==> !(StartsWith(listing[k], safeTitle) && EndsWith(listing[k], expected.value))
      {
        if StartsWith(listing[i], safeTitle) && EndsWith(listing[i], expected.value) {
          FirstWhereAt(listing, f => StartsWith(f, safeTitle) && EndsWith(f, expected.value), i);
          return Some(listing[i]);
        }
      }
      NoneWhere(listing, f => StartsWith(f, safeTitle) && EndsWith(f, expected.value));
    }
    for i := 0 to |listing|
      invariant forall k :: 0 <= k < i ==> !(StartsWith(listing[k], safeTitle) && IsAudioFile(listing[k]))
    {
      if StartsWith(listing[i], safeTitle) {
        var audio := HasAudioExtension(listing[i]);
        if audio {
          FirstWhereAt(listing, titledP, i);
          return Some(listing[i]);
        }
      }
    }
    NoneWhere(listing, titledP);
    for i := 0 to |listing|
      invariant forall k :: 0 <= k < i ==> !IsAudioFile(listing[k])
    {
      var audio := HasAudioExtension(listing[i]);
      if audio {
        FirstWhereAt(listing, IsAudioFile, i);
        return Some(listing[i]);
      }
    }
    NoneWhere(listing, IsAudioFile);
    return None;
  }

  lemma {:induction false} FirstWhereAt(listing: seq<string>, p: string -> bool, i: nat)
    requires i < |listing| && p(listing[i])
    requires forall k :: 0 <= k < i ==> !p(listing[k])
    ensures FirstWhere(listing, p) == Some(listing[i])
  {
    if i > 0 {
      assert !p(listing[0]);
      assert forall k :: 0 <= k < i - 1 ==> listing[1..][k] == listing[k + 1];
      FirstWhereAt(listing[1..], p, i - 1);
    }
  }

  lemma NoneWhere(listing: seq<string>, p: string -> bool)
    requires forall k :: 0 <= k < |listing| ==> !p(listing[k])
    ensures FirstWhere(listing, p) == None
  {
  }

  // ---------------------------------------------------------------------
  // Properties of the discovery.
  // ---------------------------------------------------------------------

  /**
   * With an expected extension that is an audio extension, the audio
   * discovery finds nothing exactly when no entry has an audio extension, and
   * whatever it finds is an entry of the listing with an audio extension.
   */
  lemma AudioChoiceSound(listing: seq<string>, safeTitle: string, expected: Option<string>)
    requires expected.Some? ==> expected.value in AudioExtensions
    ensures var r := AudioChoice(listing, safeTitle, expected);
            && (r.None? <==> forall k :: 0 <= k < |listing| ==> !IsAudioFile(listing[k]))
            && (r.Some? ==> r.value in listing && IsAudioFile(r.value))
  {
    var r := AudioChoice(listing, safeTitle, expected);
    if expected.Some? {
      var e := expected.value;
      var i :| 0 <= i < |AudioExtensions| && AudioExtensions[i] == e;
      var exact := FirstWhere(listing, f => StartsWith(f, safeTitle) && EndsWith(f, e));
      if exact.Some? {
        assert IsAudioFile(exact.value) by { assert EndsWith(exact.value, AudioExtensions[i]); }
      }
    }
  }

  /** With ffmpeg present, the first entry named after the title with `.mp3` wins. */
  lemma TranscodedFilePreferred(listing: seq<string>, safeTitle: string, i: nat)
    requires i < |listing| && StartsWith(listing[i], safeTitle) && EndsWith(listing[i], ".mp3")
    requires forall k :: 0 <= k < i ==> !(StartsWith(listing[k], safeTitle) && EndsWith(listing[k], ".mp3"))
    ensures AudioChoice(listing, safeTitle, ExpectedExtension(true)) == Some(listing[i])
  {
    FirstWhereAt(listing, f => StartsWith(f, safeTitle) && EndsWith(f, ".mp3"), i);
  }

  /**
   * Without ffmpeg, the first entry named after the title with any audio
   * extension wins, even when an earlier entry has an audio extension but
   * another name.
   */
  lemma TitledFilePreferred(listing: seq<string>, safeTitle: string, i: nat)
    requires i < |listing| && StartsWith(listing[i], safeTitle) && IsAudioFile(listing[i])
    requires forall k :: 0 <= k < i ==> !(StartsWith(listing[k], safeTitle) && IsAudioFile(listing[k]))
    ensures AudioChoice(listing, safeTitle, ExpectedExtension(false)) == Some(listing[i])
  {
    FirstWhereAt(listing, f => StartsWith(f, safeTitle) && IsAudioFile(f), i);
  }

  // ---------------------------------------------------------------------
  // The two downloads.
  // ---------------------------------------------------------------------

  /**
   * `download_video`: a title that is not a string, or a download that raises,
   * gives `(False, None)`; otherwise the first listing entry that starts with the
   * sanitised title, joined to the directory, or `(False, None)` when there is none.
   */
  method DownloadVideo(url: string, outputDir: string, title: Value,
                       fetch: (string, Options) -> bool, listing: seq<string>)
    returns (success: bool, path: Option<string>)
    ensures success <==> path.Some?
    ensures success <==>
      && title.Str?
      && fetch(url, MakePlan(Video, false, OutputTemplate(outputDir, Sanitized(title.s))).options)
      && exists k :: 0 <= k < |listing| && StartsWith(listing[k], Sanitized(title.s))
    ensures success ==>
      exists k :: && 0 <= k < |listing| && path.value == JoinPath(outputDir, listing[k])
                  && StartsWith(listing[k], Sanitized(title.s))
                  && forall j :: 0 <= j < k ==> !StartsWith(listing[j], Sanitized(title.s))
  {
    if !title.Str? {
      return false, None;
    }
    var safeTitle := SanitizeFilename(title.s);
    var plan := MakePlan(Video, false, OutputTemplate(outputDir, safeTitle));
    if !fetch(url, plan.options) {
      return false, None;
    }
    var found := FindVideoFile(listing, safeTitle);
    if found.Some? {
      return true, Some(JoinPath(outputDir, found.value));
    }
    return false, None;
  }

  /**
   * `download_audio`: as `DownloadVideo`, with the options chosen by whether
   * ffmpeg is present and the entry chosen by the three-pass audio discovery.
   */
  method DownloadAudio(url: string, outputDir: string, title: Value, ffmpeg: bool,
                       fetch: (string, Options) -> bool, listing: seq<string>)
    returns (success: bool, path: Option<string>)
    ensures success <==> path.Some?
    ensures success <==>
      && title.Str?
      && fetch(url, MakePlan(Audio, ffmpeg, OutputTemplate(outputDir, Sanitized(title.s))).options)
      && exists k :: 0 <= k < |listing| && IsAudioFile(listing[k])
    ensures success ==>
      var choice := AudioChoice(listing, Sanitized(title.s), ExpectedExtension(ffmpeg));
      && choice.Some? && path.value == JoinPath(outputDir, choice.value)
      && choice.value in listing && IsAudioFile(choice.value)
  {
    if !title.Str? {
      return false, None;
    }
    var safeTitle := SanitizeFilename(title.s);
    var plan := MakePlan(Audio, ffmpeg, OutputTemplate(outputDir, safeTitle));
    if !fetch(url, plan.options) {
      return false, None;
    }
    AudioChoiceSound(listing, safeTitle, plan.expectedExtension);
    var found := FindAudioFile(listing, safeTitle, plan.expectedExtension);
    if found.Some? {
      return true, Some(JoinPath(outputDir, found.value));
    }
    return false, None;
  }

  /**
   * The download step of `download_and_send`: the format decides which of the
   * two downloads runs, with the stored title and URL; the result is the path
   * of the file to send, if any.
   */
  method DownloadForFormat(info: Metadata, formatType: string, tempDir: string, ffmpeg: bool,
                           fetch: (string, Options) -> bool, listing: seq<string>)
    returns (kind: Kind, path: Option<string>)
    ensures kind == KindOf(formatType)
    ensures path.Some? ==> info.title.Str? && exists k :: 0 <= k < |listing| && path.value == JoinPath(tempDir, listing[k])
    ensures path.Some? && kind == Audio ==> exists f :: f in listing && IsAudioFile(f) && path.value == JoinPath(tempDir, f)
    ensures kind == Video ==>
      && (path.Some? <==>
            && info.title.Str?
            && fetch(info.url, MakePlan(Video, false, OutputTemplate(tempDir, Sanitized(info.title.s))).options)
            && exists k :: 0 <= k < |listing| && StartsWith(listing[k], Sanitized(info.title.s)))
      && (path.Some? ==>
            exists k :: && 0 <= k < |listing| && path.value == JoinPath(tempDir, listing[k])
                        && StartsWith(listing[k], Sanitized(info.title.s))
                        && forall j :: 0 <= j < k ==> !StartsWith(listing[j], Sanitized(info.title.s)))
    ensures kind == Audio ==>
      && (path.Some? <==>
            && info.title.Str?
            && fetch(info.url, MakePlan(Audio, ffmpeg, OutputTemplate(tempDir, Sanitized(info.title.s))).options)
            && exists k :: 0 <= k < |listing| && IsAudioFile(listing[k]))
      && (path.Some? ==>
            var choice := AudioChoice(listing, Sanitized(info.title.s), ExpectedExtension(ffmpeg));
            choice.Some? && path.value == JoinPath(tempDir, choice.value))
  {
    kind := KindOf(formatType);
    var success;
    if kind == Video {
      success, path := DownloadVideo(info.url, tempDir, info.title, fetch, listing);
    } else {
      success, path := DownloadAudio(info.url, tempDir, info.title, ffmpeg, fetch, listing);
      if path.Some? {
        var choice := AudioChoice(listing, Sanitized(info.title.s), ExpectedExtension(ffmpeg));
        ghost var k :| 0 <= k < |listing| && listing[k] == choice.value;
      }
    }
  }
}
