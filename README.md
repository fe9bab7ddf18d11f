# A verified model of a YouTube download bot's core

The bot is a Telegram bot. A user sends it a YouTube link. The bot looks the video up with yt-dlp and checks that the video has at least the configured number of likes. It then lets the user pick MP4 or MP3, downloads the file into a scratch directory, finds the file it wrote, and sends it back. This project models the parts of `bot.py` that decide things and proves what they do:

- `UrlClassifier`: `is_youtube_url`. The seven regular expressions are written out as values of a small regex fragment (literal alternatives, literals, `[\w-]+`, a trailing `(x.*)?`). `Matches` gives them the meaning of `re.match`, which matches at the start of the text only. `IsYoutubeUrl` is the source's `any(...)`. It is proved equal to `IsSupportedUrl`, a hand-written description of the accepted shapes.
- `Filenames`: `sanitize_filename`. The loop does one `str.replace` per forbidden character, then the string is cut to 100 characters, then `str.strip()` runs.
- `Duration`: `format_duration`, plus a reader that splits the text back into clock fields.
- `Extraction`: `get_video_info`. Four extraction configurations are tried in order and the first success is normalised with `dict.get`. The engine's `extract_info` is a function parameter that returns the raw info map, or `None` when it raises.
- `Download`: the options `download_video` and `download_audio` build, and the scan of the scratch directory that finds the downloaded file. `download_and_send` picks MP4 or the other format. The engine's `download`, the `ffmpeg` lookup and `os.listdir` are inputs.
- `Conversation`: a `Session` class stands for one user's `context.user_data`. Its `pending` field is the stored `'video_info'`. It has `handle_message`/`process_youtube_url` (the popularity gate and the session write) and `handle_callback`.

Behaviour of the code that the model keeps:

- Fields are not always filled in. `dict.get(key, default)` uses the default only when a key is missing. A `None` that the engine does report is kept (`Extraction.Normalize`). A `None` like count or duration then makes `process_youtube_url` raise `TypeError` (`Conversation.Reply.Crashed`).
- Cancel does not clear the stored record. A new URL replaces it only when that video passes the gate. A rejected or unresolvable URL leaves the earlier record stored (`Conversation.Session.HandleMessage`, `HandleCallback`).
- The help text says a video needs "more than" the threshold. The code lets a like count equal to the threshold pass (`Conversation.Gate`).
- Video discovery takes the first entry that starts with the sanitised title and does not check its extension.

## Model

| member | source | states |
|---|---|---|
| UrlClassifier.IsYoutubeUrl | bot.py:83-95 | some of the seven patterns matches at the start of the text |
| UrlClassifier.ClassifierCorrect | bot.py:81-95 | the seven patterns under start-anchored matching accept exactly: optional `http://`/`https://`, optional `www.` (or `m.` for the youtube.com forms), a watch, youtu.be or shorts path, then a `[\w-]` character; patterns 6 and 7 add nothing |
| UrlClassifier.RejectsEmpty | bot.py:95 | the empty message is not a YouTube URL |
| UrlClassifier.AcceptedIsPrefixClosed | bot.py:83-95 | if a text is accepted, so is that text followed by anything (trailing parameters are tolerated) |
| UrlClassifier.HttpsUrlAccepted | bot.py:85-90 | `https://` + an allowed subdomain (or none) + path + any text that starts with an id character is accepted |
| UrlClassifier.HelpTextFormsAccepted | bot.py:56-60 | the four example forms of the help text are accepted |
| UrlClassifier.ForeignHostRejected | bot.py:83-95 | an `https://` link whose host starts with anything but `y`, `w` or `m` is refused |
| UrlClassifier.ForeignLinkRejected | bot.py:83-95 | a vimeo.com link is refused |
| Filenames.ReplaceChar | bot.py:411 | `str.replace` of one character: same length, each occurrence replaced, every other character kept |
| Filenames.Strip | bot.py:417 | `strip()` returns the infix of its input between leading and trailing whitespace; the result neither starts nor ends with whitespace and everything it drops is whitespace |
| Filenames.Truncate | bot.py:414-415 | the cut keeps the first characters of its input: the result is a prefix of it, equal to it when it has at most 100 characters and exactly 100 characters long otherwise |
| Filenames.SanitizeFilename | bot.py:406-417 | the replace loop over the nine characters, the cut and the strip compute the one-pass specification `Sanitized` |
| Filenames.SanitizedIsSafe | bot.py:406-417 | a sanitised name has none of `<>:"/\|?*`, at most 100 characters and no leading or trailing whitespace |
| Filenames.StripTrimmed | bot.py:417 | `strip()` leaves a string that neither starts nor ends with whitespace unchanged |
| Filenames.SanitizeIdempotent | bot.py:406-417 | sanitising a sanitised name returns it unchanged |
| Duration.Decimal | bot.py:428-430 | the decimal text of a number is at least one character long and is made of digits only |
| Duration.Pad2 | bot.py:428-430 | `{n:02d}` gives at least two digits |
| Duration.FormatDuration | bot.py:419-430 | 0 gives `Unknown`; any other input gives a text of at least five characters that starts with a digit |
| Duration.DecimalValue | bot.py:428-430 | reading the decimal text of `n` back gives `n` |
| Duration.LongClockFields | bot.py:427-428 | `HH:MM:SS` splits into its three fields, which are clock-shaped (decimal digits, the last two exactly two digits), and reads back as h·3600 + m·60 + s |
| Duration.DecimalLeadingDigit | bot.py:428 | the decimal text of a positive number does not start with `0` |
| Duration.Pad2NoExtraZero | bot.py:428-430 | `{n:02d}` is either exactly two digits or does not start with `0` |
| Duration.ShortClockFields | bot.py:429-430 | `MM:SS` splits into its two fields, which are clock-shaped, and reads back as m·60 + s |
| Duration.FormatDurationRoundTrip | bot.py:424-430 | for n > 0 the text has three colon-separated fields exactly when n >= 3600 and two otherwise; every field is at least two decimal digits; the first is padded to two digits and no further; minutes and seconds have exactly two digits and are below 60; the fields read in base 60 give n back |
| Extraction.Strategies | bot.py:101-133 | the four configurations in source order: plain; no certificate check; no certificate check and a browser user agent; no certificate check and prefer insecure transport |
| Extraction.StrategiesEscalate | bot.py:101-133 | there are four strategies; all but the first skip the certificate check; only the third sends the browser user agent; only the fourth prefers insecure transport |
| Extraction.Normalize | bot.py:142-151 | a key the engine reported keeps its value, even `None`; a missing `title`/`uploader` becomes `Unknown`; a missing `duration`/`like_count`/`view_count` becomes 0; a missing `id`/`thumbnail` becomes the empty string; `url` is the input URL |
| Extraction.FirstSuccess | bot.py:136-158 | no result exactly when every configuration fails; otherwise the normalised record of the first configuration that succeeds, after which all earlier ones failed |
| Extraction.GetVideoInfo | bot.py:97-162 | the strategy loop returns `FirstSuccess` over the four strategies; the configurations it tries are a prefix of the strategy list; every tried one but the last failed; it stops at the first success; when nothing succeeds, all four are tried |
| Extraction.FirstSuccessAt | bot.py:136-154 | when configuration i is the first that succeeds, its normalised record is the result |
| Extraction.MissingFieldsDefault | bot.py:143-147 | any record without `like_count`, `uploader` and `duration` normalises to 0 likes, uploader `Unknown` and duration 0; a `None` title the engine reported stays `None` |
| Download.KindOf | bot.py:259-262 | `"mp4"` selects the video download and every other format the audio download |
| Download.ExpectedExtension | bot.py:374-378 | an extension is expected exactly when ffmpeg is present, and it is `.` followed by the codec the MP3 postprocessor transcodes to |
| Download.MakePlan | bot.py:307-363 | the format selector for each kind and ffmpeg setting; certificate checks are off; only video is quiet and suppresses warnings; only audio with ffmpeg has a postprocessor, exactly `FFmpegExtractAudio` to `mp3` at `192`, and only then is an extension expected, `.mp3` |
| Download.JoinPath | bot.py:305 | `os.path.join` on POSIX: the result ends with the name, and it is `dir/name` for a relative name and a directory without a trailing slash |
| Download.TemplateInsideDirectory | bot.py:304-305 | the output template of a sanitised title is `dir/<title>.%(ext)s` |
| Download.FirstWhere | bot.py:319-323 | the first entry of the listing, in listing order, that satisfies a test; none exactly when no entry does |
| Download.FindVideoFile | bot.py:319-323 | the video scan returns the first entry that starts with the sanitised title, or nothing when no entry does |
| Download.HasAudioExtension | bot.py:384-387 | the loop over the audio extensions succeeds exactly when the name ends with one of `.mp3 .m4a .webm .ogg .aac .opus` |
| Download.FindAudioFile | bot.py:373-397 | the three loops compute `AudioChoice`: title + expected extension first (only when one is expected), then title + any audio extension (files outer, extensions inner), then any audio file |
| Download.AudioChoiceSound | bot.py:374-397 | the audio scan finds nothing exactly when no entry ends with an audio extension; any entry it finds is in the listing and ends with an audio extension |
| Download.TranscodedFilePreferred | bot.py:374-378 | with ffmpeg present, the first entry that starts with the title and ends with `.mp3` is returned |
| Download.TitledFilePreferred | bot.py:380-387 | without ffmpeg, the first entry that starts with the title and has an audio extension wins over an earlier audio file with another name |
| Download.DownloadVideo | bot.py:301-327 | success exactly when a path is returned; success exactly when the title is a string, the download returns normally and some entry starts with the sanitised title; the path is that first entry joined to the directory; any other case gives `(False, None)` |
| Download.DownloadAudio | bot.py:329-404 | success exactly when the title is a string, the download returns normally and some entry has an audio extension; the path is the directory joined to the entry `AudioChoice` picks, which is in the listing and has an audio extension |
| Download.DownloadForFormat | bot.py:244-262 | the format string picks the kind; for video a path is returned exactly when the title is a string, the video download returns normally and some entry starts with the sanitised title, and it is the first such entry joined to the scratch directory; for audio exactly when the title is a string, the audio download returns normally and some entry has an audio extension, and it is the entry `AudioChoice` picks |
| Conversation.Gate | bot.py:192 | a numeric like count passes exactly when it is at least the threshold, so a count equal to the threshold passes; a non-numeric count cannot be compared |
| Conversation.DurationText | bot.py:190 | `format_duration` of a raw value succeeds exactly for numbers and is then `format_duration` of that number: `Unknown` for 0 and, for a positive number, a text whose fields read back in base 60 give the number |
| Conversation.UrlReply | bot.py:172-204 | a failed resolution gives the error reply; the format choice is offered exactly when the duration is numeric and the gate passes; a rejection carries the actual likes, which are below the threshold, and the record's title and uploader |
| Conversation.Session.constructor | bot.py:24-26 | a new session has the given threshold and nothing stored |
| Conversation.Session.HandleMessage | bot.py:65-204 | a non-URL gets the guidance reply; a URL gets `UrlReply` of the resolver's result; the stored record becomes the offered one on a pass and is unchanged otherwise; an offered record has the message as its URL and passes the gate |
| Conversation.Session.HandleCallback | bot.py:225-242 | `cancel` is answered first; with nothing stored the selection has expired; `download_mp4`/`download_mp3` start the video/audio download of the stored record; any other data does nothing; the stored record is never changed |

## Left out

- Telegram. `setup_handlers`, `start_command`, `help_command`, every message text, `edit_message_text`, `reply_video`/`reply_audio`, `run` and `main` are I/O against a foreign library. A handler returns which reply or action it gives.
- The yt-dlp calls (`extract_info`, `download`), `shutil.which`, `tempfile.TemporaryDirectory`, `os.listdir`, `os.path.exists` and `open` are foreign calls or filesystem access. They are modelled by inputs: a function from URL and configuration to the info map (or `None` when it raises), a function that says whether `download` returned normally, a boolean for ffmpeg presence, and the directory listing after the download.
- `download_and_send` is modelled only up to the downloaded path. Its `os.path.exists` check always holds for a path built from a listing entry. Sending the file and the `except` around it are chat I/O.
- The async/await structure and all logging.
- `config.py` only loads environment variables with defaults.
- Only the options that differ between strategies are modelled in `Extraction.Config`. The shared `quiet`, `no_warnings` and `extract_flat` flags are the same in all four strategies.
- UrlClassifier.IsWordChar: `\w` is ASCII letters, digits and `_`. Python's Unicode word characters outside ASCII are not modelled.
- Raw engine values are integers, strings or `None`. Floats (a fractional duration) and booleans counted as integers are not modelled.
- A `TypeError` that escapes `process_youtube_url` is the reply `Crashed`. What the chat framework then does with the exception is not modelled.
