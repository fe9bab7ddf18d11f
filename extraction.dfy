/**
 * The metadata resolver `get_video_info` (bot.py:97-162): four extraction
 * configurations tried in order, the first success normalised and returned.
 *
 * The extraction engine's `extract_info` is a parameter: a total function from
 * the URL and a configuration to the raw info dictionary it returns, or `None`
 * when it raises (any exception of a strategy is caught and the next one tried).
 */
module Extraction {
  import opened Wrappers

  /** A value of the engine's info dictionary, as far as the bot looks at it. */
  datatype Value = Int(i: int) | Str(s: string) | Null

  /** The info dictionary `extract_info` returns: a missing key is absent from the map. */
  type RawInfo = map<string, Value>

  /** The extraction options that differ between the strategies (bot.py:101-133). */
  datatype Config = Config(noCheckCertificate: bool, userAgent: Option<string>, preferInsecure: bool)

  const BrowserUserAgent: string :=
    "Mozilla/5.0 (Windows NT 10.0; Win64; x64) AppleWebKit/537.36 (KHTML, like Gecko) Chrome/91.0.4472.124 Safari/537.36"

  /** The four strategies in the order they are tried; all of them run quietly and without flat extraction. */
  const Strategies: seq<Config> := [
    Config(false, None, false),                    // default options
    Config(true, None, false),                     // no certificate check
    Config(true, Some(BrowserUserAgent), false),   // no certificate check, browser user agent
    Config(true, None, true)                       // no certificate check, prefer insecure transport
  ]

  /**
   * The strategies escalate: only the first checks certificates, only the
   * third sends a browser user agent, and only the last prefers insecure
   * transport.
   */
  lemma StrategiesEscalate()
    ensures |Strategies| == 4
    ensures forall k :: 0 <= k < |Strategies| ==> (Strategies[k].noCheckCertificate <==> k > 0)
    ensures forall k :: 0 <= k < |Strategies| ==> (Strategies[k].userAgent.Some? <==> k == 2)
    ensures Strategies[2].userAgent == Some(BrowserUserAgent)
    ensures forall k :: 0 <= k < |Strategies| ==> (Strategies[k].preferInsecure <==> k == 3)
  {
  }

  /** The normalised record `get_video_info` returns (bot.py:142-151). */
  datatype Metadata = Metadata(
    title: Value, uploader: Value, duration: Value, likeCount: Value, viewCount: Value,
    url: string, id: Value, thumbnail: Value)

  /** `info.get(key, default)`. */
  function Get(info: RawInfo, key: string, default: Value): Value {
    if key in info then info[key] else default
  }

  /**
   * The record built from a successful extraction: a key the engine reported
   * keeps its value (even a `None`), a missing key gets its default, and `url`
   * is the URL the user sent.
   */
  function Normalize(info: RawInfo, url: string): (m: Metadata)
    ensures m.url == url
    ensures m.title == (if "title" in info then info["title"] else Str("Unknown"))
    ensures m.uploader == (if "uploader" in info then info["uploader"] else Str("Unknown"))
    ensures m.duration == (if "duration" in info then info["duration"] else Int(0))
    ensures m.likeCount == (if "like_count" in info then info["like_count"] else Int(0))
    ensures m.viewCount == (if "view_count" in info then info["view_count"] else Int(0))
    ensures m.id == (if "id" in info then info["id"] else Str(""))
    ensures m.thumbnail == (if "thumbnail" in info then info["thumbnail"] else Str(""))
  {
    Metadata(
      Get(info, "title", Str("Unknown")),
      Get(info, "uploader", Str("Unknown")),
      Get(info, "duration", Int(0)),
      Get(info, "like_count", Int(0)),
      Get(info, "view_count", Int(0)),
      url,
      Get(info, "id", Str("")),
      Get(info, "thumbnail", Str("")))
  }

  /**
   * The normalised result of the first configuration of `configs` whose
   * extraction succeeds, or `None` when every one fails.
   */
  function FirstSuccess(url: string, configs: seq<Config>, extract: (string, Config) -> Option<RawInfo>): (r: Option<Metadata>)
    ensures r.None? <==> forall k :: 0 <= k < |configs| ==> extract(url, configs[k]).None?
    ensures r.Some? ==>
      exists k :: && 0 <= k < |configs| && extract(url, configs[k]).Some?
                  && (forall j :: 0 <= j < k ==> extract(url, configs[j]).None?)
                  && r.value == Normalize(extract(url, configs[k]).value, url)
  {
    if configs == [] then None
    else match extract(url, configs[0])
      case Some(info) => Some(Normalize(info, url))
      case None =>
        var r := FirstSuccess(url, configs[1..], extract);
        assert forall k :: 1 <= k < |configs| ==> configs[k] == configs[1..][k - 1];
        r
  }

  /**
   * `get_video_info`: tries the strategies in order and stops at the first
   * success.  `tried` lists the configurations the engine was called with.
   */
  method GetVideoInfo(url: string, extract: (string, Config) -> Option<RawInfo>)
    returns (info: Option<Metadata>, tried: seq<Config>)
    ensures info == FirstSuccess(url, Strategies, extract)
    ensures 1 <= |tried| <= |Strategies| && tried == Strategies[..|tried|]
    ensures forall k :: 0 <= k < |tried| - 1 ==> extract(url, tried[k]).None?
    ensures info.Some? <==> extract(url, tried[|tried| - 1]).Some?
    ensures info.Some? ==> info.value == Normalize(extract(url, tried[|tried| - 1]).value, url)
    ensures info.None? ==> tried == Strategies
  {
    tried := [];
    for i := 0 to |Strategies|
      invariant tried == Strategies[..i]
      invariant forall k :: 0 <= k < i ==> extract(url, Strategies[k]).None?
    {
      tried := tried + [Strategies[i]];
      var outcome := extract(url, Strategies[i]);
      if outcome.Some? {
        info := Some(Normalize(outcome.value, url));
        FirstSuccessAt(url, Strategies, extract, i);
        return;
      }
    }
    info := None;
  }

  /** The first success found by a left-to-right scan is the one `FirstSuccess` picks. */
  lemma {:induction false} FirstSuccessAt(url: string, configs: seq<Config>, extract: (string, Config) -> Option<RawInfo>, i: nat)
    requires i < |configs|
    requires forall k :: 0 <= k < i ==> extract(url, configs[k]).None?
    requires extract(url, configs[i]).Some?
    ensures FirstSuccess(url, configs, extract) == Some(Normalize(extract(url, configs[i]).value, url))
  {
    if i > 0 {
      assert extract(url, configs[0]).None?;
      assert forall k :: 0 <= k < i - 1 ==> configs[1..][k] == configs[k + 1];
      FirstSuccessAt(url, configs[1..], extract, i - 1);
    }
  }

  /**
   * A record missing `like_count`, `uploader` and `duration` gets zero likes,
   * an `Unknown` uploader and a zero duration, while a `None` the engine did
   * report is kept as it is.
   */
  lemma MissingFieldsDefault(info: RawInfo, url: string)
    requires "like_count" !in info && "uploader" !in info && "duration" !in info
    ensures var m := Normalize(info, url);
            && m.likeCount == Int(0) && m.uploader == Str("Unknown") && m.duration == Int(0)
            && ("title" in info && info["title"] == Null ==> m.title == Null)
  {
  }
}
