/**
 * The URL classifier `is_youtube_url` (bot.py:81-95).
 *
 * The source tries seven regular expressions with `re.match`, which anchors a
 * pattern at the start of the text only: whatever follows a match is ignored.
 * The patterns are transcribed below into a small regular-expression fragment
 * with its own prefix matcher (`Matches`), so that `IsYoutubeUrl` is the
 * source's disjunction read literally.  `IsSupportedUrl` is an independent,
 * hand-written description of the accepted shapes, and `ClassifierCorrect`
 * proves the two agree on every string.
 */
module UrlClassifier {

  /** `\w`, restricted to ASCII letters, digits and the underscore. */
  predicate IsWordChar(c: char) {
    ('a' <= c <= 'z') || ('A' <= c <= 'Z') || ('0' <= c <= '9') || c == '_'
  }

  /** The character class `[\w-]` used for the video id. */
  predicate IsIdChar(c: char) {
    IsWordChar(c) || c == '-'
  }

  /** One element of a pattern. */
  datatype Piece =
    | Alt(alts: seq<string>)   // exactly one of the literal alternatives; "" makes the group optional
    | Lit(text: string)        // a literal
    | IdRun                    // `[\w-]+`
    | Tail(lead: string)       // `(lead.*)?`, where `.` is any character but a newline

  type Pattern = seq<Piece>

  /** Some prefix of `s` matches `p` (the meaning of `re.match(p, s)` returning a match). */
  predicate Matches(p: Pattern, s: string)
    decreases |s|, |p|, 1, 0
  {
    if p == [] then true
    else match p[0]
      case Alt(alts) => AltMatches(alts, p[1..], s)
      case Lit(t) => t <= s && Matches(p[1..], s[|t|..])
      case IdRun => |s| > 0 && IsIdChar(s[0]) && (Matches(p[1..], s[1..]) || Matches(p, s[1..]))
      case Tail(lead) => Matches(p[1..], s) || (lead <= s && DotStarMatches(p[1..], s[|lead|..]))
  }

  /** Some alternative of `alts` is a prefix of `s` and `rest` matches a prefix of what follows it. */
  predicate AltMatches(alts: seq<string>, rest: Pattern, s: string)
    decreases |s|, |rest| + 1, 0, |alts|
  {
    |alts| > 0 &&
    ((alts[0] <= s && Matches(rest, s[|alts[0]|..])) || AltMatches(alts[1..], rest, s))
  }

  /** `.*` followed by `rest` matches a prefix of `s`. */
  predicate DotStarMatches(rest: Pattern, s: string)
    decreases |s|, |rest| + 1, 0, 0
  {
    Matches(rest, s) || (|s| > 0 && s[0] != '\n' && DotStarMatches(rest, s[1..]))
  }

  const Scheme: Piece := Alt(["", "http://", "https://"])   // `(?:https?://)?`
  const Www: Piece := Alt(["", "www."])                      // `(?:www\.)?`
  const Mobile: Piece := Alt(["", "m."])                     // `(?:m\.)?`

  const WatchPath := "youtube.com/watch?v="
  const ShortLinkPath := "youtu.be/"
  const ShortsPath := "youtube.com/shorts/"

  /** The seven patterns of bot.py:83-94, in the source's order. */
  const YoutubePatterns: seq<Pattern> := [
    [Scheme, Www, Lit(WatchPath), IdRun],
    [Scheme, Www, Lit(ShortLinkPath), IdRun],
    [Scheme, Mobile, Lit(WatchPath), IdRun],
    [Scheme, Www, Lit(ShortsPath), IdRun],
    [Scheme, Mobile, Lit(ShortsPath), IdRun],
    [Scheme, Www, Lit(WatchPath), IdRun, Tail("&")],
    [Scheme, Www, Lit(ShortsPath), IdRun, Tail("?")]
  ]

  /** `is_youtube_url`: some pattern matches at the start of `url`. */
  predicate IsYoutubeUrl(url: string) {
    exists i :: 0 <= i < |YoutubePatterns| && Matches(YoutubePatterns[i], url)
  }

  // ---------------------------------------------------------------------
  // The accepted shapes, written out by hand.
  // ---------------------------------------------------------------------

  predicate StartsWithId(s: string) {
    |s| > 0 && IsIdChar(s[0])
  }

  /** `s` starts with `path` followed by at least one id character. */
  predicate PathThenId(path: string, s: string) {
    path <= s && StartsWithId(s[|path|..])
  }

  /** As `PathThenId`, optionally preceded by the subdomain `sub`. */
  predicate SubThenPath(sub: string, path: string, s: string) {
    PathThenId(path, s) || (sub <= s && PathThenId(path, s[|sub|..]))
  }

  /** What may follow the scheme: a host form and a path, then an id character. */
  predicate Hosted(s: string) {
    || SubThenPath("www.", WatchPath, s)
    || SubThenPath("m.", WatchPath, s)
    || SubThenPath("www.", ShortLinkPath, s)
    || SubThenPath("www.", ShortsPath, s)
    || SubThenPath("m.", ShortsPath, s)
  }

  /**
   * An optional `http://` or `https://`, then an optional `www.` (or `m.` for the
   * `youtube.com` forms), then a watch, short-link or shorts path and an id character.
   */
  predicate IsSupportedUrl(url: string) {
    || Hosted(url)
    || ("http://" <= url && Hosted(url[7..]))
    || ("https://" <= url && Hosted(url[8..]))
  }

  // ---------------------------------------------------------------------
  // Unfolding the matcher one piece at a time.
  // ---------------------------------------------------------------------

  lemma IdRunEnd(s: string)
    ensures Matches([IdRun], s) <==> StartsWithId(s)
  {
    if StartsWithId(s) {
      assert Matches([IdRun][1..], s[1..]);
    }
  }

  lemma IdRunTailEnd(lead: string, s: string)
    ensures Matches([IdRun, Tail(lead)], s) <==> StartsWithId(s)
  {
    if StartsWithId(s) {
      assert [IdRun, Tail(lead)][1..] == [Tail(lead)];
      assert [Tail(lead)][1..] == [];
      assert Matches([Tail(lead)], s[1..]);
    }
  }

  lemma LitStep(t: string, rest: Pattern, s: string)
    ensures Matches([Lit(t)] + rest, s) <==> t <= s && Matches(rest, s[|t|..])
  {
    assert ([Lit(t)] + rest)[1..] == rest;
  }

  lemma OptStep(lit: string, rest: Pattern, s: string)
    ensures Matches([Alt(["", lit])] + rest, s) <==> Matches(rest, s) || (lit <= s && Matches(rest, s[|lit|..]))
  {
    var p := [Alt(["", lit])] + rest;
    assert p[0] == Alt(["", lit]) && p[1..] == rest;
    assert ["", lit][1..] == [lit];
    assert [lit][1..] == [];
    assert s[0..] == s;
    assert Matches(p, s) == AltMatches(["", lit], rest, s);
    assert AltMatches(["", lit], rest, s) == (Matches(rest, s) || AltMatches([lit], rest, s));
    assert AltMatches([lit], rest, s) == ((lit <= s && Matches(rest, s[|lit|..])) || AltMatches([], rest, s));
  }

  lemma SchemeStep(rest: Pattern, s: string)
    ensures Matches([Scheme] + rest, s) <==>
      || Matches(rest, s)
      || ("http://" <= s && Matches(rest, s[7..]))
      || ("https://" <= s && Matches(rest, s[8..]))
  {
    var p := [Scheme] + rest;
    var alts := ["", "http://", "https://"];
    assert p[0] == Alt(alts) && p[1..] == rest;
    assert alts[1..] == ["http://", "https://"];
    assert ["http://", "https://"][1..] == ["https://"];
    assert ["https://"][1..] == [];
    assert s[0..] == s;
    assert Matches(p, s) == AltMatches(alts, rest, s);
    assert AltMatches(alts, rest, s) == (Matches(rest, s) || AltMatches(["http://", "https://"], rest, s));
    assert AltMatches(["http://", "https://"], rest, s) ==
      (("http://" <= s && Matches(rest, s[7..])) || AltMatches(["https://"], rest, s));
    assert AltMatches(["https://"], rest, s) ==
      (("https://" <= s && Matches(rest, s[8..])) || AltMatches([], rest, s));
  }

  /** The pattern `Scheme, sub?, path, [\w-]+` accepts exactly the corresponding shape. */
  lemma ShapeMatches(sub: string, path: string, s: string)
    ensures Matches([Scheme, Alt(["", sub]), Lit(path), IdRun], s) <==>
      || SubThenPath(sub, path, s)
      || ("http://" <= s && SubThenPath(sub, path, s[7..]))
      || ("https://" <= s && SubThenPath(sub, path, s[8..]))
  {
    forall u: string ensures Matches([Alt(["", sub]), Lit(path), IdRun], u) <==> SubThenPath(sub, path, u) {
      forall v: string ensures Matches([Lit(path), IdRun], v) <==> PathThenId(path, v) {
        LitStep(path, [IdRun], v);
        if path <= v {
          IdRunEnd(v[|path|..]);
        }
      }
      assert [Alt(["", sub]), Lit(path), IdRun] == [Alt(["", sub])] + [Lit(path), IdRun];
      OptStep(sub, [Lit(path), IdRun], u);
    }
    assert [Scheme, Alt(["", sub]), Lit(path), IdRun] == [Scheme] + [Alt(["", sub]), Lit(path), IdRun];
    SchemeStep([Alt(["", sub]), Lit(path), IdRun], s);
  }

  /** A trailing `(lead.*)?` group changes nothing under prefix matching. */
  lemma TailShapeMatches(sub: string, path: string, lead: string, s: string)
    ensures Matches([Scheme, Alt(["", sub]), Lit(path), IdRun, Tail(lead)], s) <==>
            Matches([Scheme, Alt(["", sub]), Lit(path), IdRun], s)
  {
    forall v: string ensures Matches([Lit(path), IdRun, Tail(lead)], v) <==> Matches([Lit(path), IdRun], v) {
      assert [Lit(path), IdRun, Tail(lead)] == [Lit(path)] + [IdRun, Tail(lead)];
      LitStep(path, [IdRun, Tail(lead)], v);
      LitStep(path, [IdRun], v);
      if path <= v {
        IdRunTailEnd(lead, v[|path|..]);
        IdRunEnd(v[|path|..]);
      }
    }
    forall u: string ensures Matches([Alt(["", sub]), Lit(path), IdRun, Tail(lead)], u) <==>
                             Matches([Alt(["", sub]), Lit(path), IdRun], u) {
      assert [Alt(["", sub]), Lit(path), IdRun, Tail(lead)] == [Alt(["", sub])] + [Lit(path), IdRun, Tail(lead)];
      assert [Alt(["", sub]), Lit(path), IdRun] == [Alt(["", sub])] + [Lit(path), IdRun];
      OptStep(sub, [Lit(path), IdRun, Tail(lead)], u);
      OptStep(sub, [Lit(path), IdRun], u);
    }
    assert [Scheme, Alt(["", sub]), Lit(path), IdRun, Tail(lead)] == [Scheme] + [Alt(["", sub]), Lit(path), IdRun, Tail(lead)];
    assert [Scheme, Alt(["", sub]), Lit(path), IdRun] == [Scheme] + [Alt(["", sub]), Lit(path), IdRun];
    SchemeStep([Alt(["", sub]), Lit(path), IdRun, Tail(lead)], s);
    SchemeStep([Alt(["", sub]), Lit(path), IdRun], s);
  }

  // ---------------------------------------------------------------------
  // Properties of the classifier.
  // ---------------------------------------------------------------------

  /** The seven patterns accept exactly the hand-written shapes. */
  lemma ClassifierCorrect(url: string)
    ensures IsYoutubeUrl(url) <==> IsSupportedUrl(url)
  {
    var ps := YoutubePatterns;
    ShapeMatches("www.", WatchPath, url);
    ShapeMatches("www.", ShortLinkPath, url);
    ShapeMatches("m.", WatchPath, url);
    ShapeMatches("www.", ShortsPath, url);
    ShapeMatches("m.", ShortsPath, url);
    TailShapeMatches("www.", WatchPath, "&", url);
    TailShapeMatches("www.", ShortsPath, "?", url);
    assert (|| Matches(ps[0], url) || Matches(ps[1], url) || Matches(ps[2], url) || Matches(ps[3], url)
            || Matches(ps[4], url) || Matches(ps[5], url) || Matches(ps[6], url))
      <==> IsSupportedUrl(url);
    if IsYoutubeUrl(url) {
      var i :| 0 <= i < |ps| && Matches(ps[i], url);
      assert i == 0 || i == 1 || i == 2 || i == 3 || i == 4 || i == 5 || i == 6;
    }
  }

  /** The empty message is not a video URL. */
  lemma RejectsEmpty()
    ensures !IsYoutubeUrl("")
  {
    ClassifierCorrect("");
  }

  lemma PrefixExtends(p: string, s: string, t: string)
    requires p <= s
    ensures p <= s + t && (s + t)[|p|..] == s[|p|..] + t
  {
  }

  lemma PathThenIdExtends(path: string, s: string, t: string)
    requires PathThenId(path, s)
    ensures PathThenId(path, s + t)
  {
    PrefixExtends(path, s, t);
  }

  lemma SubThenPathExtends(sub: string, path: string, s: string, t: string)
    requires SubThenPath(sub, path, s)
    ensures SubThenPath(sub, path, s + t)
  {
    if PathThenId(path, s) {
      PathThenIdExtends(path, s, t);
    } else {
      PrefixExtends(sub, s, t);
      PathThenIdExtends(path, s[|sub|..], t);
    }
  }

  lemma HostedExtends(s: string, t: string)
    requires Hosted(s)
    ensures Hosted(s + t)
  {
    if SubThenPath("www.", WatchPath, s) {
      SubThenPathExtends("www.", WatchPath, s, t);
    } else if SubThenPath("m.", WatchPath, s) {
      SubThenPathExtends("m.", WatchPath, s, t);
    } else if SubThenPath("www.", ShortLinkPath, s) {
      SubThenPathExtends("www.", ShortLinkPath, s, t);
    } else if SubThenPath("www.", ShortsPath, s) {
      SubThenPathExtends("www.", ShortsPath, s, t);
    } else {
      SubThenPathExtends("m.", ShortsPath, s, t);
    }
  }

  /** Anything may follow an accepted URL: trailing query parameters are tolerated. */
  lemma AcceptedIsPrefixClosed(s: string, t: string)
    requires IsYoutubeUrl(s)
    ensures IsYoutubeUrl(s + t)
  {
    ClassifierCorrect(s);
    ClassifierCorrect(s + t);
    if Hosted(s) {
      HostedExtends(s, t);
    } else if "http://" <= s && Hosted(s[7..]) {
      PrefixExtends("http://", s, t);
      HostedExtends(s[7..], t);
    } else {
      PrefixExtends("https://", s, t);
      HostedExtends(s[8..], t);
    }
  }

  /** The subdomain (possibly none) and path combinations the patterns allow. */
  predicate AllowedForm(sub: string, path: string) {
    || ((sub == "" || sub == "www.") && (path == WatchPath || path == ShortLinkPath || path == ShortsPath))
    || (sub == "m." && (path == WatchPath || path == ShortsPath))
  }

  lemma SubPathId(sub: string, path: string, id: string)
    requires StartsWithId(id)
    ensures SubThenPath(sub, path, sub + path + id)
  {
    var h := sub + path + id;
    assert h[|sub|..] == path + id;
    assert (path + id)[|path|..] == id;
    assert PathThenId(path, h[|sub|..]);
  }

  /**
   * `https://`, a subdomain the patterns allow for the given path (or none), the
   * path and an id are accepted, whatever the id is followed by.
   */
  lemma HttpsUrlAccepted(sub: string, path: string, id: string)
    requires StartsWithId(id)
    requires AllowedForm(sub, path)
    ensures IsYoutubeUrl("https://" + sub + path + id)
  {
    HttpsUrlSupported(sub, path, id);
    ClassifierCorrect("https://" + sub + path + id);
  }

  lemma HttpsUrlSupported(sub: string, path: string, id: string)
    requires StartsWithId(id)
    requires AllowedForm(sub, path)
    ensures IsSupportedUrl("https://" + sub + path + id)
  {
    var h := sub + path + id;
    var u := "https://" + h;
    assert u == "https://" + sub + path + id;
    assert u[8..] == h;
    SubPathId(sub, path, id);
    if sub == "" {
      assert PathThenId(path, h);
    }
    assert Hosted(h);
  }

  /** The four forms the bot's help text lists are accepted. */
  lemma HelpTextFormsAccepted()
    ensures IsYoutubeUrl("https://" + "www." + WatchPath + "VIDEO_ID")
    ensures IsYoutubeUrl("https://" + ShortLinkPath + "VIDEO_ID")
    ensures IsYoutubeUrl("https://" + "www." + ShortsPath + "VIDEO_ID")
    ensures IsYoutubeUrl("https://" + "m." + WatchPath + "VIDEO_ID")
  {
    HttpsUrlAccepted("www.", WatchPath, "VIDEO_ID");
    HttpsUrlAccepted("", ShortLinkPath, "VIDEO_ID");
    assert "https://" + "" + ShortLinkPath + "VIDEO_ID" == "https://" + ShortLinkPath + "VIDEO_ID";
    HttpsUrlAccepted("www.", ShortsPath, "VIDEO_ID");
    HttpsUrlAccepted("m.", WatchPath, "VIDEO_ID");
  }

  /** Whatever follows the scheme of an accepted URL starts with `y`, `w` or `m`. */
  lemma HostedStart(s: string)
    requires Hosted(s)
    ensures |s| > 0 && s[0] in {'y', 'w', 'm'}
  {
  }

  /** An `https://` link whose host does not start like a YouTube host is refused. */
  lemma ForeignHostRejected(host: string)
    requires |host| > 0 && host[0] !in {'y', 'w', 'm'}
    ensures !IsYoutubeUrl("https://" + host)
  {
    var u := "https://" + host;
    ClassifierCorrect(u);
    assert u[0] == 'h' && u[4] == 's';
    assert u[8..] == host;
    if Hosted(u) { HostedStart(u); }
    if Hosted(host) { HostedStart(host); }
  }

  /** A link to another site is refused. */
  lemma ForeignLinkRejected()
    ensures !IsYoutubeUrl("https://" + "vimeo.com/76979871")
  {
    ForeignHostRejected("vimeo.com/76979871");
  }
}
