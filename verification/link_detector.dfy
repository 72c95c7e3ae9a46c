/**
  The link classifier (`LinkDetector` in src/link_detector.py): normalise the URL,
  try the platforms in a fixed order, and within a platform try its rules in
  order; the first rule that applies produces the result.
 */
module LinkDetector {
  import opened Text
  import opened Patterns
  import opened LinkRules

  const EmptyUrlText := "URL trống"
  const UnsupportedText := "Platform không được hỗ trợ"

  /**
    The description of a result. The TikTok playlist description is built from a
    percent-decoded playlist segment; it is kept here as the pair it is built from.
   */
  datatype Description =
    | Plain(text: string)
    | TikTokPlaylist(user: string, playlistId: string)

  /** The result record; `platform_info` is not modelled. */
  datatype Detection = Detection(
    platform: Option<Platform>,
    linkType: Option<LinkType>,
    contentId: Option<string>,
    description: Description,
    isSupported: bool)

  /** `_create_result`: a result is supported exactly when it names a platform. */
  function CreateResult(platform: Option<Platform>, linkType: Option<LinkType>,
                        contentId: Option<string>, description: Description): (r: Detection)
    ensures r.isSupported <==> r.platform.Some?
    ensures r.platform == platform && r.linkType == linkType && r.contentId == contentId
    ensures r.description == description
  {
    Detection(platform, linkType, contentId, description, platform.Some?)
  }

  /** The result for input that names no supported platform. */
  function Unsupported(text: string): Detection
  {
    CreateResult(None, None, None, Plain(text))
  }

  // ---- URL normalisation ----

  predicate HasScheme(url: string)
  {
    StartsWith(url, "http://") || StartsWith(url, "https://")
  }

  /** Python's `s.rstrip('/')`. */
  function StripTrailingSlashes(s: string): (r: string)
    ensures |r| <= |s| && r == s[..|r|]
    ensures forall k :: |r| <= k < |s| ==> s[k] == '/'
    ensures |r| > 0 ==> r[|r| - 1] != '/'
  {
    if |s| > 0 && s[|s| - 1] == '/' then StripTrailingSlashes(s[..|s| - 1]) else s
  }

  /** The first step of `_normalize_url`: default the scheme to https. */
  function WithScheme(url: string): (w: string)
    ensures HasScheme(w)
    ensures HasScheme(url) ==> w == url
    ensures !HasScheme(url) ==> |w| == |url| + 8 && w[..8] == "https://" && w[8..] == url
  {
    if HasScheme(url) then url else "https://" + url
  }

  /**
    `_normalize_url`: default the scheme to https, then drop every trailing '/'.
    The scheme's colon always survives, so the result is never empty.
   */
  function Normalize(url: string): (r: string)
    ensures |r| >= 5 && r[..4] == "http" && r[|r| - 1] != '/'
    ensures |r| <= |WithScheme(url)| && r == WithScheme(url)[..|r|]
    ensures forall k :: |r| <= k < |WithScheme(url)| ==> WithScheme(url)[k] == '/'
  {
    var w := WithScheme(url);
    assert w[..4] == "http" && w[4] != '/' by {
      if StartsWith(w, "http://") {
        assert w[..4] == w[..7][..4] && w[4] == w[..7][4];
      } else {
        assert w[..4] == w[..8][..4] && w[4] == w[..8][4];
      }
    }
    var r := StripTrailingSlashes(w);
    assert r[..4] == w[..4];
    r
  }

  /** Normalising a normalised URL that kept its scheme changes nothing. */
  lemma NormalizeIdempotent(url: string)
    requires HasScheme(Normalize(url))
    ensures Normalize(Normalize(url)) == Normalize(url)
  {
  }

  // ---- Rules ----

  /** Python's `match.group(n)` for a group the pattern has. */
  function Group(caps: seq<string>, n: nat): string
  {
    if 1 <= n <= |caps| then caps[n - 1] else ""
  }

  function Describe(t: DescTemplate, caps: seq<string>): Description
  {
    match t
    case Fixed(text) => Plain(text)
    case Prefixed(prefix, g) => Plain(prefix + Group(caps, g))
    case PlaylistOf(u, g) => TikTokPlaylist(Group(caps, u), Group(caps, g))
  }

  /** `any(keyword in url for keyword in exclusions)`. */
  predicate Excluded(url: string, exclusions: seq<string>)
  {
    exists e :: e in exclusions && Contains(url, e)
  }

  /** A rule applies when its pattern is found and none of its exclusions occurs. */
  predicate Applies(rule: Rule, url: string)
  {
    Search(rule.pattern, url).Some? && !Excluded(url, rule.exclusions)
  }

  /** The result a rule produces for a URL, if it applies. */
  function ApplyRule(p: Platform, rule: Rule, url: string): (r: Option<Detection>)
    ensures r.Some? <==> Applies(rule, url)
    ensures r.Some? ==>
      && r.value.isSupported && r.value.platform == Some(p)
      && r.value.linkType == Some(rule.linkType)
      && r.value.contentId == Some(Group(Search(rule.pattern, url).value, rule.idGroup))
    ensures r.Some? && WellFormed(rule) ==>
      Fits(r.value.contentId.value, Groups(rule.pattern)[rule.idGroup - 1])
  {
    match Search(rule.pattern, url)
    case None => None
    case Some(caps) =>
      if Excluded(url, rule.exclusions) then None
      else Some(CreateResult(Some(p), Some(rule.linkType), Some(Group(caps, rule.idGroup)), Describe(rule.desc, caps)))
  }

  /** Which rules of the list apply to the URL. */
  function Hits(rules: seq<Rule>, url: string): (h: seq<bool>)
    ensures |h| == |rules| && forall k :: 0 <= k < |rules| ==> h[k] == Applies(rules[k], url)
  {
    seq(|rules|, k requires 0 <= k < |rules| => Applies(rules[k], url))
  }

  /** The content id a well-formed rule reports is never empty. */
  lemma AppliedIdNonEmpty(p: Platform, rule: Rule, url: string)
    requires WellFormed(rule) && Applies(rule, url)
    ensures ApplyRule(p, rule, url).Some?
    ensures |ApplyRule(p, rule, url).value.contentId.value| > 0
  {
    var g := Groups(rule.pattern)[rule.idGroup - 1];
    assert Fits(ApplyRule(p, rule, url).value.contentId.value, g);
  }

  /** The message of a platform check that found nothing. */
  function InvalidText(p: Platform): string
  {
    match p
    case YouTube => "Không phải link YouTube hợp lệ"
    case Facebook => "Không phải link Facebook hợp lệ"
    case Instagram => "Không phải link Instagram hợp lệ"
    case TikTok => "Không phải link TikTok hợp lệ"
    case Douyin => "Không phải link Douyin hợp lệ"
  }

  /** The index of the first rule of the list that applies, if any. */
  function Winner(rules: seq<Rule>, url: string): (w: Option<nat>)
    ensures w.Some? ==> w.value < |rules| && Applies(rules[w.value], url)
    ensures w.Some? ==> forall j :: 0 <= j < w.value ==> !Applies(rules[j], url)
    ensures w.None? ==> forall k :: 0 <= k < |rules| ==> !Applies(rules[k], url)
  {
    FirstTrue(Hits(rules, url), 0)
  }

  /** A rule that applies bounds the winner from above. */
  lemma WinnerAtMost(rules: seq<Rule>, url: string, j: nat)
    requires j < |rules| && Applies(rules[j], url)
    ensures Winner(rules, url).Some? && Winner(rules, url).value <= j
  {
  }

  /**
    The rules of one platform, tried in order: the first rule that applies
    produces the result; when none applies, nothing is found.
   */
  function CheckRules(p: Platform, rules: seq<Rule>, url: string): (r: Detection)
    requires AllWellFormed(rules)
    ensures r.isSupported <==> r.platform.Some?
    ensures r.isSupported <==> Winner(rules, url).Some?
    ensures Winner(rules, url).Some? ==> Some(r) == ApplyRule(p, rules[Winner(rules, url).value], url)
    ensures r.isSupported ==> r.platform == Some(p) && r.contentId.Some? && |r.contentId.value| > 0
    ensures !r.isSupported ==> r == Unsupported(InvalidText(p))
  {
    match Winner(rules, url)
    case Some(k) =>
      AppliedIdNonEmpty(p, rules[k], url);
      ApplyRule(p, rules[k], url).value
    case None => Unsupported(InvalidText(p))
  }

  /** What a platform check may return: a result for that platform with an id, or its own "not valid" text. */
  predicate PlatformResult(p: Platform, r: Detection)
  {
    && (r.isSupported <==> r.platform.Some?)
    && (r.isSupported ==> r.platform == Some(p) && r.contentId.Some? && |r.contentId.value| > 0)
    && (!r.isSupported ==> r == Unsupported(InvalidText(p)))
  }

  /** `_check_youtube`. */
  function CheckYouTube(url: string): (r: Detection)
    ensures PlatformResult(YouTube, r)
  {
    YouTubeTableWellFormed();
    CheckRules(YouTube, YouTubeRules, url)
  }

  /** `_check_facebook`. */
  function CheckFacebook(url: string): (r: Detection)
    ensures PlatformResult(Facebook, r)
  {
    FacebookTableWellFormed();
    CheckRules(Facebook, FacebookRules, url)
  }

  /** `_check_instagram`. */
  function CheckInstagram(url: string): (r: Detection)
    ensures PlatformResult(Instagram, r)
  {
    InstagramTableWellFormed();
    CheckRules(Instagram, InstagramRules, url)
  }

  /** `_check_tiktok`. */
  function CheckTikTok(url: string): (r: Detection)
    ensures PlatformResult(TikTok, r)
  {
    TikTokTableWellFormed();
    CheckRules(TikTok, TikTokRules, url)
  }

  /** `_check_douyin`. */
  function CheckDouyin(url: string): (r: Detection)
    ensures PlatformResult(Douyin, r)
  {
    DouyinTableWellFormed();
    CheckRules(Douyin, DouyinRules, url)
  }

  /** `_check_platform`: dispatch on the platform. */
  function CheckPlatform(p: Platform, url: string): (r: Detection)
    ensures PlatformResult(p, r)
  {
    match p
    case YouTube => CheckYouTube(url)
    case Facebook => CheckFacebook(url)
    case Instagram => CheckInstagram(url)
    case TikTok => CheckTikTok(url)
    case Douyin => CheckDouyin(url)
  }

  // ---- Classification ----

  const PlatformOrder: seq<Platform> := [YouTube, Facebook, Instagram, TikTok, Douyin]

  /** The position of a platform in the order in which platforms are tried. */
  function Rank(p: Platform): (n: nat)
    ensures n < |PlatformOrder| && PlatformOrder[n] == p
  {
    match p
    case YouTube => 0
    case Facebook => 1
    case Instagram => 2
    case TikTok => 3
    case Douyin => 4
  }

  /** The platform checks, in the order in which they are tried. */
  function Checks(url: string): (c: seq<Detection>)
    ensures |c| == |PlatformOrder|
    ensures forall i :: 0 <= i < |c| ==> c[i] == CheckPlatform(PlatformOrder[i], url)
  {
    seq(|PlatformOrder|, i requires 0 <= i < |PlatformOrder| => CheckPlatform(PlatformOrder[i], url))
  }

  function SupportedFlags(c: seq<Detection>): (flags: seq<bool>)
    ensures |flags| == |c| && forall i :: 0 <= i < |c| ==> flags[i] == c[i].isSupported
  {
    seq(|c|, i requires 0 <= i < |c| => c[i].isSupported)
  }

  /** The first supported result of a list of checks, or "unsupported". */
  function FirstSupported(c: seq<Detection>): (r: Detection)
    ensures r.isSupported ==>
      exists i :: 0 <= i < |c| && r == c[i] && forall j :: 0 <= j < i ==> !c[j].isSupported
    ensures !r.isSupported ==>
      r == Unsupported(UnsupportedText) && forall i :: 0 <= i < |c| ==> !c[i].isSupported
  {
    match FirstTrue(SupportedFlags(c), 0)
    case Some(i) => c[i]
    case None => Unsupported(UnsupportedText)
  }

  /**
    The platform loop of `detect_link_type` on a normalised URL: the first
    platform whose check finds something decides the result.
   */
  function DetectNormalized(url: string): (r: Detection)
    ensures r.isSupported <==> r.platform.Some?
    ensures r.isSupported ==>
      && r == CheckPlatform(r.platform.value, url)
      && forall q :: Rank(q) < Rank(r.platform.value) ==> !CheckPlatform(q, url).isSupported
    ensures !r.isSupported ==>
      && r == Unsupported(UnsupportedText)
      && forall q :: !CheckPlatform(q, url).isSupported
  {
    var c := Checks(url);
    var r := FirstSupported(c);
    if r.isSupported then
      var i :| 0 <= i < |c| && r == c[i] && forall j :: 0 <= j < i ==> !c[j].isSupported;
      CheckAt(url, i);
      EarlierUnsupported(url, i);
      r
    else
      EarlierUnsupported(url, |PlatformOrder|);
      r
  }

  /** The `i`-th check is the check of the `i`-th platform, and names it when it succeeds. */
  lemma CheckAt(url: string, i: nat)
    requires i < |PlatformOrder|
    ensures Checks(url)[i] == CheckPlatform(PlatformOrder[i], url)
    ensures Rank(PlatformOrder[i]) == i
    ensures Checks(url)[i].isSupported ==> Checks(url)[i].platform == Some(PlatformOrder[i])
  {
    var q := PlatformOrder[i];
    var c := CheckPlatform(q, url);
    assert Checks(url)[i] == c;
    assert c.isSupported ==> c.platform == Some(q);
    if i == 0 { assert q == YouTube; }
    else if i == 1 { assert q == Facebook; }
    else if i == 2 { assert q == Instagram; }
    else if i == 3 { assert q == TikTok; }
    else { assert q == Douyin; }
  }

  lemma EarlierUnsupported(url: string, i: nat)
    requires i <= |PlatformOrder|
    requires forall j :: 0 <= j < i ==> !Checks(url)[j].isSupported
    ensures forall q :: Rank(q) < i ==> !CheckPlatform(q, url).isSupported
  {
    forall q | Rank(q) < i
      ensures !CheckPlatform(q, url).isSupported
    {
      assert Checks(url)[Rank(q)] == CheckPlatform(q, url);
    }
  }

  /** `detect_link_type`. */
  function DetectLinkType(url: string): (r: Detection)
    ensures r.isSupported <==> r.platform.Some?
    ensures r.isSupported ==> r.linkType.Some? && r.contentId.Some? && |r.contentId.value| > 0
    ensures !r.isSupported ==> r.linkType.None? && r.contentId.None?
    ensures IsBlank(url) ==> r == Unsupported(EmptyUrlText)
    ensures r.isSupported ==>
      && !IsBlank(url)
      && r == CheckPlatform(r.platform.value, Normalize(url))
      && forall q :: Rank(q) < Rank(r.platform.value) ==> !CheckPlatform(q, Normalize(url)).isSupported
    ensures !IsBlank(url) && !r.isSupported ==>
      && r == Unsupported(UnsupportedText)
      && forall q :: !CheckPlatform(q, Normalize(url)).isSupported
  {
    if IsBlank(url) then Unsupported(EmptyUrlText)
    else DetectNormalized(Normalize(url))
  }

  // ---- Queries derived from a classification ----

  /** `extract_video_id`. */
  function ExtractVideoId(url: string): (r: Option<string>)
    ensures r.Some? <==> DetectLinkType(url).isSupported
    ensures r.Some? ==> |r.value| > 0
  {
    DetectLinkType(url).contentId
  }

  /** `is_playlist_link`: a playlist link is a supported link with an id. */
  function IsPlaylistLink(url: string): (b: bool)
    ensures b <==> DetectLinkType(url).linkType == Some(Playlist)
    ensures b ==> ExtractVideoId(url).Some?
  {
    DetectLinkType(url).linkType == Some(Playlist)
  }

  /** `is_channel_link`: channels and profiles both count. */
  function IsChannelLink(url: string): (b: bool)
    ensures b <==> DetectLinkType(url).linkType == Some(Channel) || DetectLinkType(url).linkType == Some(Profile)
    ensures b ==> ExtractVideoId(url).Some?
  {
    DetectLinkType(url).linkType in {Some(Channel), Some(Profile)}
  }

  /** `is_live_link`. */
  function IsLiveLink(url: string): (b: bool)
    ensures b <==> DetectLinkType(url).linkType == Some(Live)
    ensures b ==> ExtractVideoId(url).Some?
  {
    DetectLinkType(url).linkType == Some(Live)
  }
}
