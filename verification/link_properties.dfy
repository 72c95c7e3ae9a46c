/**
  Properties of the link classifier that follow from the rule order and the
  unanchored search: rules shadowed by earlier ones, the exclusions of the
  profile rules, the shape of the reported ids, and the platforms each query
  can answer for.
 */
module LinkProperties {
  import opened Text
  import opened Patterns
  import opened LinkRules
  import opened LinkDetector

  // ---- Reading a platform's result off its winning rule ----

  /** A supported result comes from the winning rule: its type, its id group, its description. */
  lemma WinningRule(p: Platform, rules: seq<Rule>, url: string)
    requires AllWellFormed(rules) && CheckRules(p, rules, url).isSupported
    ensures Winner(rules, url).Some?
    ensures
      var rule := rules[Winner(rules, url).value];
      var caps := Search(rule.pattern, url).value;
      && Applies(rule, url)
      && CheckRules(p, rules, url).linkType == Some(rule.linkType)
      && CheckRules(p, rules, url).contentId == Some(Group(caps, rule.idGroup))
      && CheckRules(p, rules, url).description == Describe(rule.desc, caps)
      && Fits(Group(caps, rule.idGroup), Groups(rule.pattern)[rule.idGroup - 1])
  {
    assert WellFormed(rules[Winner(rules, url).value]);
  }

  lemma YouTubeReportedType(url: string)
    ensures CheckPlatform(YouTube, url).isSupported ==> CheckPlatform(YouTube, url).linkType.value in LinkTypesOf(YouTube)
  {
    YouTubeTableWellFormed();
    if CheckRules(YouTube, YouTubeRules, url).isSupported {
      WinningRule(YouTube, YouTubeRules, url);
      YouTubeLinkTypes();
    }
  }

  lemma FacebookReportedType(url: string)
    ensures CheckPlatform(Facebook, url).isSupported ==> CheckPlatform(Facebook, url).linkType.value in LinkTypesOf(Facebook)
  {
    FacebookTableWellFormed();
    if CheckRules(Facebook, FacebookRules, url).isSupported {
      WinningRule(Facebook, FacebookRules, url);
      FacebookLinkTypes();
    }
  }

  lemma InstagramReportedType(url: string)
    ensures CheckPlatform(Instagram, url).isSupported ==> CheckPlatform(Instagram, url).linkType.value in LinkTypesOf(Instagram)
  {
    InstagramTableWellFormed();
    if CheckRules(Instagram, InstagramRules, url).isSupported {
      WinningRule(Instagram, InstagramRules, url);
      InstagramLinkTypes();
    }
  }

  lemma TikTokReportedType(url: string)
    ensures CheckPlatform(TikTok, url).isSupported ==> CheckPlatform(TikTok, url).linkType.value in LinkTypesOf(TikTok)
  {
    TikTokTableWellFormed();
    if CheckRules(TikTok, TikTokRules, url).isSupported {
      WinningRule(TikTok, TikTokRules, url);
      TikTokLinkTypes();
    }
  }

  lemma DouyinReportedType(url: string)
    ensures CheckPlatform(Douyin, url).isSupported ==> CheckPlatform(Douyin, url).linkType.value in LinkTypesOf(Douyin)
  {
    DouyinTableWellFormed();
    if CheckRules(Douyin, DouyinRules, url).isSupported {
      WinningRule(Douyin, DouyinRules, url);
      DouyinLinkTypes();
    }
  }

  /** The link type of a supported result is one its platform's rules report. */
  lemma ReportedTypeOfPlatform(p: Platform, url: string)
    requires CheckPlatform(p, url).isSupported
    ensures CheckPlatform(p, url).linkType.Some?
    ensures CheckPlatform(p, url).linkType.value in LinkTypesOf(p)
  {
    match p
    case YouTube => YouTubeReportedType(url);
    case Facebook => FacebookReportedType(url);
    case Instagram => InstagramReportedType(url);
    case TikTok => TikTokReportedType(url);
    case Douyin => DouyinReportedType(url);
  }

  // ---- Shadowing: rules that an earlier rule always catches first ----

  /**
    Wherever a music or mobile watch URL matches, the standard watch rule matches
    too: its literal is a suffix of theirs and the id group is the same.
   */
  lemma YouTubeSubdomainMatchesStandard(url: string)
    requires Search(YouTubeMusic, url).Some? || Search(YouTubeMobile, url).Some?
    ensures Applies(YouTubeRules[0], url)
  {
    var core := YouTubeWatch;
    var tail := [YouTubeIdAtom];
    assert YouTubeVideoStandard == [Lit(core)] + tail;
    if Search(YouTubeMusic, url).Some? {
      assert YouTubeMusic == [Lit("music." + core)] + tail;
      ShorterCoreSearch("music.", core, tail, url);
    } else {
      assert YouTubeMobile == [Lit("m." + core)] + tail;
      ShorterCoreSearch("m.", core, tail, url);
    }
  }

  /**
    A music.youtube.com or m.youtube.com watch URL is reported by the standard
    watch rule, as a plain YouTube video.
   */
  lemma YouTubeSubdomainsShadowed(url: string)
    requires Search(YouTubeMusic, url).Some? || Search(YouTubeMobile, url).Some?
    ensures Winner(YouTubeRules, url) == Some(0)
    ensures CheckYouTube(url).linkType == Some(Video)
    ensures CheckYouTube(url).description == Plain("Video YouTube")
  {
    YouTubeSubdomainMatchesStandard(url);
    WinnerAtMost(YouTubeRules, url, 0);
    YouTubeTableWellFormed();
  }

  /** Hence the YouTube check never reports a music link. */
  lemma YouTubeNeverMusic(url: string)
    ensures CheckYouTube(url).linkType != Some(Music)
  {
    var r := CheckYouTube(url);
    if r.isSupported {
      YouTubeTableWellFormed();
      WinningRule(YouTube, YouTubeRules, url);
      var k := Winner(YouTubeRules, url).value;
      if k == 4 {
        YouTubeSubdomainsShadowed(url);
      } else {
        YouTubeMusicRuleOnly(k);
      }
    }
  }

  /** Only YouTube has a music rule. */
  lemma OtherPlatformsNeverMusic(p: Platform, url: string)
    requires p != YouTube
    ensures CheckPlatform(p, url).linkType != Some(Music)
  {
    if CheckPlatform(p, url).isSupported {
      ReportedTypeOfPlatform(p, url);
    }
  }

  /** No URL at all is classified as a YouTube Music link. */
  lemma NeverMusic(url: string)
    ensures DetectLinkType(url).linkType != Some(Music)
  {
    var r := DetectLinkType(url);
    if r.isSupported {
      var n := Normalize(url);
      var p := r.platform.value;
      assert r == CheckPlatform(p, n);
      if p == YouTube {
        YouTubeNeverMusic(n);
        assert CheckPlatform(p, n) == CheckYouTube(n);
      } else {
        OtherPlatformsNeverMusic(p, n);
      }
    }
  }

  /**
    Wherever a mobile or web-mobile page video URL matches, the page video rule
    matches too.
   */
  lemma FacebookSubdomainMatchesPage(url: string)
    requires Search(FacebookMobile, url).Some? || Search(FacebookWebMobile, url).Some?
    ensures Applies(FacebookRules[2], url)
  {
    var core := FacebookHost;
    assert FacebookVideoPage == [Lit(core)] + FacebookPageTail;
    if Search(FacebookMobile, url).Some? {
      assert FacebookMobile == [Lit("m." + core)] + FacebookPageTail;
      ShorterCoreSearch("m.", core, FacebookPageTail, url);
    } else {
      assert FacebookWebMobile == [Lit("web." + core)] + FacebookPageTail;
      ShorterCoreSearch("web.", core, FacebookPageTail, url);
    }
  }

  /**
    An m.facebook.com or web.facebook.com page video URL is caught no later than
    the page video rule, so the mobile rules never report: the result is a video
    from one of the first three rules.
   */
  lemma FacebookSubdomainsShadowed(url: string)
    requires Search(FacebookMobile, url).Some? || Search(FacebookWebMobile, url).Some?
    ensures Winner(FacebookRules, url).Some? && Winner(FacebookRules, url).value <= 2
    ensures CheckFacebook(url).linkType == Some(Video)
  {
    FacebookSubdomainMatchesPage(url);
    WinnerAtMost(FacebookRules, url, 2);
    FacebookTableWellFormed();
    WinningRule(Facebook, FacebookRules, url);
    var k := Winner(FacebookRules, url).value;
    FacebookLeadingRulesAreVideo(k);
  }

  // ---- The profile rules' exclusions ----

  /** A Facebook profile result never comes from a URL with a watch, video, reel or share marker. */
  lemma FacebookProfileExcluded(url: string)
    ensures CheckFacebook(url).linkType == Some(Profile) ==>
      !Excluded(url, FacebookProfileExclusions)
  {
    if CheckFacebook(url).linkType == Some(Profile) {
      FacebookTableWellFormed();
      WinningRule(Facebook, FacebookRules, url);
      FacebookProfileRuleOnly(Winner(FacebookRules, url).value);
      assert !Excluded(url, FacebookProfileExclusions);
    }
  }

  /** Conversely, when no earlier rule applies, the profile rule reports exactly the URLs free of those markers. */
  lemma FacebookProfileAccepted(url: string)
    requires forall j :: 0 <= j < FacebookProfileIndex ==> !Applies(FacebookRules[j], url)
    requires Search(FacebookRules[FacebookProfileIndex].pattern, url).Some?
    ensures CheckFacebook(url).linkType == Some(Profile) <==>
      !Excluded(url, FacebookProfileExclusions)
  {
    FacebookTableWellFormed();
    FacebookProfileExcluded(url);
    if !Excluded(url, FacebookProfileExclusions) {
      WinnerAtMost(FacebookRules, url, FacebookProfileIndex);
    }
  }

  /** An Instagram profile result never comes from a URL with a post, reel, IGTV or stories marker. */
  lemma InstagramProfileExcluded(url: string)
    ensures CheckInstagram(url).linkType == Some(Profile) ==>
      !Excluded(url, InstagramProfileExclusions)
  {
    if CheckInstagram(url).linkType == Some(Profile) {
      InstagramTableWellFormed();
      WinningRule(Instagram, InstagramRules, url);
      InstagramProfileRuleOnly(Winner(InstagramRules, url).value);
      assert !Excluded(url, InstagramProfileExclusions);
    }
  }

  /** Conversely, when no earlier rule applies, the profile rule reports exactly the URLs free of those markers. */
  lemma InstagramProfileAccepted(url: string)
    requires forall j :: 0 <= j < InstagramProfileIndex ==> !Applies(InstagramRules[j], url)
    requires Search(InstagramRules[InstagramProfileIndex].pattern, url).Some?
    ensures CheckInstagram(url).linkType == Some(Profile) <==>
      !Excluded(url, InstagramProfileExclusions)
  {
    InstagramTableWellFormed();
    InstagramProfileExcluded(url);
    if !Excluded(url, InstagramProfileExclusions) {
      WinnerAtMost(InstagramRules, url, InstagramProfileIndex);
    }
  }

  /** A TikTok profile result never comes from a URL with a video, playlist or live marker. */
  lemma TikTokProfileExcluded(url: string)
    ensures CheckTikTok(url).linkType == Some(Profile) ==>
      !Excluded(url, TikTokProfileExclusions)
  {
    if CheckTikTok(url).linkType == Some(Profile) {
      TikTokTableWellFormed();
      WinningRule(TikTok, TikTokRules, url);
      TikTokProfileRuleOnly(Winner(TikTokRules, url).value);
      assert !Excluded(url, TikTokProfileExclusions);
    }
  }

  /** Conversely, when no earlier rule applies, the profile rule reports exactly the URLs free of those markers. */
  lemma TikTokProfileAccepted(url: string)
    requires forall j :: 0 <= j < TikTokProfileIndex ==> !Applies(TikTokRules[j], url)
    requires Search(TikTokRules[TikTokProfileIndex].pattern, url).Some?
    ensures CheckTikTok(url).linkType == Some(Profile) <==>
      !Excluded(url, TikTokProfileExclusions)
  {
    TikTokTableWellFormed();
    TikTokProfileExcluded(url);
    if !Excluded(url, TikTokProfileExclusions) {
      assert TikTokRules[TikTokProfileIndex].exclusions == TikTokProfileExclusions;
      WinnerAtMost(TikTokRules, url, TikTokProfileIndex);
      assert Winner(TikTokRules, url) == Some(TikTokProfileIndex);
      TikTokProfileRuleOnly(TikTokProfileIndex);
      assert CheckTikTok(url) == CheckRules(TikTok, TikTokRules, url);
    }
  }

  // ---- The shape of reported ids ----

  /** A YouTube video id is the eleven-character id group. */
  lemma YouTubeVideoIdShape(url: string)
    requires CheckYouTube(url).linkType == Some(Video)
    ensures |CheckYouTube(url).contentId.value| == 11
    ensures AllIn(CheckYouTube(url).contentId.value, IdChar)
  {
    YouTubeTableWellFormed();
    WinningRule(YouTube, YouTubeRules, url);
    YouTubeVideoIds(Winner(YouTubeRules, url).value);
  }

  /**
    A Facebook video id is all digits: for page videos it is the second group,
    never the page name.
   */
  lemma FacebookVideoIdNumeric(url: string)
    requires CheckFacebook(url).linkType == Some(Video)
    ensures AllIn(CheckFacebook(url).contentId.value, Digit)
  {
    FacebookTableWellFormed();
    WinningRule(Facebook, FacebookRules, url);
    FacebookVideoIds(Winner(FacebookRules, url).value);
  }

  /** A TikTok video id is all digits: the second group, never the user name. */
  lemma TikTokVideoIdNumeric(url: string)
    requires CheckTikTok(url).linkType == Some(Video)
    ensures AllIn(CheckTikTok(url).contentId.value, Digit)
  {
    TikTokTableWellFormed();
    WinningRule(TikTok, TikTokRules, url);
    TikTokVideoIds(Winner(TikTokRules, url).value);
  }

  /** A Douyin video id is all digits. */
  lemma DouyinVideoIdNumeric(url: string)
    requires CheckDouyin(url).linkType == Some(Video)
    ensures AllIn(CheckDouyin(url).contentId.value, Digit)
  {
    DouyinTableWellFormed();
    WinningRule(Douyin, DouyinRules, url);
    DouyinVideoIds(Winner(DouyinRules, url).value);
  }

  /**
    The id of a TikTok playlist is the raw playlist segment, and the description
    is built from that same segment.
   */
  lemma TikTokPlaylistId(url: string)
    requires CheckTikTok(url).linkType == Some(Playlist)
    ensures CheckTikTok(url).description.TikTokPlaylist?
    ensures CheckTikTok(url).description.playlistId == CheckTikTok(url).contentId.value
  {
    TikTokTableWellFormed();
    WinningRule(TikTok, TikTokRules, url);
    TikTokPlaylistRuleOnly(Winner(TikTokRules, url).value);
  }

  // ---- Page video links ----

  /** `https://facebook.com/<name>/videos/<id>`. */
  function FacebookPageUrl(name: string, id: string): string
  {
    "https://facebook.com/" + name + "/videos/" + id
  }

  /** Where the parts of a page video link sit. */
  lemma FacebookPageUrlParts(name: string, id: string)
    ensures var url := FacebookPageUrl(name, id);
      && |url| == 29 + |name| + |id|
      && url[..21] == "https://facebook.com/"
      && url[21..21 + |name|] == name
      && url[21 + |name|..29 + |name|] == "/videos/"
      && url[29 + |name|..] == id
  {
  }

  /** The host literal first occurs at index 8, just after the scheme. */
  lemma FacebookPageUrlHost(name: string, id: string)
    ensures var url := FacebookPageUrl(name, id);
      && OccursAt(url, FacebookHost, 8)
      && forall j :: 0 <= j < 8 ==> !OccursAt(url, FacebookHost, j)
  {
    var url := FacebookPageUrl(name, id);
    FacebookPageUrlParts(name, id);
    assert url[8..21] == url[..21][8..];
    forall j | 0 <= j < 8
      ensures !OccursAt(url, FacebookHost, j)
    {
      assert url[j] == url[..21][j];
    }
  }

  /** The page name is a run of non-slashes that ends at the "/videos/" literal. */
  lemma FacebookPageUrlName(name: string, id: string)
    requires |name| > 0 && AllIn(name, NotSlash)
    ensures var url := FacebookPageUrl(name, id);
      && RunEnd(url, 21, NotSlash) == 21 + |name|
      && url[21..21 + |name|] == name
      && OccursAt(url, "/videos/", 21 + |name|)
  {
    var url := FacebookPageUrl(name, id);
    var n := 21 + |name|;
    FacebookPageUrlParts(name, id);
    forall m | 21 <= m < n
      ensures InClass(url[m], NotSlash)
    {
      assert url[m] == url[21..n][m - 21];
    }
    assert url[n] == url[n..n + 8][0];
    RunEndsAt(url, 21, n, NotSlash);
  }

  /** The id is a run of digits that reaches the end of the link. */
  lemma FacebookPageUrlId(name: string, id: string)
    requires |id| > 0 && AllIn(id, Digit)
    ensures var url := FacebookPageUrl(name, id);
      && |url| == 29 + |name| + |id|
      && RunEnd(url, 29 + |name|, Digit) == |url|
      && url[29 + |name|..|url|] == id
  {
    var url := FacebookPageUrl(name, id);
    var n := 29 + |name|;
    FacebookPageUrlParts(name, id);
    forall m | n <= m < |url|
      ensures InClass(url[m], Digit)
    {
      assert url[m] == url[n..][m - n];
    }
    RunEndsAt(url, n, |url|, Digit);
  }

  /** The page video rule matches such a link at the host, capturing the page name and the id. */
  lemma FacebookPageUrlMatch(name: string, id: string)
    requires |name| > 0 && AllIn(name, NotSlash)
    requires |id| > 0 && AllIn(id, Digit)
    ensures Search(FacebookVideoPage, FacebookPageUrl(name, id)) == Some([name, id])
  {
    var url := FacebookPageUrl(name, id);
    var n := 21 + |name|;
    FacebookPageUrlHost(name, id);
    FacebookPageUrlName(name, id);
    FacebookPageUrlId(name, id);
    var last := [Run(Digit)];
    var tail := [Lit("/videos/")] + last;
    assert FacebookPageTail == [Run(NotSlash)] + tail;
    MatchRunAt(Digit, [], url, n + 8, |url|, []);
    assert [Run(Digit)] + [] == last && [url[n + 8..|url|]] + [] == [id];
    assert MatchAt(last, url, n + 8) == Some([id]);
    MatchLitAt("/videos/", last, url, n);
    assert MatchAt(tail, url, n) == Some([id]);
    MatchRunAt(NotSlash, tail, url, 21, n, [id]);
    assert [url[21..n]] + [id] == [name, id];
    assert MatchAt(FacebookPageTail, url, 21) == Some([name, id]);
    MatchLitAt(FacebookHost, FacebookPageTail, url, 8);
    assert MatchAt(FacebookVideoPage, url, 8) == Some([name, id]);
    forall j | 0 <= j < 8
      ensures MatchAt(FacebookVideoPage, url, j).None?
    {
      MatchLitMissing(FacebookHost, FacebookPageTail, url, j);
    }
    SearchFindsFirst(FacebookVideoPage, url, 8);
  }

  /** A page video link has a '?' only where its name has one. */
  lemma FacebookPageUrlNoQuery(name: string, id: string)
    requires (forall k :: 0 <= k < |name| ==> name[k] != '?') && AllIn(id, Digit)
    ensures var url := FacebookPageUrl(name, id); forall k :: 0 <= k < |url| ==> url[k] != '?'
  {
    var url := FacebookPageUrl(name, id);
    FacebookPageUrlParts(name, id);
    forall k | 0 <= k < |url|
      ensures url[k] != '?'
    {
      if k < 21 {
        assert url[k] == url[..21][k];
      } else if k < 21 + |name| {
        assert url[k] == url[21..21 + |name|][k - 21];
      } else if k < 29 + |name| {
        assert url[k] == url[21 + |name|..29 + |name|][k - 21 - |name|];
      } else {
        assert url[k] == url[29 + |name|..][k - 29 - |name|];
      }
    }
  }

  /** Neither watch rule applies to a link without a '?'. */
  lemma NoQueryNotWatch(url: string)
    requires forall k :: 0 <= k < |url| ==> url[k] != '?'
    ensures !Applies(FacebookRules[0], url)
    ensures !Applies(FacebookRules[1], url)
  {
    AbsentCharExcludes(url, "facebook.com/watch/?v=", 19);
    LeadingLiteralAbsent("facebook.com/watch/?v=", [Run(Digit)], url);
    AbsentCharExcludes(url, "web.facebook.com/watch?v=", 22);
    LeadingLiteralAbsent("web.facebook.com/watch?v=", [Run(Digit)], url);
  }

  /** On a page video link without a '?', the page video rule is the first that applies. */
  lemma FacebookPageUrlWinner(url: string, name: string, id: string)
    requires |name| > 0 && AllIn(name, NotSlash) && forall k :: 0 <= k < |name| ==> name[k] != '?'
    requires |id| > 0 && AllIn(id, Digit)
    requires url == FacebookPageUrl(name, id)
    ensures Winner(FacebookRules, url) == Some(FacebookVideoPageIndex)
    ensures Search(FacebookVideoPage, url) == Some([name, id])
  {
    FacebookPageUrlNoQuery(name, id);
    NoQueryNotWatch(url);
    FacebookPageUrlMatch(name, id);
    assert FacebookRules[2].pattern == FacebookVideoPage && FacebookRules[2].exclusions == [];
    assert Applies(FacebookRules[2], url);
    WinnerAtMost(FacebookRules, url, 2);
  }

  /**
    `https://facebook.com/<name>/videos/<id>`, with no '?' in the name, is a
    Facebook video whose id is the numeric tail, described with the page name.
   */
  lemma FacebookPageUrlIsVideo(url: string, name: string, id: string)
    requires |name| > 0 && AllIn(name, NotSlash) && forall k :: 0 <= k < |name| ==> name[k] != '?'
    requires |id| > 0 && AllIn(id, Digit)
    requires url == FacebookPageUrl(name, id)
    ensures CheckFacebook(url) ==
      Detection(Some(Facebook), Some(Video), Some(id), Plain("Video Facebook từ " + name), true)
  {
    FacebookPageUrlWinner(url, name, id);
    FacebookTableWellFormed();
    assert FacebookRules[2] == Rule("video_page", FacebookVideoPage, Video, 2, Prefixed("Video Facebook từ ", 1), []);
  }

  /** For instance, `https://facebook.com/alice/videos/555` is the Facebook video "555". */
  lemma FacebookPageLinkIsVideo(url: string)
    requires url == "https://facebook.com/alice/videos/555"
    ensures CheckFacebook(url) ==
      Detection(Some(Facebook), Some(Video), Some("555"), Plain("Video Facebook từ alice"), true)
  {
    FacebookPageUrlIsVideo(url, "alice", "555");
  }

  // ---- The page video link through `detect_link_type` ----

  /** A pattern whose leading literal holds a character the text lacks is not found. */
  lemma AbsentCharNotFound(url: string, t: string, tail: Pattern, k: nat)
    requires k < |t| && forall i :: 0 <= i < |url| ==> url[i] != t[k]
    ensures Search([Lit(t)] + tail, url).None?
  {
    AbsentCharExcludes(url, t, k);
    LeadingLiteralAbsent(t, tail, url);
  }

  /** The first four YouTube patterns need a 'y'. */
  lemma NoYMissesFirstRules(url: string)
    requires forall i :: 0 <= i < |url| ==> url[i] != 'y'
    ensures forall k :: 0 <= k < 4 ==> Search(YouTubeRules[k].pattern, url).None?
  {
    AbsentCharNotFound(url, YouTubeWatch, [YouTubeIdAtom], 0);
    AbsentCharNotFound(url, "youtu.be/", [YouTubeIdAtom], 0);
    AbsentCharNotFound(url, "youtube.com/shorts/", [YouTubeIdAtom], 0);
    AbsentCharNotFound(url, "youtube.com/live/", [YouTubeIdAtom], 0);
  }

  /** So do the last four. */
  lemma NoYMissesLastRules(url: string)
    requires forall i :: 0 <= i < |url| ==> url[i] != 'y'
    ensures forall k :: 4 <= k < |YouTubeRules| ==> Search(YouTubeRules[k].pattern, url).None?
  {
    AbsentCharNotFound(url, "music." + YouTubeWatch, [YouTubeIdAtom], 6);
    AbsentCharNotFound(url, "youtube.com/playlist?list=", [Run(IdChar)], 0);
    AbsentCharNotFound(url, "youtube.com/", [OneOf(["c/", "channel/", "user/", "@"]), Run(IdChar)], 0);
    AbsentCharNotFound(url, "m." + YouTubeWatch, [YouTubeIdAtom], 2);
  }

  /** Every YouTube rule's leading literal has a 'y', so a link without one is not YouTube. */
  lemma NoYNotYouTube(url: string)
    requires forall i :: 0 <= i < |url| ==> url[i] != 'y'
    ensures !CheckYouTube(url).isSupported
  {
    NoYMissesFirstRules(url);
    NoYMissesLastRules(url);
    YouTubeTableWellFormed();
    assert Winner(YouTubeRules, url).None?;
  }

  /** A page video link is already normalised: it has a scheme and ends in a digit. */
  lemma FacebookPageUrlNormal(name: string, id: string)
    requires |id| > 0 && AllIn(id, Digit)
    ensures !IsBlank(FacebookPageUrl(name, id))
    ensures Normalize(FacebookPageUrl(name, id)) == FacebookPageUrl(name, id)
  {
    var url := FacebookPageUrl(name, id);
    FacebookPageUrlParts(name, id);
    assert url[0] == url[..21][0];
    assert StartsWith(url, "https://") by { assert url[..8] == url[..21][..8]; }
    assert url[|url| - 1] == id[|id| - 1];
  }

  /**
    `detect_link_type` on such a link, with no 'y' and no '?' in the page name:
    the YouTube check finds nothing and the Facebook check decides.
   */
  lemma FacebookPageUrlDetected(url: string, name: string, id: string)
    requires |name| > 0 && AllIn(name, NotSlash) && forall k :: 0 <= k < |name| ==> name[k] != '?'
    requires forall k :: 0 <= k < |name| ==> name[k] != 'y'
    requires |id| > 0 && AllIn(id, Digit)
    requires url == FacebookPageUrl(name, id)
    ensures DetectLinkType(url) ==
      Detection(Some(Facebook), Some(Video), Some(id), Plain("Video Facebook từ " + name), true)
  {
    FacebookPageUrlNormal(name, id);
    FacebookPageUrlIsVideo(url, name, id);
    FacebookPageUrlNoY(name, id);
    NoYNotYouTube(url);
    assert CheckPlatform(Facebook, url).isSupported;
    assert !CheckPlatform(YouTube, url).isSupported;
  }

  /** A page video link has a 'y' only where its name has one. */
  lemma FacebookPageUrlNoY(name: string, id: string)
    requires (forall k :: 0 <= k < |name| ==> name[k] != 'y') && AllIn(id, Digit)
    ensures var url := FacebookPageUrl(name, id); forall k :: 0 <= k < |url| ==> url[k] != 'y'
  {
    var url := FacebookPageUrl(name, id);
    FacebookPageUrlParts(name, id);
    forall k | 0 <= k < |url|
      ensures url[k] != 'y'
    {
      if k < 21 {
        assert url[k] == url[..21][k];
      } else if k < 21 + |name| {
        assert url[k] == url[21..21 + |name|][k - 21];
      } else if k < 29 + |name| {
        assert url[k] == url[21 + |name|..29 + |name|][k - 21 - |name|];
      } else {
        assert url[k] == url[29 + |name|..][k - 29 - |name|];
      }
    }
  }

  /** For instance, `detect_link_type("https://facebook.com/alice/videos/555")` is the Facebook video "555". */
  lemma FacebookPageLinkDetected(url: string)
    requires url == "https://facebook.com/alice/videos/555"
    ensures DetectLinkType(url) ==
      Detection(Some(Facebook), Some(Video), Some("555"), Plain("Video Facebook từ alice"), true)
  {
    var name, id := "alice", "555";
    AliceFits();
    assert "Video Facebook từ " + name == "Video Facebook từ alice";
    FacebookPageUrlDetected(url, name, id);
  }

  /** The page name and id of the example satisfy the lemma's conditions. */
  lemma AliceFits()
    ensures AllIn("alice", NotSlash) && AllIn("555", Digit)
    ensures forall k :: 0 <= k < |"alice"| ==> "alice"[k] != '?' && "alice"[k] != 'y'
    ensures FacebookPageUrl("alice", "555") == "https://facebook.com/alice/videos/555"
  {
  }
}
