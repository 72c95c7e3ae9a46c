/**
  The rule tables of the link detector: for each platform, its rules in the order
  in which the platform's check tries them (which for Facebook differs from the
  order in which the patterns are declared: `web_share` is tried before
  `web_profile`).
 */
module LinkRules {
  import opened Patterns

  datatype Platform = YouTube | Facebook | Instagram | TikTok | Douyin

  /** The platform keys as the application spells them. */
  function PlatformKey(p: Platform): string
  {
    match p
    case YouTube => "youtube"
    case Facebook => "facebook"
    case Instagram => "instagram"
    case TikTok => "tiktok"
    case Douyin => "douyin"
  }

  datatype LinkType =
    | Video | Shorts | Live | Music | Playlist | Channel | Reel | Shortlink
    | WatchPage | Share | Profile | Post | Igtv | Stories

  /** How a rule builds its description from its captures (groups numbered from 1). */
  datatype DescTemplate =
    | Fixed(text: string)
    | Prefixed(prefix: string, group: nat)           // f"{prefix}{match.group(n)}"
    | PlaylistOf(userGroup: nat, playlistGroup: nat) // the TikTok playlist description

  /**
    One rule: a pattern, the link type it reports, the group holding the content id,
    the description, and substrings whose presence in the URL vetoes the rule.
   */
  datatype Rule = Rule(
    name: string,
    pattern: Pattern,
    linkType: LinkType,
    idGroup: nat,
    desc: DescTemplate,
    exclusions: seq<string>)

  predicate ValidGroup(p: Pattern, n: nat) { 1 <= n <= |Groups(p)| }

  predicate WellFormed(r: Rule)
  {
    && Deterministic(r.pattern)
    && ValidGroup(r.pattern, r.idGroup)
    && match r.desc
       case Fixed(_) => true
       case Prefixed(_, g) => ValidGroup(r.pattern, g)
       case PlaylistOf(u, g) => ValidGroup(r.pattern, u) && ValidGroup(r.pattern, g)
  }

  function Rule1(name: string, pattern: Pattern, t: LinkType, desc: DescTemplate): Rule
  {
    Rule(name, pattern, t, 1, desc, [])
  }

  // ---- YouTube (src/link_detector.py:24-31, checked at 129-166) ----

  const YouTubeIdAtom := Exactly(IdChar, 11)

  const YouTubeWatch := "youtube.com/watch?v="
  const YouTubeVideoStandard := [Lit(YouTubeWatch), YouTubeIdAtom]
  const YouTubeMusic := [Lit("music." + YouTubeWatch), YouTubeIdAtom]
  const YouTubeMobile := [Lit("m." + YouTubeWatch), YouTubeIdAtom]

  const YouTubeRules: seq<Rule> := [
    Rule1("video_standard", YouTubeVideoStandard, Video, Fixed("Video YouTube")),
    Rule1("video_short", [Lit("youtu.be/"), YouTubeIdAtom], Video, Fixed("Video YouTube (rút gọn)")),
    Rule1("shorts", [Lit("youtube.com/shorts/"), YouTubeIdAtom], Shorts, Fixed("YouTube Shorts")),
    Rule1("live", [Lit("youtube.com/live/"), YouTubeIdAtom], Live, Fixed("YouTube Live")),
    Rule1("music", YouTubeMusic, Music, Fixed("YouTube Music")),
    Rule1("playlist", [Lit("youtube.com/playlist?list="), Run(IdChar)], Playlist, Fixed("YouTube Playlist")),
    Rule1("channel", [Lit("youtube.com/"), OneOf(["c/", "channel/", "user/", "@"]), Run(IdChar)],
          Channel, Fixed("YouTube Channel")),
    Rule1("mobile", YouTubeMobile, Video, Fixed("Video YouTube (mobile)"))
  ]

  const YouTubeMusicIndex := 4
  const YouTubeMobileIndex := 7

  // ---- Facebook (src/link_detector.py:36-45, checked at 174-224) ----

  const FacebookPageTail := [Run(NotSlash), Lit("/videos/"), Run(Digit)]
  const FacebookHost := "facebook.com/"
  const FacebookVideoPage := [Lit(FacebookHost)] + FacebookPageTail
  const FacebookMobile := [Lit("m." + FacebookHost)] + FacebookPageTail
  const FacebookWebMobile := [Lit("web." + FacebookHost)] + FacebookPageTail

  const FacebookProfileExclusions := ["/watch/", "/videos/", "/reel/", "/share/"]

  const FacebookRules: seq<Rule> := [
    Rule1("video_watch", [Lit("facebook.com/watch/?v="), Run(Digit)], Video, Fixed("Video Facebook")),
    Rule1("video_watch_web", [Lit("web.facebook.com/watch?v="), Run(Digit)], Video, Fixed("Video Facebook (web)")),
    Rule("video_page", FacebookVideoPage, Video, 2, Prefixed("Video Facebook từ ", 1), []),
    Rule1("reel", [Lit("facebook.com/reel/"), Run(Digit)], Reel, Fixed("Facebook Reel")),
    Rule1("shortlink", [Lit("fb.watch/"), Run(IdChar)], Shortlink, Fixed("Facebook Shortlink")),
    Rule("mobile", FacebookMobile, Video, 2, Prefixed("Video Facebook (mobile) từ ", 1), []),
    Rule("web_mobile", FacebookWebMobile, Video, 2, Prefixed("Video Facebook (web mobile) từ ", 1), []),
    Rule1("web_watch_page", [Lit("web.facebook.com/watch/"), Run(NotSlash)], WatchPage,
          Prefixed("Facebook Watch Page: ", 1)),
    Rule1("web_share", [Lit("web.facebook.com/share/v/"), Run(IdChar)], Share, Prefixed("Facebook Share Link: ", 1)),
    Rule("web_profile", [Lit("web.facebook.com/"), Run(NotSlash)], Profile, 1,
         Prefixed("Facebook Profile: ", 1), FacebookProfileExclusions)
  ]

  const FacebookVideoPageIndex := 2
  const FacebookMobileIndex := 5
  const FacebookWebMobileIndex := 6
  const FacebookProfileIndex := 9

  // ---- Instagram (src/link_detector.py:50-54, checked at 232-254) ----

  const InstagramProfileExclusions := ["/p/", "/reel/", "/tv/", "/stories/"]

  const InstagramRules: seq<Rule> := [
    Rule1("post", [Lit("instagram.com/p/"), Run(IdChar)], Post, Fixed("Instagram Post")),
    Rule1("reel", [Lit("instagram.com/reel/"), Run(IdChar)], Reel, Fixed("Instagram Reel")),
    Rule1("igtv", [Lit("instagram.com/tv/"), Run(IdChar)], Igtv, Fixed("Instagram IGTV")),
    Rule("profile", [Lit("instagram.com/"), Run(HandleChar)], Profile, 1,
         Fixed("Instagram Profile"), InstagramProfileExclusions),
    Rule("stories", [Lit("instagram.com/stories/"), Run(HandleChar), Lit("/"), Run(Digit)], Stories, 2,
         Prefixed("Instagram Stories từ ", 1), [])
  ]

  const InstagramProfileIndex := 3

  // ---- TikTok (src/link_detector.py:59-65, checked at 262-309) ----

  const TikTokProfileExclusions := ["/video/", "/playlist/", "/live"]

  const TikTokRules: seq<Rule> := [
    Rule("video_standard", [Lit("tiktok.com/@"), Run(NotSlash), Lit("/video/"), Run(Digit)], Video, 2,
         Prefixed("TikTok Video từ @", 1), []),
    Rule1("video_id", [Lit("tiktok.com/video/"), Run(Digit)], Video, Fixed("TikTok Video")),
    Rule1("shortlink_vm", [Lit("vm.tiktok.com/"), Run(AlnumChar)], Shortlink, Fixed("TikTok Shortlink (vm)")),
    Rule1("shortlink_vt", [Lit("vt.tiktok.com/"), Run(AlnumChar)], Shortlink, Fixed("TikTok Shortlink (vt)")),
    Rule("profile", [Lit("tiktok.com/@"), Run(NotSlash)], Profile, 1,
         Prefixed("TikTok Profile @", 1), TikTokProfileExclusions),
    Rule("playlist", [Lit("tiktok.com/@"), Run(NotSlash), Lit("/playlist/"), Run(NotSlash)], Playlist, 2,
         PlaylistOf(1, 2), []),
    Rule1("live", [Lit("tiktok.com/@"), Run(NotSlash), Lit("/live")], Live, Prefixed("TikTok Live từ @", 1))
  ]

  const TikTokProfileIndex := 4
  const TikTokPlaylistIndex := 5

  // ---- Douyin (src/link_detector.py:70-72, checked at 317-329) ----

  const DouyinRules: seq<Rule> := [
    Rule1("video", [Lit("douyin.com/video/"), Run(Digit)], Video, Fixed("Douyin Video")),
    Rule1("user", [Lit("douyin.com/user/"), Run(IdChar)], Profile, Prefixed("Douyin Profile ", 1)),
    Rule1("shortlink", [Lit("v.douyin.com/"), Run(AlnumChar)], Shortlink, Fixed("Douyin Shortlink"))
  ]

  lemma PatternWellFormed(r: Rule)
    requires 2 <= |r.pattern| <= 4
    requires Deterministic(r.pattern)
    requires |r.pattern| == 2 ==> Captures(r.pattern[1]) && r.idGroup == 1
    requires |r.pattern| == 3 ==>
      !Captures(r.pattern[0]) && (Captures(r.pattern[1]) || Captures(r.pattern[2])) && r.idGroup == 1
    requires |r.pattern| == 4 ==>
      !Captures(r.pattern[0]) && Captures(r.pattern[1]) && !Captures(r.pattern[2]) && Captures(r.pattern[3])
      && 1 <= r.idGroup <= 2
    requires r.desc.Prefixed? ==> r.desc.group == 1
    requires r.desc.PlaylistOf? ==> |r.pattern| == 4 && r.desc.userGroup == 1 && r.desc.playlistGroup == 2
    ensures WellFormed(r)
  {
    var p := r.pattern;
    if |p| == 2 {
      assert p == [p[0], p[1]];
      GroupsOfPair(p[0], p[1]);
    } else if |p| == 3 {
      assert p == [p[0], p[1], p[2]];
      GroupsOfTriple(p[0], p[1], p[2]);
      GroupsOfPair(p[1], p[2]);
    } else {
      assert p == [p[0], p[1], p[2], p[3]];
      GroupsOfQuad(p[0], p[1], p[2], p[3]);
      GroupsOfTriple(p[1], p[2], p[3]);
      GroupsOfPair(p[2], p[3]);
    }
  }

  // Well-formedness, rule by rule.

  lemma YouTubeRulesWellFormed0(k: nat)
    requires 0 <= k <= 2
    ensures WellFormed(YouTubeRules[k])
  {
    var rs := YouTubeRules;
    if k == 0 { PatternWellFormed(rs[0]); }
    else if k == 1 { PatternWellFormed(rs[1]); }
    else { PatternWellFormed(rs[2]); }
  }

  lemma YouTubeRulesWellFormed1(k: nat)
    requires 3 <= k <= 5
    ensures WellFormed(YouTubeRules[k])
  {
    var rs := YouTubeRules;
    if k == 3 { PatternWellFormed(rs[3]); }
    else if k == 4 { PatternWellFormed(rs[4]); }
    else { PatternWellFormed(rs[5]); }
  }

  lemma YouTubeRulesWellFormed2(k: nat)
    requires 6 <= k <= 7
    ensures WellFormed(YouTubeRules[k])
  {
    var rs := YouTubeRules;
    if k == 6 { PatternWellFormed(rs[6]); }
    else { PatternWellFormed(rs[7]); }
  }

  lemma YouTubeRuleWellFormed(k: nat)
    requires k < |YouTubeRules|
    ensures WellFormed(YouTubeRules[k])
  {
    if k <= 2 { YouTubeRulesWellFormed0(k); }
    else if k <= 5 { YouTubeRulesWellFormed1(k); }
    else { YouTubeRulesWellFormed2(k); }
  }

  lemma FacebookRulesWellFormed0(k: nat)
    requires 0 <= k <= 2
    ensures WellFormed(FacebookRules[k])
  {
    var rs := FacebookRules;
    if k == 0 { PatternWellFormed(rs[0]); }
    else if k == 1 { PatternWellFormed(rs[1]); }
    else { PatternWellFormed(rs[2]); }
  }

  lemma FacebookRulesWellFormed1(k: nat)
    requires 3 <= k <= 5
    ensures WellFormed(FacebookRules[k])
  {
    var rs := FacebookRules;
    if k == 3 { PatternWellFormed(rs[3]); }
    else if k == 4 { PatternWellFormed(rs[4]); }
    else { PatternWellFormed(rs[5]); }
  }

  lemma FacebookRulesWellFormed2(k: nat)
    requires 6 <= k <= 8
    ensures WellFormed(FacebookRules[k])
  {
    var rs := FacebookRules;
    if k == 6 { PatternWellFormed(rs[6]); }
    else if k == 7 { PatternWellFormed(rs[7]); }
    else { PatternWellFormed(rs[8]); }
  }

  lemma FacebookRulesWellFormed3(k: nat)
    requires 9 <= k <= 9
    ensures WellFormed(FacebookRules[k])
  {
    var rs := FacebookRules;
    PatternWellFormed(rs[9]);
  }

  lemma FacebookRuleWellFormed(k: nat)
    requires k < |FacebookRules|
    ensures WellFormed(FacebookRules[k])
  {
    if k <= 2 { FacebookRulesWellFormed0(k); }
    else if k <= 5 { FacebookRulesWellFormed1(k); }
    else if k <= 8 { FacebookRulesWellFormed2(k); }
    else { FacebookRulesWellFormed3(k); }
  }

  lemma InstagramRulesWellFormed0(k: nat)
    requires 0 <= k <= 2
    ensures WellFormed(InstagramRules[k])
  {
    var rs := InstagramRules;
    if k == 0 { PatternWellFormed(rs[0]); }
    else if k == 1 { PatternWellFormed(rs[1]); }
    else { PatternWellFormed(rs[2]); }
  }

  lemma InstagramRulesWellFormed1(k: nat)
    requires 3 <= k <= 4
    ensures WellFormed(InstagramRules[k])
  {
    var rs := InstagramRules;
    if k == 3 { PatternWellFormed(rs[3]); }
    else { PatternWellFormed(rs[4]); }
  }

  lemma InstagramRuleWellFormed(k: nat)
    requires k < |InstagramRules|
    ensures WellFormed(InstagramRules[k])
  {
    if k <= 2 { InstagramRulesWellFormed0(k); }
    else { InstagramRulesWellFormed1(k); }
  }

  lemma TikTokRulesWellFormed0(k: nat)
    requires 0 <= k <= 2
    ensures WellFormed(TikTokRules[k])
  {
    var rs := TikTokRules;
    if k == 0 { PatternWellFormed(rs[0]); }
    else if k == 1 { PatternWellFormed(rs[1]); }
    else { PatternWellFormed(rs[2]); }
  }

  lemma TikTokRulesWellFormed1(k: nat)
    requires 3 <= k <= 5
    ensures WellFormed(TikTokRules[k])
  {
    var rs := TikTokRules;
    if k == 3 { PatternWellFormed(rs[3]); }
    else if k == 4 { PatternWellFormed(rs[4]); }
    else { PatternWellFormed(rs[5]); }
  }

  lemma TikTokRulesWellFormed2(k: nat)
    requires 6 <= k <= 6
    ensures WellFormed(TikTokRules[k])
  {
    var rs := TikTokRules;
    PatternWellFormed(rs[6]);
  }

  lemma TikTokRuleWellFormed(k: nat)
    requires k < |TikTokRules|
    ensures WellFormed(TikTokRules[k])
  {
    if k <= 2 { TikTokRulesWellFormed0(k); }
    else if k <= 5 { TikTokRulesWellFormed1(k); }
    else { TikTokRulesWellFormed2(k); }
  }

  lemma DouyinRulesWellFormed0(k: nat)
    requires 0 <= k <= 2
    ensures WellFormed(DouyinRules[k])
  {
    var rs := DouyinRules;
    if k == 0 { PatternWellFormed(rs[0]); }
    else if k == 1 { PatternWellFormed(rs[1]); }
    else { PatternWellFormed(rs[2]); }
  }

  lemma DouyinRuleWellFormed(k: nat)
    requires k < |DouyinRules|
    ensures WellFormed(DouyinRules[k])
  {
    DouyinRulesWellFormed0(k);
  }

  predicate AllWellFormed(rules: seq<Rule>)
  {
    forall k :: 0 <= k < |rules| ==> WellFormed(rules[k])
  }

  lemma YouTubeTableWellFormed()
    ensures AllWellFormed(YouTubeRules)
  {
    forall k | 0 <= k < |YouTubeRules|
      ensures WellFormed(YouTubeRules[k])
    {
      YouTubeRuleWellFormed(k);
    }
  }

  lemma FacebookTableWellFormed()
    ensures AllWellFormed(FacebookRules)
  {
    forall k | 0 <= k < |FacebookRules|
      ensures WellFormed(FacebookRules[k])
    {
      FacebookRuleWellFormed(k);
    }
  }

  lemma InstagramTableWellFormed()
    ensures AllWellFormed(InstagramRules)
  {
    forall k | 0 <= k < |InstagramRules|
      ensures WellFormed(InstagramRules[k])
    {
      InstagramRuleWellFormed(k);
    }
  }

  lemma TikTokTableWellFormed()
    ensures AllWellFormed(TikTokRules)
  {
    forall k | 0 <= k < |TikTokRules|
      ensures WellFormed(TikTokRules[k])
    {
      TikTokRuleWellFormed(k);
    }
  }

  lemma DouyinTableWellFormed()
    ensures AllWellFormed(DouyinRules)
  {
    forall k | 0 <= k < |DouyinRules|
      ensures WellFormed(DouyinRules[k])
    {
      DouyinRuleWellFormed(k);
    }
  }

  /** The link types a platform's rules can report. */
  function LinkTypesOf(p: Platform): set<LinkType>
  {
    match p
    case YouTube => {Video, Shorts, Live, Music, Playlist, Channel}
    case Facebook => {Video, Reel, Shortlink, WatchPage, Share, Profile}
    case Instagram => {Post, Reel, Igtv, Profile, Stories}
    case TikTok => {Video, Shortlink, Profile, Playlist, Live}
    case Douyin => {Video, Profile, Shortlink}
  }

  /** The types reported by each table. */
  lemma YouTubeLinkTypes()
    ensures forall k :: 0 <= k < |YouTubeRules| ==> YouTubeRules[k].linkType in LinkTypesOf(YouTube)
  {
  }

  lemma FacebookLinkTypes()
    ensures forall k :: 0 <= k < |FacebookRules| ==> FacebookRules[k].linkType in LinkTypesOf(Facebook)
  {
  }

  lemma InstagramLinkTypes()
    ensures forall k :: 0 <= k < |InstagramRules| ==> InstagramRules[k].linkType in LinkTypesOf(Instagram)
  {
  }

  lemma TikTokLinkTypes()
    ensures forall k :: 0 <= k < |TikTokRules| ==> TikTokRules[k].linkType in LinkTypesOf(TikTok)
  {
  }

  lemma DouyinLinkTypes()
    ensures forall k :: 0 <= k < |DouyinRules| ==> DouyinRules[k].linkType in LinkTypesOf(Douyin)
  {
  }

  // Which rule reports which type, where a property depends on it.

  lemma YouTubeMusicRuleOnly(k: nat)
    requires k < |YouTubeRules|
    ensures YouTubeRules[k].linkType == Music <==> k == YouTubeMusicIndex
  {
  }

  lemma FacebookLeadingRulesAreVideo(k: nat)
    requires k <= FacebookVideoPageIndex
    ensures FacebookRules[k].linkType == Video
  {
  }

  lemma FacebookProfileRuleOnly(k: nat)
    requires k < |FacebookRules|
    ensures FacebookRules[k].linkType == Profile <==> k == FacebookProfileIndex
  {
  }

  lemma InstagramProfileRuleOnly(k: nat)
    requires k < |InstagramRules|
    ensures InstagramRules[k].linkType == Profile <==> k == InstagramProfileIndex
  {
  }

  lemma TikTokProfileRuleOnly(k: nat)
    requires k < |TikTokRules|
    ensures TikTokRules[k].linkType == Profile <==> k == TikTokProfileIndex
  {
  }

  lemma TikTokPlaylistRuleOnly(k: nat)
    requires k < |TikTokRules|
    ensures TikTokRules[k].linkType == Playlist <==> k == TikTokPlaylistIndex
  {
  }

  /** The group a rule takes its content id from. */
  function IdAtom(r: Rule): Atom
    requires ValidGroup(r.pattern, r.idGroup)
  {
    Groups(r.pattern)[r.idGroup - 1]
  }

  // The id group of every video rule.

  lemma YouTubeVideoIds(k: nat)
    requires k < |YouTubeRules| && YouTubeRules[k].linkType == Video
    ensures ValidGroup(YouTubeRules[k].pattern, 1) && YouTubeRules[k].idGroup == 1
    ensures IdAtom(YouTubeRules[k]) == YouTubeIdAtom
  {
    if k == 0 {
    } else if k == 1 {
    } else {
      YouTubeRuleWellFormed(k);
    }
  }

  lemma FacebookVideoIds(k: nat)
    requires k < |FacebookRules| && FacebookRules[k].linkType == Video
    ensures ValidGroup(FacebookRules[k].pattern, FacebookRules[k].idGroup)
    ensures IdAtom(FacebookRules[k]) == Run(Digit)
  {
    FacebookRuleWellFormed(k);
    if k == 0 {
    } else if k == 1 {
    } else if k == 2 {
    } else if k == 5 {
    } else {
    }
  }

  lemma TikTokVideoIds(k: nat)
    requires k < |TikTokRules| && TikTokRules[k].linkType == Video
    ensures ValidGroup(TikTokRules[k].pattern, TikTokRules[k].idGroup)
    ensures IdAtom(TikTokRules[k]) == Run(Digit)
  {
    TikTokRuleWellFormed(k);
    if k == 0 {
    } else {
    }
  }

  lemma DouyinVideoIds(k: nat)
    requires k < |DouyinRules| && DouyinRules[k].linkType == Video
    ensures ValidGroup(DouyinRules[k].pattern, DouyinRules[k].idGroup)
    ensures IdAtom(DouyinRules[k]) == Run(Digit)
  {
  }
}
