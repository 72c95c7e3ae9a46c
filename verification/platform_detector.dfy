/**
  The keyword platform detector: a URL belongs to the first platform, in table
  order, one of whose keywords occurs in the lower-cased URL.

  The platform table (`PLATFORMS`) is a parameter: a Python dict, so a sequence
  of entries in iteration order whose keys are distinct.
 */
module PlatformDetector {
  import opened Text

  /** One entry of the platform table: its key and the `name`, `emoji`, `keywords` fields. */
  datatype PlatformEntry = PlatformEntry(key: string, name: string, emoji: string, keywords: seq<string>)

  type Platforms = seq<PlatformEntry>

  /** Dict keys are distinct. */
  predicate UniqueKeys(ps: Platforms)
  {
    forall i, j :: 0 <= i < j < |ps| ==> ps[i].key != ps[j].key
  }

  /** What `detect_platform` returns for a recognised URL. */
  datatype Detected = Detected(key: string, name: string, emoji: string, info: PlatformEntry)

  /** What `get_supported_platforms` lists for each entry. */
  datatype PlatformSummary = PlatformSummary(key: string, name: string, emoji: string, keywords: seq<string>)

  const UnsupportedDisplay := "❌ Platform không hỗ trợ"
  const DevelopmentSuffix := " đang phát triển"
  const DouyinKey := "douyin"

  /** Some keyword of the entry occurs in the (already lower-cased) text. */
  predicate Mentions(e: PlatformEntry, lowered: string)
  {
    exists kw :: kw in e.keywords && Contains(lowered, kw)
  }

  /** The inner keyword loop: does any keyword from index `k` on occur in `lowered`? */
  function AnyKeyword(keywords: seq<string>, lowered: string, k: nat): (b: bool)
    requires k <= |keywords|
    ensures b <==> exists j :: k <= j < |keywords| && Contains(lowered, keywords[j])
    decreases |keywords| - k
  {
    if k == |keywords| then false
    else Contains(lowered, keywords[k]) || AnyKeyword(keywords, lowered, k + 1)
  }

  /** For each entry, whether one of its keywords occurs in `lowered`. */
  function MentionFlags(ps: Platforms, lowered: string): (flags: seq<bool>)
    ensures |flags| == |ps|
    ensures forall i :: 0 <= i < |ps| ==> flags[i] == Mentions(ps[i], lowered)
  {
    seq(|ps|, i requires 0 <= i < |ps| => AnyKeyword(ps[i].keywords, lowered, 0))
  }

  function DetectedOf(e: PlatformEntry): Detected
  {
    Detected(e.key, e.name, e.emoji, e)
  }

  /**
    `detect_platform`: None for a blank URL; otherwise the first entry, in table
    order, that has a keyword occurring in the lower-cased URL.
   */
  function DetectPlatform(ps: Platforms, url: string): (r: Option<Detected>)
    ensures IsBlank(url) ==> r.None?
    ensures r.None? && !IsBlank(url) ==> forall i :: 0 <= i < |ps| ==> !Mentions(ps[i], Lower(url))
    ensures r.Some? ==>
      && !IsBlank(url)
      && exists i :: 0 <= i < |ps| && Mentions(ps[i], Lower(url)) && r.value == DetectedOf(ps[i])
                     && forall j :: 0 <= j < i ==> !Mentions(ps[j], Lower(url))
  {
    if IsBlank(url) then None
    else
      match FirstTrue(MentionFlags(ps, Lower(url)), 0)
      case Some(i) => Some(DetectedOf(ps[i]))
      case None => None
  }

  /** `is_platform_supported`: a non-blank URL mentioning some keyword of some entry. */
  function IsPlatformSupported(ps: Platforms, url: string): (b: bool)
    ensures b <==> !IsBlank(url) && exists i :: 0 <= i < |ps| && Mentions(ps[i], Lower(url))
  {
    DetectPlatform(ps, url).Some?
  }

  /** The text part of `get_platform_display_text`. */
  function DisplayText(ps: Platforms, url: string): (text: string)
    ensures DetectPlatform(ps, url).None? ==> text == UnsupportedDisplay
    ensures DetectPlatform(ps, url).Some? ==>
      var d := DetectPlatform(ps, url).value;
      text == d.emoji + " " + d.name + (if d.key == DouyinKey then DevelopmentSuffix else "")
  {
    match DetectPlatform(ps, url)
    case None => UnsupportedDisplay
    case Some(d) =>
      if d.key == DouyinKey then d.emoji + " " + d.name + DevelopmentSuffix
      else d.emoji + " " + d.name
  }

  /** `get_supported_platforms`: one summary per entry, in table order. */
  function SupportedPlatforms(ps: Platforms): (r: seq<PlatformSummary>)
    ensures |r| == |ps|
    ensures forall i :: 0 <= i < |ps| ==>
      r[i] == PlatformSummary(ps[i].key, ps[i].name, ps[i].emoji, ps[i].keywords)
  {
    seq(|ps|, i requires 0 <= i < |ps| => PlatformSummary(ps[i].key, ps[i].name, ps[i].emoji, ps[i].keywords))
  }

  // ---- Properties ----

  /** Distinct table keys give distinct listed keys. */
  lemma SupportedKeysUnique(ps: Platforms)
    requires UniqueKeys(ps)
    ensures var r := SupportedPlatforms(ps);
      forall i, j :: 0 <= i < j < |r| ==> r[i].key != r[j].key
  {
  }

  /** Whatever is detected is listed, with the same name and emoji. */
  lemma DetectedIsListed(ps: Platforms, url: string)
    requires DetectPlatform(ps, url).Some?
    ensures var d := DetectPlatform(ps, url).value;
      exists i :: 0 <= i < |ps| && SupportedPlatforms(ps)[i].key == d.key
        && SupportedPlatforms(ps)[i].name == d.name && SupportedPlatforms(ps)[i].emoji == d.emoji
  {
    var i :| 0 <= i < |ps| && DetectPlatform(ps, url).value == DetectedOf(ps[i]);
    assert SupportedPlatforms(ps)[i].key == ps[i].key;
  }

  /** Lower-casing leaves blankness unchanged: no whitespace is an ASCII capital. */
  lemma LowerKeepsBlank(s: string)
    ensures IsBlank(Lower(s)) <==> IsBlank(s)
  {
    assert forall i :: 0 <= i < |s| ==> (IsSpace(Lower(s)[i]) <==> IsSpace(s[i]));
  }

  /** Detection ignores the case of the URL. */
  lemma DetectIgnoresCase(ps: Platforms, url: string)
    ensures DetectPlatform(ps, Lower(url)) == DetectPlatform(ps, url)
  {
    LowerKeepsBlank(url);
    LowerIdempotent(url);
  }

  /** Only the URL is lower-cased: a keyword holding an ASCII capital never matches. */
  lemma CapitalKeywordNeverMatches(url: string, kw: string, k: nat)
    requires k < |kw| && IsAsciiUpper(kw[k])
    ensures !Contains(Lower(url), kw)
  {
    AbsentCharExcludes(Lower(url), kw, k);
  }

  /**
    The display text is the error text exactly when the URL is unsupported,
    provided no emoji is empty or begins with the error mark.
   */
  lemma DisplayErrorIffUnsupported(ps: Platforms, url: string)
    requires forall i :: 0 <= i < |ps| ==> |ps[i].emoji| > 0 && ps[i].emoji[0] != UnsupportedDisplay[0]
    ensures DisplayText(ps, url) == UnsupportedDisplay <==> !IsPlatformSupported(ps, url)
  {
    if IsPlatformSupported(ps, url) {
      var d := DetectPlatform(ps, url).value;
      var i :| 0 <= i < |ps| && d == DetectedOf(ps[i]);
      assert DisplayText(ps, url)[0] == d.emoji[0];
    }
  }

  // ---- The keyword table of the main window, as a concrete table ----

  const FixtureFacebook := PlatformEntry("facebook", "Facebook", "📘", ["facebook.com", "fb.com", "m.facebook.com"])
  const FixtureTikTok := PlatformEntry("tiktok", "TikTok", "🎵", ["tiktok.com", "vm.tiktok.com"])
  const FixtureInstagram := PlatformEntry("instagram", "Instagram", "📷", ["instagram.com", "instagr.am"])
  const FixtureYouTube := PlatformEntry("youtube", "YouTube", "📺", ["youtube.com", "youtu.be", "m.youtube.com"])
  const FixtureDouyin := PlatformEntry("douyin", "Douyin", "🎪", ["douyin.com", "iesdouyin.com"])

  const Fixture: Platforms := [FixtureFacebook, FixtureTikTok, FixtureInstagram, FixtureYouTube, FixtureDouyin]

  /** Table order decides: a YouTube URL that mentions `fb.com` is reported as Facebook. */
  lemma FixtureFirstEntryWins()
    ensures DetectPlatform(Fixture, "youtube.com/?u=fb.com") == Some(DetectedOf(FixtureFacebook))
  {
    var url := "youtube.com/?u=fb.com";
    assert !IsBlank(url) by { assert !IsSpace(url[0]); }
    assert Lower(url)[15..21] == "fb.com";
    ContainsAt(Lower(url), "fb.com", 15);
    assert Mentions(FixtureFacebook, Lower(url)) by { assert "fb.com" in FixtureFacebook.keywords; }
  }

  lemma FixtureFirstEntryDisplay()
    ensures DisplayText(Fixture, "youtube.com/?u=fb.com") == "📘 Facebook"
  {
    FixtureFirstEntryWins();
  }
}
