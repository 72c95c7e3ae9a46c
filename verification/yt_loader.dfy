/**
  The YouTube loader's link checks: `check_youtube_link`, which classifies a link
  with three anchored regular expressions (`re.match`), and `takeVideoIDFromUrl`,
  which pulls a video id out with an unanchored search.

  `re.match` succeeds when some way of reading the pattern fits a prefix of the
  link, so each pattern is stated as "some end of the optional `(https?://)?(www\.)?`
  prefix is followed by the pattern's body". A body ending in `[^&]+` needs just
  one character other than '&' at that point, since nothing is anchored at the end.
 */
module YtLoader {
  import opened Text
  import opened Patterns

  datatype LinkKind = Playlist | Channel | Video | Error

  /** `i` is where the optional `(https?://)?(www\.)?` prefix can end. */
  predicate PrefixEndsAt(s: string, i: nat)
  {
    || i == 0
    || (i == 7 && StartsWith(s, "http://"))
    || (i == 8 && StartsWith(s, "https://"))
    || (i == 4 && StartsWith(s, "www."))
    || (i == 11 && StartsWith(s, "http://www."))
    || (i == 12 && StartsWith(s, "https://www."))
  }

  /** `[^&]+` matches at `j`. */
  predicate NonAmpAt(s: string, j: nat)
  {
    j < |s| && s[j] != '&'
  }

  const YouTubeHost := "youtube.com/"
  const WatchMark := "watch?v="
  const ShortsMark := "shorts/"
  const ShortHost := "youtu.be/"
  const VideoHosts := [YouTubeHost + WatchMark, ShortHost, YouTubeHost + ShortsMark]
  const ChannelMarks := ["channel/", "@"]
  const ListMark := "list="

  /** `(youtube\.com/watch\?v=|youtu\.be/|youtube\.com/shorts/)[^&]+` at `i`. */
  predicate VideoBodyAt(s: string, i: nat)
  {
    exists host :: host in VideoHosts && OccursAt(s, host, i) && NonAmpAt(s, i + |host|)
  }

  /** `youtube\.com/(channel/|@)[^&]+` at `i`. */
  predicate ChannelBodyAt(s: string, i: nat)
  {
    && OccursAt(s, YouTubeHost, i)
    && exists mark :: mark in ChannelMarks && OccursAt(s, mark, i + |YouTubeHost|)
                      && NonAmpAt(s, i + |YouTubeHost| + |mark|)
  }

  /** `youtube\.com/.*list=[^&]+` at `i`; `.` is any character but a newline. */
  predicate PlaylistBodyAt(s: string, i: nat)
  {
    && OccursAt(s, YouTubeHost, i)
    && exists j :: i + |YouTubeHost| <= j <= |s| && OccursAt(s, ListMark, j) && NonAmpAt(s, j + |ListMark|)
                   && '\n' !in s[i + |YouTubeHost|..j]
  }

  predicate MatchesVideo(s: string)
  {
    exists i :: 0 <= i <= |s| && PrefixEndsAt(s, i) && VideoBodyAt(s, i)
  }

  predicate MatchesChannel(s: string)
  {
    exists i :: 0 <= i <= |s| && PrefixEndsAt(s, i) && ChannelBodyAt(s, i)
  }

  predicate MatchesPlaylist(s: string)
  {
    exists i :: 0 <= i <= |s| && PrefixEndsAt(s, i) && PlaylistBodyAt(s, i)
  }

  /** `check_youtube_link`: playlist, then channel, then video, else error. */
  function CheckYouTubeLink(link: string): (k: LinkKind)
    ensures k == Playlist <==> MatchesPlaylist(link)
    ensures k == Channel <==> !MatchesPlaylist(link) && MatchesChannel(link)
    ensures k == Video <==> !MatchesPlaylist(link) && !MatchesChannel(link) && MatchesVideo(link)
  {
    if MatchesPlaylist(link) then Playlist
    else if MatchesChannel(link) then Channel
    else if MatchesVideo(link) then Video
    else Error
  }

  const WatchIdPattern: Pattern := [Lit(WatchMark), Run(IdChar)]
  const ShortsIdPattern: Pattern := [Lit(ShortsMark), Run(IdChar)]

  /** The id captured by one of the two id patterns. */
  function CapturedId(p: Pattern, url: string): Option<string>
    requires p == WatchIdPattern || p == ShortsIdPattern
  {
    GroupsOfPair(p[0], p[1]);
    match Search(p, url)
    case Some(caps) => Some(caps[0])
    case None => None
  }

  /** `takeVideoIDFromUrl`: the id after `watch?v=`, else the id after `shorts/`, else None. */
  function TakeVideoIdFromUrl(url: string): (r: Option<string>)
    ensures r.Some? ==> |r.value| > 0 && AllIn(r.value, IdChar)
    ensures r.None? <==> Search(WatchIdPattern, url).None? && Search(ShortsIdPattern, url).None?
    ensures Search(WatchIdPattern, url).Some? ==> r == Some(Search(WatchIdPattern, url).value[0])
    ensures Search(WatchIdPattern, url).None? && Search(ShortsIdPattern, url).Some? ==>
      r == Some(Search(ShortsIdPattern, url).value[0])
  {
    GroupsOfPair(Lit(WatchMark), Run(IdChar));
    GroupsOfPair(Lit(ShortsMark), Run(IdChar));
    match CapturedId(WatchIdPattern, url)
    case Some(id) => Some(id)
    case None => CapturedId(ShortsIdPattern, url)
  }

  // ---- Properties ----

  /** A literal starting with `y` that occurs at `i` puts a `y` at `i`. */
  lemma OccursAtHead(s: string, lit: string, i: nat)
    requires OccursAt(s, lit, i) && |lit| > 0
    ensures s[i] == lit[0]
  {
    assert s[i..i + |lit|][0] == s[i];
  }

  /** Every body starts with the `y` of a YouTube host. */
  lemma VideoBodyStartsWithY(s: string, i: nat)
    requires VideoBodyAt(s, i)
    ensures i < |s| && s[i] == 'y'
  {
    var host :| host in VideoHosts && OccursAt(s, host, i) && NonAmpAt(s, i + |host|);
    assert host == VideoHosts[0] || host == VideoHosts[1] || host == VideoHosts[2];
    OccursAtHead(s, host, i);
  }

  lemma HostBodyStartsWithY(s: string, i: nat)
    requires ChannelBodyAt(s, i) || PlaylistBodyAt(s, i)
    ensures i < |s| && s[i] == 'y'
  {
    OccursAtHead(s, YouTubeHost, i);
  }

  /** A link with no `y` wherever the optional prefix can end is not a YouTube link. */
  lemma NoHostIsError(link: string)
    requires forall i :: 0 <= i < |link| && PrefixEndsAt(link, i) ==> link[i] != 'y'
    ensures CheckYouTubeLink(link) == Error
  {
    forall i | 0 <= i <= |link| && PrefixEndsAt(link, i)
      ensures !VideoBodyAt(link, i) && !ChannelBodyAt(link, i) && !PlaylistBodyAt(link, i)
    {
      if VideoBodyAt(link, i) {
        VideoBodyStartsWithY(link, i);
      } else if ChannelBodyAt(link, i) || PlaylistBodyAt(link, i) {
        HostBodyStartsWithY(link, i);
      }
    }
  }

  /**
    Matching is anchored: a mobile link `https://m.…` is an error, although the
    link classifier accepts it.
   */
  lemma MobileLinkIsError(rest: string)
    ensures CheckYouTubeLink("https://m." + rest) == Error
  {
    var link := "https://m." + rest;
    assert link[0] == 'h' && link[4] == 's' && link[8] == 'm';
    forall i | 0 <= i < |link| && PrefixEndsAt(link, i)
      ensures link[i] != 'y'
    {
      assert !StartsWith(link, "http://") by { assert "http://"[4] != link[4]; }
      assert !StartsWith(link, "www.") by { assert "www."[0] != link[0]; }
      assert !StartsWith(link, "http://www.") by { assert "http://www."[4] != link[4]; }
      assert !StartsWith(link, "https://www.") by { assert "https://www."[8] != link[8]; }
    }
    NoHostIsError(link);
  }

  const Secure := "https://"
  const SecureWww := "https://www."
  const WatchBase := SecureWww + YouTubeHost

  /** `https://www.youtube.com/watch?v=<id>`. */
  function WatchUrl(id: string): string
  {
    WatchBase + WatchMark + id
  }

  /** A pattern led by a literal that never occurs finds nothing. */
  lemma AbsentLiteralNoMatch(lit: string, run: Atom, s: string)
    requires forall k: nat :: k <= |s| ==> !OccursAt(s, lit, k)
    ensures Search([Lit(lit), run], s).None?
  {
    var p := [Lit(lit), run];
    forall k | 0 <= k <= |s|
      ensures MatchAt(p, s, k).None?
    {
      assert p[0] == Lit(lit);
    }
  }

  /** Without `watch?v=` and `shorts/` in the URL there is no id. */
  lemma NoMarkNoId(url: string)
    requires !Contains(url, WatchMark) && !Contains(url, ShortsMark)
    ensures TakeVideoIdFromUrl(url).None?
  {
    AbsentLiteralNoMatch(WatchMark, Run(IdChar), url);
    AbsentLiteralNoMatch(ShortsMark, Run(IdChar), url);
  }

  /** A run of the class to the end of the string is captured whole. */
  lemma RunToEnd(s: string, i: nat, k: CharClass)
    requires i < |s| && AllIn(s[i..], k)
    ensures MatchAt([Run(k)], s, i) == Some([s[i..]])
  {
    assert InClass(s[i], k) by { assert s[i] == s[i..][0]; }
    var j := RunEnd(s, i, k);
    assert j == |s|;
    var p := [Run(k)];
    assert p[0] == Run(k) && p[1..] == [];
    assert MatchAt(p[1..], s, j) == Some([]);
    assert s[i..j] == s[i..];
    assert [s[i..j]] + [] == [s[i..]];
  }

  // ---- The watch URL ----

  lemma WatchUrlChars(id: string)
    ensures var url := WatchUrl(id);
      && |url| == 32 + |id|
      && url[..12] == SecureWww && url[12..24] == YouTubeHost && url[24..32] == WatchMark && url[32..] == id
  {
    var url := WatchUrl(id);
    assert url == SecureWww + YouTubeHost + WatchMark + id;
  }

  /** `watch?v=` first occurs at index 24 of a watch URL. */
  lemma WatchMarkFirstAt(id: string, k: nat)
    requires AllIn(id, IdChar) && k < 24
    ensures !OccursAt(WatchUrl(id), WatchMark, k)
  {
    var url := WatchUrl(id);
    WatchUrlChars(id);
    assert url[k + 5] != '?' by {
      if k + 5 < 12 {
        assert url[k + 5] == url[..12][k + 5];
      } else if k + 5 < 24 {
        assert url[k + 5] == url[12..24][k + 5 - 12];
      } else {
        assert url[k + 5] == url[24..32][k + 5 - 24];
      }
    }
    if OccursAt(url, WatchMark, k) {
      assert false;
    }
  }

  /** The id of a watch URL is found again. */
  lemma WatchUrlId(id: string)
    requires |id| > 0 && AllIn(id, IdChar)
    ensures TakeVideoIdFromUrl(WatchUrl(id)) == Some(id)
  {
    var url := WatchUrl(id);
    WatchUrlChars(id);
    forall k | 0 <= k < 24
      ensures MatchAt(WatchIdPattern, url, k).None?
    {
      WatchMarkFirstAt(id, k);
    }
    RunToEnd(url, 32, IdChar);
    assert WatchIdPattern[1..] == [Run(IdChar)];
    assert MatchAt(WatchIdPattern, url, 24) == Some([id]);
    SearchSucceeds(WatchIdPattern, url, 24);
  }

  /** The optional prefix of a watch URL ends at 0, 8 or 12. */
  lemma WatchUrlPrefixEnds(id: string, i: nat)
    requires PrefixEndsAt(WatchUrl(id), i)
    ensures i == 0 || i == 8 || i == 12
  {
    var url := WatchUrl(id);
    WatchUrlChars(id);
    assert url[0] == 'h' && url[4] == 's' by {
      assert url[0] == url[..12][0] && url[4] == url[..12][4];
    }
    assert !StartsWith(url, "http://") by { assert "http://"[4] != url[4]; }
    assert !StartsWith(url, "www.") by { assert "www."[0] != url[0]; }
    assert !StartsWith(url, "http://www.") by { assert "http://www."[4] != url[4]; }
  }

  /** `list=` does not occur after the host of a watch URL. */
  lemma WatchUrlHasNoList(id: string, j: nat)
    requires AllIn(id, IdChar) && 24 <= j
    ensures !OccursAt(WatchUrl(id), ListMark, j)
  {
    var url := WatchUrl(id);
    WatchUrlChars(id);
    if j + 5 <= |url| {
      if j < 32 {
        assert url[j] == url[24..32][j - 24];
        assert url[j] != ListMark[0];
      } else {
        assert url[j + 4] == id[j + 4 - 32];
        assert url[j + 4] != ListMark[4];
      }
      assert url[j..j + 5][0] == url[j] && url[j..j + 5][4] == url[j + 4];
    }
  }

  /** After the prefix of a watch URL there is no channel or playlist body. */
  lemma WatchUrlNotChannelOrPlaylist(id: string)
    requires |id| > 0 && AllIn(id, IdChar)
    ensures !MatchesChannel(WatchUrl(id)) && !MatchesPlaylist(WatchUrl(id))
  {
    var url := WatchUrl(id);
    WatchUrlChars(id);
    assert url[0] == 'h' && url[8] == 'w' && url[24] == 'w' by {
      assert url[0] == url[..12][0] && url[8] == url[..12][8] && url[24] == url[24..32][0];
    }
    forall i | 0 <= i <= |url| && PrefixEndsAt(url, i)
      ensures !ChannelBodyAt(url, i) && !PlaylistBodyAt(url, i)
    {
      WatchUrlPrefixEnds(id, i);
      if i != 12 {
        if ChannelBodyAt(url, i) || PlaylistBodyAt(url, i) {
          HostBodyStartsWithY(url, i);
        }
      } else {
        if ChannelBodyAt(url, i) {
          var mark :| mark in ChannelMarks && OccursAt(url, mark, 24) && NonAmpAt(url, 24 + |mark|);
          assert mark == ChannelMarks[0] || mark == ChannelMarks[1];
          OccursAtHead(url, mark, 24);
        }
        forall j | 24 <= j
          ensures !OccursAt(url, ListMark, j)
        {
          WatchUrlHasNoList(id, j);
        }
      }
    }
  }

  /** The watch URL matches the video pattern after `https://www.`. */
  lemma WatchUrlMatchesVideo(id: string)
    requires |id| > 0 && AllIn(id, IdChar)
    ensures MatchesVideo(WatchUrl(id))
  {
    var url := WatchUrl(id);
    WatchUrlChars(id);
    assert PrefixEndsAt(url, 12) by { assert StartsWith(url, "https://www."); }
    assert OccursAt(url, VideoHosts[0], 12) by { assert url[12..32] == url[12..24] + url[24..32]; }
    assert NonAmpAt(url, 32) by { assert url[32] == id[0]; }
    assert VideoBodyAt(url, 12);
  }

  /** The watch URL is a video link, and its id is found again. */
  lemma WatchUrlRoundTrip(id: string)
    requires |id| > 0 && AllIn(id, IdChar)
    ensures CheckYouTubeLink(WatchUrl(id)) == Video
    ensures TakeVideoIdFromUrl(WatchUrl(id)) == Some(id)
  {
    WatchUrlNotChannelOrPlaylist(id);
    WatchUrlMatchesVideo(id);
    WatchUrlId(id);
  }

  /** A watch URL that also carries `list=` is a playlist: the playlist check comes first. */
  lemma WatchWithListIsPlaylist(v: string, l: string)
    requires '\n' !in v && |l| > 0 && l[0] != '&'
    ensures CheckYouTubeLink(WatchUrl(v + "&" + ListMark + l)) == Playlist
  {
    var id := v + "&" + ListMark + l;
    var url := WatchUrl(id);
    WatchUrlChars(id);
    var j := 32 + |v| + 1;
    assert url[j..j + 5] == ListMark by { assert url[j..j + 5] == id[|v| + 1..|v| + 6]; }
    assert url[j + 5] == l[0] by { assert url[j + 5] == id[|v| + 6]; }
    assert url[24..j] == WatchMark + v + "&" by { assert url[32..j] == id[..|v| + 1]; }
    assert '\n' !in url[24..j];
    assert PrefixEndsAt(url, 12) by { assert StartsWith(url, "https://www."); }
    assert OccursAt(url, YouTubeHost, 12);
    assert 24 <= j && j + 5 < |url| && OccursAt(url, ListMark, j) && NonAmpAt(url, j + 5);
    assert PlaylistBodyAt(url, 12);
  }

  const ShortPrefix := Secure + ShortHost

  /** `https://youtu.be/<id>`. */
  function ShortUrl(id: string): string
  {
    ShortPrefix + id
  }

  /** A short link holds neither `watch?v=` nor `shorts/`. */
  lemma ShortUrlHasNoMark(id: string)
    requires AllIn(id, IdChar)
    ensures !Contains(ShortUrl(id), WatchMark) && !Contains(ShortUrl(id), ShortsMark)
  {
    var url := ShortUrl(id);
    forall m | 0 <= m < |url|
      ensures url[m] != WatchMark[5]
    {
      if m >= 17 {
        assert url[m] == id[m - 17];
      }
    }
    AbsentCharExcludes(url, WatchMark, 5);
    forall k: nat | k <= |url|
      ensures !OccursAt(url, ShortsMark, k)
    {
      if k + 7 <= |url| {
        if k + 6 < 17 {
          assert url[k] == ShortPrefix[k] && url[k + 6] == ShortPrefix[k + 6];
        } else {
          assert url[k + 6] == id[k + 6 - 17];
        }
        assert url[k..k + 7][0] == url[k] && url[k..k + 7][6] == url[k + 6];
      }
    }
  }

  /** After the prefix of a short link there is no channel or playlist body. */
  lemma ShortUrlNotChannelOrPlaylist(id: string)
    ensures !MatchesChannel(ShortUrl(id)) && !MatchesPlaylist(ShortUrl(id))
  {
    var url := ShortUrl(id);
    assert url[..17] == ShortPrefix;
    assert url[0] == 'h' && url[4] == 's' && url[5] == ':' && url[8] == 'y' && url[13] == '.';
    forall i | 0 <= i <= |url| && PrefixEndsAt(url, i)
      ensures !OccursAt(url, YouTubeHost, i)
    {
      assert !StartsWith(url, "http://") by { assert "http://"[4] != url[4]; }
      assert !StartsWith(url, "www.") by { assert "www."[0] != url[0]; }
      assert !StartsWith(url, "http://www.") by { assert "http://www."[4] != url[4]; }
      assert !StartsWith(url, "https://www.") by { assert "https://www."[8] != url[8]; }
      assert url[i + 5] != YouTubeHost[5];
      if i + 12 <= |url| {
        assert url[i..i + 12][5] == url[i + 5];
      }
    }
  }

  /** A short link `youtu.be/<id>` is classified as a video, yet no id is taken from it. */
  lemma ShortLinkVideoWithoutId(id: string)
    requires |id| > 0 && AllIn(id, IdChar)
    ensures CheckYouTubeLink(ShortUrl(id)) == Video
    ensures TakeVideoIdFromUrl(ShortUrl(id)) == None
  {
    var url := ShortUrl(id);
    ShortUrlNotChannelOrPlaylist(id);
    assert url[..17] == ShortPrefix;
    assert PrefixEndsAt(url, 8) by { assert StartsWith(url, "https://"); }
    assert OccursAt(url, VideoHosts[1], 8) by { assert url[8..17] == ShortPrefix[8..]; }
    assert NonAmpAt(url, 17) by { assert url[17] == id[0]; }
    assert VideoBodyAt(url, 8);
    ShortUrlHasNoMark(id);
    NoMarkNoId(url);
  }
}
