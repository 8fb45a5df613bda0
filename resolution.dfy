/** Turning a query into songs (`AddQueryToQueue.getNewSongs`): a URL is sent
    to the YouTube playlist, YouTube video, Spotify or live-stream provider;
    anything that is not a URL, and any failure inside those branches, falls
    back to a YouTube search for the raw query. */
module SongResolution {
  import opened Wrappers
  import opened Text
  import opened Songs

  /** The parts of Node's `URL` that the resolver reads; `listParam` is
      `url.searchParams.get('list')`. */
  datatype ParsedUrl = ParsedUrl(protocol: string, host: string, href: string, listParam: Option<string>)

  /** What an awaited provider call does: resolve to a value or throw. */
  datatype Answer<+T> = Returned(value: T) | Threw(message: string)

  /** `spotifySource` resolves to `[convertedSongs, nSongsNotFound, totalSongs]`. */
  datatype SpotifyAnswer = SpotifyAnswer(convertedSongs: seq<SongMetadata>, songsNotFound: nat, totalSongs: nat)

  /** The `GetSongs` service. A `None` answer is a falsy (`null`/`undefined`)
      result; an empty list is truthy and is passed on as it is. */
  datatype Providers = Providers(
    youtubePlaylist: (string, bool) -> Answer<seq<SongMetadata>>,
    youtubeVideo: (string, bool) -> Answer<Option<seq<SongMetadata>>>,
    spotifySource: (string, nat, bool) -> Answer<SpotifyAnswer>,
    httpLiveStream: string -> Answer<Option<SongMetadata>>,
    youtubeVideoSearch: (string, bool) -> Answer<Option<seq<SongMetadata>>>)

  /** Everything the resolver takes from outside: the URL parser (`None` when
      `new URL(query)` throws), the providers, and the random picks that drive
      the shuffle. */
  datatype Resolver = Resolver(parseUrl: string -> Option<ParsedUrl>, providers: Providers, shufflePicks: seq<nat>)

  datatype Resolution = Resolution(newSongs: seq<SongMetadata>, foundMsg: string)

  const YoutubeHosts: seq<string> :=
    ["www.youtube.com", "youtu.be", "youtube.com", "music.youtube.com", "www.music.youtube.com"]

  const NotExistMessage := "that doesn't exist"
  const NoSongsMessage := "no songs found"

  // ---------------------------------------------------------------------------
  // Which branch a query takes

  datatype Branch =
    | SearchBranch
    | PlaylistBranch(listId: string)
    | VideoBranch(href: string)
    | SpotifyBranch
    | LiveStreamBranch

  /** `url.searchParams.get('list')` is truthy: present and not empty. */
  predicate HasListParam(u: ParsedUrl) {
    u.listParam.Some? && u.listParam.value != ""
  }

  predicate IsSpotifyUrl(u: ParsedUrl) {
    u.protocol == "spotify:" || u.host == "open.spotify.com"
  }

  /** The decision tree, in the source's order: YouTube hosts first (playlist
      when a `list` parameter is present, else the single video), then
      Spotify, then any other URL as a live stream; no URL at all is a search. */
  function Classify(url: Option<ParsedUrl>): (b: Branch)
    ensures b.SearchBranch? <==> url.None?
    ensures b.PlaylistBranch? <==> url.Some? && url.value.host in YoutubeHosts && HasListParam(url.value)
    ensures b.PlaylistBranch? ==> url.value.listParam == Some(b.listId) && b.listId != ""
    ensures b.VideoBranch? <==> url.Some? && url.value.host in YoutubeHosts && !HasListParam(url.value)
    ensures b.VideoBranch? ==> b.href == url.value.href
    ensures b.SpotifyBranch? <==> url.Some? && url.value.host !in YoutubeHosts && IsSpotifyUrl(url.value)
    ensures b.LiveStreamBranch? <==> url.Some? && url.value.host !in YoutubeHosts && !IsSpotifyUrl(url.value)
  {
    match url
    case None => SearchBranch
    case Some(u) =>
      if u.host in YoutubeHosts then
        if HasListParam(u) then PlaylistBranch(u.listParam.value) else VideoBranch(u.href)
      else if IsSpotifyUrl(u) then SpotifyBranch
      else LiveStreamBranch
  }

  // ---------------------------------------------------------------------------
  // The note about a Spotify source

  const SampleLead := "a random sample of "
  const SampleTail := " songs was taken"
  const NoteJoiner := " and "
  const OneNotFound := "1 song was not found"
  const ManyNotFoundTail := " songs were not found"

  function SampleClause(totalSongs: nat, playlistLimit: nat): string {
    if totalSongs > playlistLimit then SampleLead + NatToString(playlistLimit) + SampleTail else ""
  }

  function NotFoundClause(songsNotFound: nat): string {
    if songsNotFound == 0 then ""
    else if songsNotFound == 1 then OneNotFound
    else NatToString(songsNotFound) + ManyNotFoundTail
  }

  /** The sampling clause and the not-found clause, each present only when it
      has something to say, joined by " and " when both are. */
  function FoundNote(totalSongs: nat, songsNotFound: nat, playlistLimit: nat): (note: string)
    ensures note == "" <==> totalSongs <= playlistLimit && songsNotFound == 0
    ensures note == "" || note[0] == 'a' || IsDigit(note[0])
    ensures totalSongs > playlistLimit ==> SampleLead + NatToString(playlistLimit) + SampleTail <= note
    ensures songsNotFound == 1 ==> EndsWith(note, OneNotFound)
    ensures songsNotFound > 1 ==> EndsWith(note, NatToString(songsNotFound) + ManyNotFoundTail)
  {
    var sample := SampleClause(totalSongs, playlistLimit);
    var missing := NotFoundClause(songsNotFound);
    if sample != "" && missing != "" then sample + NoteJoiner + missing else sample + missing
  }

  /** What a note tells the user: the sample size, if a sample was taken, and
      how many songs were not found. */
  datatype NoteFacts = NoteFacts(sampleSize: Option<nat>, songsNotFound: nat)

  function ReadNotFound(s: string): Option<nat> {
    if s == "" then Some(0)
    else if s == OneNotFound then Some(1)
    else
      var d := DigitPrefix(s);
      if d != "" && s == d + ManyNotFoundTail then Some(DigitsValue(d)) else None
  }

  function ReadNote(s: string): Option<NoteFacts> {
    match StripPrefix(SampleLead, s)
    case Some(rest) => ReadSample(rest)
    case None =>
      match ReadNotFound(s)
      case Some(n) => Some(NoteFacts(None, n))
      case None => None
  }

  /** Reads "<n> songs was taken", optionally followed by " and " and a
      non-empty not-found clause. */
  function ReadSample(rest: string): Option<NoteFacts> {
    var d := DigitPrefix(rest);
    if d == "" then None
    else
      match StripPrefix(SampleTail, rest[|d|..])
      case None => None
      case Some(tail) =>
        if tail == "" then Some(NoteFacts(Some(DigitsValue(d)), 0))
        else
          match StripPrefix(NoteJoiner, tail)
          case None => None
          case Some(missing) =>
            match ReadNotFound(missing)
            case Some(n) => if n == 0 then None else Some(NoteFacts(Some(DigitsValue(d)), n))
            case None => None
  }

  lemma {:induction false} NotFoundClauseRoundTrip(songsNotFound: nat)
    ensures ReadNotFound(NotFoundClause(songsNotFound)) == Some(songsNotFound)
    ensures NotFoundClause(songsNotFound) == "" || IsDigit(NotFoundClause(songsNotFound)[0])
  {
    if songsNotFound > 1 {
      var d := NatToString(songsNotFound);
      var s := d + ManyNotFoundTail;
      assert s[0] == d[0];
      assert |s| != |OneNotFound|;
      DigitPrefixOfDigits(d, ManyNotFoundTail);
      NatToStringRoundTrip(songsNotFound);
    }
  }

  /** Reading a note that opens with the sampling clause. */
  lemma {:induction false} ReadSampledNote(sampleSize: nat, tail: string, songsNotFound: nat)
    requires tail == "" || (songsNotFound != 0 && tail == NoteJoiner + NotFoundClause(songsNotFound))
    requires tail == "" ==> songsNotFound == 0
    ensures ReadNote(SampleLead + NatToString(sampleSize) + SampleTail + tail)
         == Some(NoteFacts(Some(sampleSize), songsNotFound))
  {
    var d := NatToString(sampleSize);
    ConcatAssoc(SampleLead + d, SampleTail, tail);
    ConcatAssoc(SampleLead, d, SampleTail + tail);
    StripPrefixOfConcat(SampleLead, d + (SampleTail + tail));
    DigitPrefixOfDigits(d, SampleTail + tail);
    DropPrefix(d, SampleTail + tail);
    StripPrefixOfConcat(SampleTail, tail);
    NatToStringRoundTrip(sampleSize);
    if tail != "" {
      StripPrefixOfConcat(NoteJoiner, NotFoundClause(songsNotFound));
      NotFoundClauseRoundTrip(songsNotFound);
    }
  }

  /** The note says exactly whether a sample was taken, of what size, and how
      many songs were not found. */
  lemma {:induction false} FoundNoteRoundTrip(totalSongs: nat, songsNotFound: nat, playlistLimit: nat)
    ensures ReadNote(FoundNote(totalSongs, songsNotFound, playlistLimit))
         == Some(NoteFacts(if totalSongs > playlistLimit then Some(playlistLimit) else None, songsNotFound))
  {
    var missing := NotFoundClause(songsNotFound);
    var note := FoundNote(totalSongs, songsNotFound, playlistLimit);
    if totalSongs > playlistLimit {
      var tail := if missing == "" then "" else NoteJoiner + missing;
      ConcatAssoc(SampleClause(totalSongs, playlistLimit), NoteJoiner, missing);
      assert note == SampleLead + NatToString(playlistLimit) + SampleTail + tail;
      ReadSampledNote(playlistLimit, tail, songsNotFound);
    } else {
      assert note == missing;
      NotFoundClauseRoundTrip(songsNotFound);
      if missing != "" {
        StripPrefixMismatch(SampleLead, note, 0);
      }
    }
  }

  // ---------------------------------------------------------------------------
  // Random reordering (`array-shuffle`)

  /** A random permutation: each pick chooses, among the songs not yet placed,
      the one that goes last. */
  function Shuffled<T>(s: seq<T>, picks: seq<nat>): (r: seq<T>)
    ensures |r| == |s| && multiset(r) == multiset(s)
    decreases |s|
  {
    if |s| <= 1 then s
    else
      var j := (if picks == [] then 0 else picks[0]) % |s|;
      var rest := s[..j] + s[j + 1..];
      assert s == s[..j] + [s[j]] + s[j + 1..];
      Shuffled(rest, if picks == [] then [] else picks[1..]) + [s[j]]
  }

  // ---------------------------------------------------------------------------
  // The resolution itself

  /** The source's `try` block: `Threw` is any error it raises, including the
      failure of `new URL(query)` and the "that doesn't exist" of a missing
      video or stream. */
  function TryUrl(query: string, url: Option<ParsedUrl>, shouldSplitChapters: bool, playlistLimit: nat, p: Providers): (r: Answer<Resolution>)
    ensures r.Returned? <==> !UrlBranchFails(query, url, shouldSplitChapters, playlistLimit, p)
    ensures r.Returned? && r.value.foundMsg != "" ==> Classify(url) == SpotifyBranch
    ensures r.Threw? && !UrlBranchProviderThrew(query, url, shouldSplitChapters, playlistLimit, p) && url.Some? ==> r.message == NotExistMessage
  {
    match Classify(url)
    case SearchBranch => Threw("Invalid URL")
    case PlaylistBranch(listId) =>
      (match p.youtubePlaylist(listId, shouldSplitChapters)
       case Returned(songs) => Returned(Resolution(songs, ""))
       case Threw(m) => Threw(m))
    case VideoBranch(href) =>
      (match p.youtubeVideo(href, shouldSplitChapters)
       case Returned(Some(songs)) => Returned(Resolution(songs, ""))
       case Returned(None) => Threw(NotExistMessage)
       case Threw(m) => Threw(m))
    case SpotifyBranch =>
      (match p.spotifySource(query, playlistLimit, shouldSplitChapters)
       case Returned(a) => Returned(Resolution(a.convertedSongs, FoundNote(a.totalSongs, a.songsNotFound, playlistLimit)))
       case Threw(m) => Threw(m))
    case LiveStreamBranch =>
      (match p.httpLiveStream(query)
       case Returned(Some(song)) => Returned(Resolution([song], ""))
       case Returned(None) => Threw(NotExistMessage)
       case Threw(m) => Threw(m))
  }

  /** The source's `catch` block: search YouTube for the raw query. Its own
      errors are not caught. */
  function Search(query: string, shouldSplitChapters: bool, p: Providers): (r: Result<Resolution>)
    ensures r.Ok? <==> p.youtubeVideoSearch(query, shouldSplitChapters).Returned? && p.youtubeVideoSearch(query, shouldSplitChapters).value.Some?
    ensures r.Ok? ==> r.value == Resolution(p.youtubeVideoSearch(query, shouldSplitChapters).value.value, "")
    ensures r.Err? ==> r.error == if p.youtubeVideoSearch(query, shouldSplitChapters).Threw?
                                 then p.youtubeVideoSearch(query, shouldSplitChapters).message else NotExistMessage
  {
    match p.youtubeVideoSearch(query, shouldSplitChapters)
    case Returned(Some(songs)) => Ok(Resolution(songs, ""))
    case Returned(None) => Err(NotExistMessage)
    case Threw(m) => Err(m)
  }

  /** The `try` and its `catch` together: the URL branch's songs when it
      succeeds, otherwise whatever the search gives. */
  function Lookup(query: string, url: Option<ParsedUrl>, shouldSplitChapters: bool, playlistLimit: nat, p: Providers): (r: Result<Resolution>)
    ensures r.Err? ==> UrlBranchFails(query, url, shouldSplitChapters, playlistLimit, p) && Search(query, shouldSplitChapters, p).Err?
    ensures r.Ok? && r.value.foundMsg != "" ==> Classify(url) == SpotifyBranch
  {
    match TryUrl(query, url, shouldSplitChapters, playlistLimit, p)
    case Returned(res) => Ok(res)
    case Threw(_) => Search(query, shouldSplitChapters, p)
  }

  /** `getNewSongs`: the lookup, the empty-result guard (outside the `catch`),
      then the optional shuffle. */
  function Resolve(query: string, shuffleAdditions: bool, shouldSplitChapters: bool, playlistLimit: nat, resolver: Resolver): (r: Result<Resolution>)
    ensures r.Ok? ==> |r.value.newSongs| > 0
    ensures r.Ok? && r.value.foundMsg != "" ==> Classify(resolver.parseUrl(query)) == SpotifyBranch
    ensures var found := Lookup(query, resolver.parseUrl(query), shouldSplitChapters, playlistLimit, resolver.providers);
      && (r.Ok? <==> found.Ok? && found.value.newSongs != [])
      && (r.Ok? ==> multiset(r.value.newSongs) == multiset(found.value.newSongs) && r.value.foundMsg == found.value.foundMsg)
      && (r.Ok? && !shuffleAdditions ==> r.value == found.value)
      && (r.Err? ==> r.error == if found.Err? then found.error else NoSongsMessage)
  {
    match Lookup(query, resolver.parseUrl(query), shouldSplitChapters, playlistLimit, resolver.providers)
    case Err(e) => Err(e)
    case Ok(res) =>
      if |res.newSongs| == 0 then Err(NoSongsMessage)
      else Ok(Resolution(if shuffleAdditions then Shuffled(res.newSongs, resolver.shufflePicks) else res.newSongs, res.foundMsg))
  }

  /** The URL branch fails, by the providers' answers alone. */
  predicate UrlBranchFails(query: string, url: Option<ParsedUrl>, shouldSplitChapters: bool, playlistLimit: nat, p: Providers) {
    match Classify(url)
    case SearchBranch => true
    case PlaylistBranch(listId) => p.youtubePlaylist(listId, shouldSplitChapters).Threw?
    case VideoBranch(href) => !(p.youtubeVideo(href, shouldSplitChapters).Returned? && p.youtubeVideo(href, shouldSplitChapters).value.Some?)
    case SpotifyBranch => p.spotifySource(query, playlistLimit, shouldSplitChapters).Threw?
    case LiveStreamBranch => !(p.httpLiveStream(query).Returned? && p.httpLiveStream(query).value.Some?)
  }

  /** Any failure of the URL branch, whatever its cause, ends in a search for
      the raw query; a URL branch that succeeds never consults the search. */
  lemma FallbackToSearch(query: string, url: Option<ParsedUrl>, shouldSplitChapters: bool, playlistLimit: nat, p: Providers,
                         otherSearch: (string, bool) -> Answer<Option<seq<SongMetadata>>>)
    ensures UrlBranchFails(query, url, shouldSplitChapters, playlistLimit, p) ==>
      Lookup(query, url, shouldSplitChapters, playlistLimit, p) == Search(query, shouldSplitChapters, p)
    ensures UrlBranchFails(query, url, shouldSplitChapters, playlistLimit, p) && p.youtubeVideoSearch(query, shouldSplitChapters) == Returned(None) ==>
      Lookup(query, url, shouldSplitChapters, playlistLimit, p) == Err(NotExistMessage)
    ensures !UrlBranchFails(query, url, shouldSplitChapters, playlistLimit, p) ==>
      Lookup(query, url, shouldSplitChapters, playlistLimit, p).Ok? &&
      Lookup(query, url, shouldSplitChapters, playlistLimit, p)
        == Lookup(query, url, shouldSplitChapters, playlistLimit, p.(youtubeVideoSearch := otherSearch))
  {
  }

  /** A URL branch that throws because a provider rejected, as opposed to
      one that found nothing. */
  predicate UrlBranchProviderThrew(query: string, url: Option<ParsedUrl>, shouldSplitChapters: bool, playlistLimit: nat, p: Providers) {
    match Classify(url)
    case SearchBranch => false
    case PlaylistBranch(listId) => p.youtubePlaylist(listId, shouldSplitChapters).Threw?
    case VideoBranch(href) => p.youtubeVideo(href, shouldSplitChapters).Threw?
    case SpotifyBranch => p.spotifySource(query, playlistLimit, shouldSplitChapters).Threw?
    case LiveStreamBranch => p.httpLiveStream(query).Threw?
  }

  /** A single YouTube video that is found is queued as the provider gave
      it, with no note. */
  lemma VideoFound(query: string, url: ParsedUrl, shouldSplitChapters: bool, playlistLimit: nat, p: Providers, songs: seq<SongMetadata>)
    requires url.host in YoutubeHosts && !HasListParam(url)
    requires p.youtubeVideo(url.href, shouldSplitChapters) == Returned(Some(songs))
    ensures Lookup(query, Some(url), shouldSplitChapters, playlistLimit, p) == Ok(Resolution(songs, ""))
  {
  }

  /** A Spotify URL gives the converted songs, with the note built from the
      total, the number not found and the playlist limit handed to the
      provider. */
  lemma SpotifyFound(query: string, url: ParsedUrl, shouldSplitChapters: bool, playlistLimit: nat, p: Providers, a: SpotifyAnswer)
    requires url.host !in YoutubeHosts && IsSpotifyUrl(url)
    requires p.spotifySource(query, playlistLimit, shouldSplitChapters) == Returned(a)
    ensures Lookup(query, Some(url), shouldSplitChapters, playlistLimit, p)
         == Ok(Resolution(a.convertedSongs, FoundNote(a.totalSongs, a.songsNotFound, playlistLimit)))
  {
  }

  /** Any other URL that the live-stream provider recognises is queued as
      that one song, with no note. */
  lemma LiveStreamFound(query: string, url: ParsedUrl, shouldSplitChapters: bool, playlistLimit: nat, p: Providers, song: SongMetadata)
    requires url.host !in YoutubeHosts && !IsSpotifyUrl(url)
    requires p.httpLiveStream(query) == Returned(Some(song))
    ensures Lookup(query, Some(url), shouldSplitChapters, playlistLimit, p) == Ok(Resolution([song], ""))
  {
  }

  /** A YouTube playlist URL returns the whole playlist, whatever its size
      and the playlist limit, with no note. */
  lemma PlaylistIsNotLimited(query: string, url: ParsedUrl, shouldSplitChapters: bool, playlistLimit: nat, p: Providers)
    requires url.host in YoutubeHosts && HasListParam(url)
    requires p.youtubePlaylist(url.listParam.value, shouldSplitChapters).Returned?
    ensures Lookup(query, Some(url), shouldSplitChapters, playlistLimit, p)
         == Ok(Resolution(p.youtubePlaylist(url.listParam.value, shouldSplitChapters).value, ""))
  {
  }

  // ---------------------------------------------------------------------------
  // The source's imperative rendering

  /** The note as the source builds it, clause by clause with `+=`. */
  lemma StepwiseNote(totalSongs: nat, songsNotFound: nat, playlistLimit: nat)
    ensures var m0 := if totalSongs > playlistLimit then SampleLead + NatToString(playlistLimit) + SampleTail else "";
            var m1 := if totalSongs > playlistLimit && songsNotFound != 0 then m0 + NoteJoiner else m0;
            var m2 := if songsNotFound == 0 then m1
                      else if songsNotFound == 1 then m1 + OneNotFound
                      else m1 + NatToString(songsNotFound) + ManyNotFoundTail;
            m2 == FoundNote(totalSongs, songsNotFound, playlistLimit)
  {
    var sample := SampleClause(totalSongs, playlistLimit);
    if songsNotFound > 1 {
      var n := NatToString(songsNotFound);
      if totalSongs > playlistLimit {
        ConcatAssoc(sample + NoteJoiner, n, ManyNotFoundTail);
      } else {
        ConcatAssoc(sample, n, ManyNotFoundTail);
      }
    }
  }

  /** `getNewSongs` as the source writes it: `newSongs` filled by `push`,
      `foundMsg` built with `+=`, and the `catch` reached through `threw`. */
  method GetNewSongs(query: string, shuffleAdditions: bool, shouldSplitChapters: bool, playlistLimit: nat, resolver: Resolver)
    returns (r: Result<Resolution>)
    ensures r == Resolve(query, shuffleAdditions, shouldSplitChapters, playlistLimit, resolver)
  {
    var p := resolver.providers;
    var newSongs: seq<SongMetadata> := [];
    var foundMsg := "";
    var threw := false;

    var url := resolver.parseUrl(query);
    if url.None? {
      threw := true;
    } else if url.value.host in YoutubeHosts {
      var list := url.value.listParam;
      if list.Some? && list.value != "" {
        var answer := p.youtubePlaylist(list.value, shouldSplitChapters);
        if answer.Returned? {
          newSongs := newSongs + answer.value;
        } else {
          threw := true;
        }
      } else {
        var answer := p.youtubeVideo(url.value.href, shouldSplitChapters);
        if answer.Returned? && answer.value.Some? {
          newSongs := newSongs + answer.value.value;
        } else {
          threw := true;
        }
      }
    } else if url.value.protocol == "spotify:" || url.value.host == "open.spotify.com" {
      var answer := p.spotifySource(query, playlistLimit, shouldSplitChapters);
      if answer.Returned? {
        var a := answer.value;
        if a.totalSongs > playlistLimit {
          foundMsg := "a random sample of " + NatToString(playlistLimit) + " songs was taken";
        }
        if a.totalSongs > playlistLimit && a.songsNotFound != 0 {
          foundMsg := foundMsg + " and ";
        }
        if a.songsNotFound != 0 {
          if a.songsNotFound == 1 {
            foundMsg := foundMsg + "1 song was not found";
          } else {
            foundMsg := foundMsg + NatToString(a.songsNotFound) + " songs were not found";
          }
        }
        StepwiseNote(a.totalSongs, a.songsNotFound, playlistLimit);
        assert foundMsg == FoundNote(a.totalSongs, a.songsNotFound, playlistLimit);
        newSongs := newSongs + a.convertedSongs;
      } else {
        threw := true;
      }
    } else {
      var answer := p.httpLiveStream(query);
      if answer.Returned? && answer.value.Some? {
        newSongs := newSongs + [answer.value.value];
      } else {
        threw := true;
      }
    }

    ghost var attempt := TryUrl(query, url, shouldSplitChapters, playlistLimit, p);
    assert threw <==> attempt.Threw?;
    assert !threw ==> attempt.value == Resolution(newSongs, foundMsg);
    assert threw ==> newSongs == [] && foundMsg == "";

    if threw {
      assert Lookup(query, url, shouldSplitChapters, playlistLimit, p) == Search(query, shouldSplitChapters, p);
      var answer := p.youtubeVideoSearch(query, shouldSplitChapters);
      if answer.Threw? {
        return Err(answer.message);
      } else if answer.value.None? {
        return Err("that doesn't exist");
      }
      newSongs := newSongs + answer.value.value;
      assert newSongs == answer.value.value;
      assert foundMsg == "";
      assert answer == Returned(Some(newSongs));
      assert Search(query, shouldSplitChapters, p) == Ok(Resolution(newSongs, foundMsg));
    }
    assert Lookup(query, url, shouldSplitChapters, playlistLimit, p) == Ok(Resolution(newSongs, foundMsg));

    if |newSongs| == 0 {
      return Err("no songs found");
    }

    r := Ok(Resolution(if shuffleAdditions then Shuffled(newSongs, resolver.shufflePicks) else newSongs, foundMsg));
  }
}
