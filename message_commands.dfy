/** The message-command front end (src/events/message-commands.ts): a chat
    message that starts with "!" and a command name runs that command, and a
    message that is only a song link is queued as if played. */
module MessageCommands {
  import opened Wrappers
  import opened Text
  import opened PlayerState
  import opened AddQueryToQueue

  // ---------------------------------------------------------------------------
  // `escapeRegExp`

  /** The characters that carry meaning in a pattern. */
  predicate IsRegExpSpecial(c: char) {
    c in ".*+?^${}()|[]\\"
  }

  function CountSpecials(s: string): nat {
    if s == [] then 0 else (if IsRegExpSpecial(s[0]) then 1 else 0) + CountSpecials(s[1..])
  }

  /** `escapeRegExp`: every special character gets one backslash in front of
      it; every other character is copied. */
  function EscapeRegExp(s: string): (r: string)
    ensures |r| == |s| + CountSpecials(s)
  {
    if s == [] then []
    else (if IsRegExpSpecial(s[0]) then ['\\', s[0]] else [s[0]]) + EscapeRegExp(s[1..])
  }

  /** Reads a pattern as the text it matches literally: a backslash followed
      by a special character stands for that character, an ordinary
      character for itself. A pattern with a bare special character, or a
      backslash before an ordinary one, is not a literal. */
  function ReadLiteral(p: string): Option<string>
    decreases |p|
  {
    if p == [] then Some([])
    else if p[0] == '\\' then
      if |p| >= 2 && IsRegExpSpecial(p[1]) then
        match ReadLiteral(p[2..])
        case Some(t) => Some([p[1]] + t)
        case None => None
      else None
    else if IsRegExpSpecial(p[0]) then None
    else
      match ReadLiteral(p[1..])
      case Some(t) => Some([p[0]] + t)
      case None => None
  }

  /** Unescaping recovers the input: the escaped text is a pattern matching
      exactly that text. */
  lemma {:induction false} EscapeRegExpRoundTrip(s: string)
    ensures ReadLiteral(EscapeRegExp(s)) == Some(s)
  {
    if s != [] {
      EscapeRegExpRoundTrip(s[1..]);
      var r := EscapeRegExp(s);
      if IsRegExpSpecial(s[0]) {
        assert r[2..] == EscapeRegExp(s[1..]);
      } else {
        assert r[1..] == EscapeRegExp(s[1..]);
      }
      assert [s[0]] + s[1..] == s;
    }
  }

  /** And conversely, escaping is the only literal pattern for a text. */
  lemma {:induction false} ReadLiteralIsEscape(p: string, s: string)
    requires ReadLiteral(p) == Some(s)
    ensures p == EscapeRegExp(s)
    decreases |p|
  {
    if p != [] {
      if p[0] == '\\' {
        ReadLiteralIsEscape(p[2..], s[1..]);
        assert p == ['\\', p[1]] + p[2..];
      } else {
        ReadLiteralIsEscape(p[1..], s[1..]);
        assert p == [p[0]] + p[1..];
      }
    }
  }

  // ---------------------------------------------------------------------------
  // The characters the two patterns care about

  /** `\s`: the white space and line terminator characters of ECMAScript. */
  predicate IsJsWhitespace(c: char) {
    || c == '\t' || c == '\n' || c == '\U{B}' || c == '\U{C}' || c == '\r' || c == ' '
    || c == '\U{A0}' || c == '\U{1680}' || ('\U{2000}' <= c <= '\U{200A}')
    || c == '\U{2028}' || c == '\U{2029}' || c == '\U{202F}' || c == '\U{205F}'
    || c == '\U{3000}' || c == '\U{FEFF}'
  }

  /** The characters `.` does not match without the `s` flag. */
  predicate IsLineTerminator(c: char) {
    c == '\n' || c == '\r' || c == '\U{2028}' || c == '\U{2029}'
  }

  predicate NoLineTerminator(s: string) {
    forall i :: 0 <= i < |s| ==> !IsLineTerminator(s[i])
  }

  predicate AllWhitespace(s: string) {
    forall i :: 0 <= i < |s| ==> IsJsWhitespace(s[i])
  }

  /** How much a greedy `\s*` takes: the length of the longest white space
      prefix of `s`. */
  function LeadingWhitespace(s: string): (n: nat)
    ensures n <= |s| && AllWhitespace(s[..n])
    ensures n == |s| || !IsJsWhitespace(s[n])
  {
    if s != [] && IsJsWhitespace(s[0]) then
      var k := LeadingWhitespace(s[1..]);
      assert s[..k + 1] == [s[0]] + s[1..][..k];
      k + 1
    else 0
  }

  lemma {:induction false} LeadingWhitespaceOf(ws: string, rest: string)
    requires AllWhitespace(ws) && (rest == [] || !IsJsWhitespace(rest[0]))
    ensures LeadingWhitespace(ws + rest) == |ws|
  {
    if ws != [] {
      assert (ws + rest)[1..] == ws[1..] + rest;
      LeadingWhitespaceOf(ws[1..], rest);
    }
  }

  // ---------------------------------------------------------------------------
  // `commandRegExp`

  datatype Command = Skip | Play | BumpPlay | Stop | Shuffle

  const Prefix := "!"

  /** The keys of the handler table, in the order the pattern lists them. */
  const Commands: seq<Command> := [Skip, Play, BumpPlay, Stop, Shuffle]

  function CommandName(c: Command): string {
    match c
    case Skip => "skip"
    case Play => "play"
    case BumpPlay => "bumpplay"
    case Stop => "stop"
    case Shuffle => "shuffle"
  }

  /** No command name is a prefix of another one, so the alternation never
      has to choose between two names. */
  lemma NamesPrefixFree(c: Command, other: Command, t: string)
    requires c != other
    ensures StripPrefix(CommandName(other), CommandName(c) + t) == None
  {
    var k := if CommandName(c)[0] != CommandName(other)[0] then 0 else 1;
    StripPrefixMismatch(CommandName(other), CommandName(c) + t, k);
  }

  datatype NameMatch = NameMatch(command: Command, rest: string)

  /** The alternation: the first of `cs` whose name `s` starts with. */
  function MatchName(cs: seq<Command>, s: string): (r: Option<NameMatch>)
    ensures r.Some? ==> r.value.command in cs && s == CommandName(r.value.command) + r.value.rest
  {
    if cs == [] then None
    else
      match StripPrefix(CommandName(cs[0]), s)
      case Some(rest) => Some(NameMatch(cs[0], rest))
      case None => MatchName(cs[1..], s)
  }

  lemma {:induction false} MatchNameOf(cs: seq<Command>, c: Command, t: string)
    requires c in cs
    ensures MatchName(cs, CommandName(c) + t) == Some(NameMatch(c, t))
  {
    if cs[0] == c {
      StripPrefixOfConcat(CommandName(c), t);
    } else {
      NamesPrefixFree(c, cs[0], t);
      MatchNameOf(cs[1..], c, t);
    }
  }

  /** The two named groups of a match. */
  datatype CommandMatch = CommandMatch(command: Command, query: string)

  /** `content.match(commandRegExp)`: "!", a command name, as much white
      space as there is, and the rest of the content as the query, which
      must hold no line terminator. */
  function ParseCommand(content: string): (r: Option<CommandMatch>)
    ensures r.Some? ==> Prefix + CommandName(r.value.command) <= content
    ensures r.Some? ==> NoLineTerminator(r.value.query) && (r.value.query == [] || !IsJsWhitespace(r.value.query[0]))
  {
    match StripPrefix(Prefix, content)
    case None => None
    case Some(afterPrefix) =>
      match MatchName(Commands, afterPrefix)
      case None => None
      case Some(m) =>
        var query := m.rest[LeadingWhitespace(m.rest)..];
        if NoLineTerminator(query) then Some(CommandMatch(m.command, query)) else None
  }

  /** A match is "!", the command's name, white space only, and the query
    up to the end of the message. */
  lemma ParseCommandShape(content: string)
    requires ParseCommand(content).Some?
    ensures var m := ParseCommand(content).value;
            var head := Prefix + CommandName(m.command);
      && |head| + |m.query| <= |content|
      && content == head + content[|head|..|content| - |m.query|] + m.query
      && AllWhitespace(content[|head|..|content| - |m.query|])
  {
    var afterPrefix := StripPrefix(Prefix, content).value;
    var nm := MatchName(Commands, afterPrefix).value;
    var head := Prefix + CommandName(nm.command);
    var query := nm.rest[LeadingWhitespace(nm.rest)..];
    assert content == Prefix + (CommandName(nm.command) + nm.rest);
    ConcatAssoc(Prefix, CommandName(nm.command), nm.rest);
    assert content == head + nm.rest;
    var gap := nm.rest[..LeadingWhitespace(nm.rest)];
    assert nm.rest == gap + query;
    ConcatAssoc(head, gap, query);
    assert content[|head|..|content| - |query|] == gap;
  }

  /** Every message of the command's shape parses, with the text after the
      white space as its query, exactly when that text is on one line. With
      the shape `ParseCommand` promises of each match, this pins the pattern
      down completely. */
  lemma ParseCommandOf(c: Command, ws: string, query: string)
    requires AllWhitespace(ws) && (query == [] || !IsJsWhitespace(query[0]))
    ensures ParseCommand(Prefix + CommandName(c) + ws + query)
         == if NoLineTerminator(query) then Some(CommandMatch(c, query)) else None
  {
    var name := CommandName(c);
    ConcatAssoc(Prefix + name, ws, query);
    ConcatAssoc(Prefix, name, ws + query);
    StripPrefixOfConcat(Prefix, name + (ws + query));
    MatchNameOf(Commands, c, ws + query);
    LeadingWhitespaceOf(ws, query);
    DropPrefix(ws, query);
  }

  /** No separator is needed after the name: "!playlist x" is `play` with
      the query "list x". */
  lemma PlaylistIsPlay()
    ensures ParseCommand("!playlist x") == Some(CommandMatch(Play, "list x"))
  {
    ParseCommandOf(Play, "", "list x");
    assert Prefix + CommandName(Play) + "" + "list x" == "!playlist x";
  }

  /** `\s*` also swallows line breaks: a command name on one line and its
      query on the next still match. */
  lemma LineBreakBeforeQuery(c: Command, query: string)
    requires query != [] && !IsJsWhitespace(query[0]) && NoLineTerminator(query)
    ensures ParseCommand(Prefix + CommandName(c) + "\n" + query) == Some(CommandMatch(c, query))
  {
    ParseCommandOf(c, "\n", query);
  }

  /** The query itself must stay on one line. */
  lemma LineBreakInQuery()
    ensures ParseCommand("!play a\nb") == None
  {
    ParseCommandOf(Play, " ", "a\nb");
    assert Prefix + CommandName(Play) + " " + "a\nb" == "!play a\nb";
    assert IsLineTerminator("a\nb"[1]);
  }

  // ---------------------------------------------------------------------------
  // `urlRegExp`

  const UrlScheme := "https://"

  /** `SONG_URLS`. */
  const SongUrlHosts: seq<string> := ["www.youtube.com", "youtu.be", "youtube.com", "open.spotify.com"]

  /** No host is a prefix of another one. */
  lemma HostsPrefixFree(h: string, other: string, t: string)
    requires h in SongUrlHosts && other in SongUrlHosts && h != other
    ensures StripPrefix(other, h + t) == None
  {
    var k := if h[0] != other[0] then 0 else 5;
    StripPrefixMismatch(other, h + t, k);
  }

  datatype HostMatch = HostMatch(host: string, rest: string)

  /** The host alternation: the first of `hosts` that `s` starts with. */
  function MatchHost(hosts: seq<string>, s: string): (r: Option<HostMatch>)
    ensures r.Some? ==> r.value.host in hosts && s == r.value.host + r.value.rest
  {
    if hosts == [] then None
    else
      match StripPrefix(hosts[0], s)
      case Some(rest) => Some(HostMatch(hosts[0], rest))
      case None => MatchHost(hosts[1..], s)
  }

  lemma {:induction false} MatchHostOf(hosts: seq<string>, h: string, t: string)
    requires h in hosts
    requires forall other :: other in hosts ==> other in SongUrlHosts
    ensures MatchHost(hosts, h + t) == Some(HostMatch(h, t))
  {
    if hosts[0] == h {
      StripPrefixOfConcat(h, t);
    } else {
      HostsPrefixFree(h, hosts[0], t);
      MatchHostOf(hosts[1..], h, t);
    }
  }

  /** `content.match(urlRegExp)`, giving the `host` group: "https://", one of
      the song hosts, then anything on the same line. */
  function SongUrlHost(content: string): (r: Option<string>)
    ensures r.Some? ==>
      && r.value in SongUrlHosts
      && UrlScheme + r.value <= content
      && NoLineTerminator(content[|UrlScheme + r.value|..])
  {
    match StripPrefix(UrlScheme, content)
    case None => None
    case Some(afterScheme) =>
      match MatchHost(SongUrlHosts, afterScheme)
      case None => None
      case Some(m) => if NoLineTerminator(m.rest) then Some(m.host) else None
  }

  /** A song host after "https://" makes a song link exactly when the rest
      is on one line; nothing at all need follow the host. */
  lemma SongUrlOf(h: string, rest: string)
    requires h in SongUrlHosts
    ensures SongUrlHost(UrlScheme + h + rest) == if NoLineTerminator(rest) then Some(h) else None
  {
    ConcatAssoc(UrlScheme, h, rest);
    StripPrefixOfConcat(UrlScheme, h + rest);
    MatchHostOf(SongUrlHosts, h, rest);
  }

  /** `music.youtube.com` is not one of the hosts. */
  lemma MusicHostIsNotASongUrl(path: string)
    ensures SongUrlHost(UrlScheme + ("music.youtube.com" + path)) == None
  {
    var afterScheme := "music.youtube.com" + path;
    StripPrefixOfConcat(UrlScheme, afterScheme);
    assert afterScheme[0] == 'm';
    StripPrefixMismatch("www.youtube.com", afterScheme, 0);
    StripPrefixMismatch("youtu.be", afterScheme, 0);
    StripPrefixMismatch("youtube.com", afterScheme, 0);
    StripPrefixMismatch("open.spotify.com", afterScheme, 0);
  }

  /** The host is not delimited: a longer host that starts with a song host
      is taken for it. */
  lemma LookalikeHost()
    ensures SongUrlHost("https://" + "youtube.com" + ".example.org/") == Some("youtube.com")
  {
    SongUrlOf("youtube.com", ".example.org/");
  }

  /** A song link never parses as a command, so the order in which the
      dispatcher tries the two patterns never matters. */
  lemma SongUrlIsNotACommand(content: string)
    requires SongUrlHost(content).Some?
    ensures ParseCommand(content).None?
  {
    StripPrefixMismatch(Prefix, content, 0);
  }

  // ---------------------------------------------------------------------------
  // The dispatcher

  datatype Action = Ignore | RunCommand(command: Command, query: string) | EnqueueLink(link: string)

  /** What the default export decides to do with a message: nothing without
      a guild; otherwise a command first, then a bare song link. */
  function Dispatch(hasGuild: bool, content: string): (a: Action)
    ensures !hasGuild ==> a == Ignore
    ensures a.RunCommand? <==> hasGuild && ParseCommand(content).Some?
    ensures a.RunCommand? ==> ParseCommand(content) == Some(CommandMatch(a.command, a.query))
    ensures a.EnqueueLink? <==> hasGuild && ParseCommand(content).None? && SongUrlHost(content).Some?
    ensures a.EnqueueLink? ==> a.link == content
  {
    if !hasGuild then Ignore
    else
      match ParseCommand(content)
      case Some(m) => RunCommand(m.command, m.query)
      case None => if SongUrlHost(content).Some? then EnqueueLink(content) else Ignore
  }

  /** The options passed to `addToQueueFromMessage`: `play` and a bare link
      add to the back, `bumpplay` to the front, and neither shuffles nor
      splits chapters. The other commands do not queue anything. */
  function QueueRequest(a: Action): (r: Option<QueueOptions>)
    ensures r.Some? <==> a.EnqueueLink? || (a.RunCommand? && (a.command == Play || a.command == BumpPlay))
    ensures r.Some? ==> r.value.query == (if a.EnqueueLink? then a.link else a.query)
    ensures r.Some? ==> (r.value.addToFrontOfQueue <==> a.RunCommand? && a.command == BumpPlay)
    ensures r.Some? ==> !r.value.shuffleAdditions && !r.value.shouldSplitChapters
  {
    match a
    case RunCommand(Play, query) => Some(QueueOptions(query, false, false, false))
    case RunCommand(BumpPlay, query) => Some(QueueOptions(query, true, false, false))
    case EnqueueLink(link) => Some(QueueOptions(link, false, false, false))
    case _ => None
  }

  /** `play` and `bumpplay` differ only in where the songs go. */
  lemma PlayAndBumpPlay(query: string)
    ensures var play := QueueRequest(RunCommand(Play, query));
            var bump := QueueRequest(RunCommand(BumpPlay, query));
      && play.Some? && bump.Some?
      && play.value == bump.value.(addToFrontOfQueue := false)
      && !play.value.addToFrontOfQueue && bump.value.addToFrontOfQueue
      && !bump.value.shuffleAdditions && !bump.value.shouldSplitChapters
  {
  }

  /** A bare song link in a guild queues the whole message at the back. */
  lemma LinkIsQueued(h: string, rest: string)
    requires h in SongUrlHosts && NoLineTerminator(rest)
    ensures Dispatch(true, UrlScheme + h + rest) == EnqueueLink(UrlScheme + h + rest)
    ensures QueueRequest(Dispatch(true, UrlScheme + h + rest)) == Some(QueueOptions(UrlScheme + h + rest, false, false, false))
  {
    SongUrlOf(h, rest);
    SongUrlIsNotACommand(UrlScheme + h + rest);
  }

  // ---------------------------------------------------------------------------
  // The handlers that act on the player directly

  const NotConnectedReply := "not connected"
  const NotPlayingReply := "currently playing"
  const StoppedReply := "stopped"
  const NothingToShuffleReply := "not enough songs to shuffle"
  const ShuffledReply := "shuffled"
  const SkippingReply := "skipping"
  const NothingToSkipReply := "no songs to skip"

  /** The reply of `stop`: it says "stopped" exactly when the player is
      connected and playing. The wording for a connected player that is not
      playing is the source's own. */
  function StopReply(v: PlayerView): (r: string)
    ensures r == StoppedReply <==> v.connected && v.status == Playing
    ensures r == NotConnectedReply <==> !v.connected
  {
    if !v.connected then NotConnectedReply
    else if v.status != Playing then NotPlayingReply
    else StoppedReply
  }

  /** `stop`: only a connected, playing player is stopped. */
  method StopHandler(player: Player) returns (reply: string)
    requires player.Valid()
    modifies player
    ensures player.Valid()
    ensures reply == StopReply(old(player.View()))
    ensures reply != StoppedReply ==> unchanged(player)
    ensures reply == StoppedReply ==>
      && player.calls == old(player.calls) + [StopCall]
      && player.status == Idle && !player.hasCurrent
      && player.voiceConnection == old(player.voiceConnection) && player.upcoming == old(player.upcoming)
  {
    if player.voiceConnection.None? {
      return NotConnectedReply;
    }
    if player.status != Playing {
      return NotPlayingReply;
    }
    player.Stop();
    reply := StoppedReply;
  }

  /** `shuffle`: only a non-empty queue is shuffled. */
  method ShuffleHandler(player: Player) returns (reply: string)
    requires player.Valid()
    modifies player
    ensures player.Valid()
    ensures reply == if old(player.IsQueueEmpty()) then NothingToShuffleReply else ShuffledReply
    ensures old(player.IsQueueEmpty()) ==> unchanged(player)
    ensures !old(player.IsQueueEmpty()) ==>
      && player.calls == old(player.calls) + [ShuffleCall]
      && player.View() == old(player.View()) && player.upcoming == old(player.upcoming)
  {
    if player.IsQueueEmpty() {
      return NothingToShuffleReply;
    }
    player.Shuffle();
    reply := ShuffledReply;
  }

  /** `skip`: move on by one song. Skipping works exactly when a song was
      current, and the reply carries the now-playing embed exactly when
      another song followed it. */
  method SkipHandler(player: Player) returns (reply: string, embeds: nat)
    requires player.Valid()
    modifies player
    ensures player.Valid()
    ensures player.calls == old(player.calls) + [ForwardCall(1)]
    ensures reply == (if old(player.hasCurrent) then SkippingReply else NothingToSkipReply)
    ensures embeds == if old(player.hasCurrent) && old(player.upcoming) > 0 then 1 else 0
    ensures player.voiceConnection == old(player.voiceConnection)
    ensures !old(player.hasCurrent) ==> player.View() == old(player.View()) && player.upcoming == old(player.upcoming)
    ensures old(player.hasCurrent) ==>
      && player.Pending() == old(player.Pending()) - 1
      && (player.hasCurrent <==> old(player.upcoming) > 0)
      && player.status == (if player.hasCurrent then old(player.status) else Idle)
  {
    var ok := player.Forward(1);
    if ok {
      reply := SkippingReply;
      embeds := if player.hasCurrent then 1 else 0;
    } else {
      reply := NothingToSkipReply;
      embeds := 0;
    }
  }

  // ---------------------------------------------------------------------------
  // The default export

  /** What came of a message: nothing, a direct reply from a handler, or the
      result of queueing songs. */
  datatype Outcome = NoReply | Replied(content: string, embeds: nat) | Queued(result: Result<Reply>)

  /** The default export, given the guild's player and the message's parts.
      The player is looked up only for a message with a guild. */
  method OnMessage(player: Player, inbound: Inbound, content: string, env: Environment) returns (outcome: Outcome)
    requires player.Valid()
    modifies player
    ensures player.Valid()
    ensures var a := Dispatch(inbound.guild.Some?, content);
      a == Ignore ==> outcome == NoReply && unchanged(player)
    ensures var a := Dispatch(inbound.guild.Some?, content);
      a.RunCommand? && a.command == Stop ==>
        && outcome == Replied(StopReply(old(player.View())), 0)
        && (outcome.content != StoppedReply ==> unchanged(player))
        && (outcome.content == StoppedReply ==>
              && player.calls == old(player.calls) + [StopCall]
              && player.status == Idle && !player.hasCurrent
              && player.voiceConnection == old(player.voiceConnection) && player.upcoming == old(player.upcoming))
    ensures var a := Dispatch(inbound.guild.Some?, content);
      a.RunCommand? && a.command == Shuffle ==>
        && outcome == Replied(if old(player.IsQueueEmpty()) then NothingToShuffleReply else ShuffledReply, 0)
        && (old(player.IsQueueEmpty()) ==> unchanged(player))
        && (!old(player.IsQueueEmpty()) ==>
              && player.calls == old(player.calls) + [ShuffleCall]
              && player.View() == old(player.View()) && player.upcoming == old(player.upcoming))
    ensures var a := Dispatch(inbound.guild.Some?, content);
      a.RunCommand? && a.command == Skip ==>
        && outcome == Replied(if old(player.hasCurrent) then SkippingReply else NothingToSkipReply,
                              if old(player.hasCurrent) && old(player.upcoming) > 0 then 1 else 0)
        && player.calls == old(player.calls) + [ForwardCall(1)]
        && player.voiceConnection == old(player.voiceConnection)
        && (!old(player.hasCurrent) ==> player.View() == old(player.View()) && player.upcoming == old(player.upcoming))
        && (old(player.hasCurrent) ==>
              && player.Pending() == old(player.Pending()) - 1
              && (player.hasCurrent <==> old(player.upcoming) > 0)
              && player.status == (if player.hasCurrent then old(player.status) else Idle))
    ensures var a := Dispatch(inbound.guild.Some?, content);
      QueueRequest(a).Some? ==>
        var plan := AddToQueueFromPlan(FromMessage, old(player.View()), inbound, QueueRequest(a).value, env);
        && outcome == Queued(if plan.Ok? then Ok(plan.value.reply) else Err(plan.error))
        && (plan.Err? ==> unchanged(player))
        && (plan.Ok? ==>
              && player.calls == old(player.calls) + plan.value.calls
              && player.Pending() == old(player.Pending()) + plan.value.added
              && player.voiceConnection == (if old(player.voiceConnection).None? then Some(TargetChannel(env)) else old(player.voiceConnection))
              && player.status == (if old(player.status) == Paused then Paused else Playing)
              && player.hasCurrent)
  {
    var action := Dispatch(inbound.guild.Some?, content);
    match action
    case Ignore =>
      outcome := NoReply;
    case RunCommand(command, query) =>
      match command {
      case Skip =>
        var reply, embeds := SkipHandler(player);
        outcome := Replied(reply, embeds);
      case Play =>
        var r := AddToQueueFrom(FromMessage, player, inbound, QueueOptions(query, false, false, false), env);
        outcome := Queued(r);
      case BumpPlay =>
        var r := AddToQueueFrom(FromMessage, player, inbound, QueueOptions(query, true, false, false), env);
        outcome := Queued(r);
      case Stop =>
        var reply := StopHandler(player);
        outcome := Replied(reply, 0);
      case Shuffle =>
        var reply := ShuffleHandler(player);
        outcome := Replied(reply, 0);
      }
    case EnqueueLink(link) =>
      var r := AddToQueueFrom(FromMessage, player, inbound, QueueOptions(link, false, false, false), env);
      outcome := Queued(r);
  }
}
