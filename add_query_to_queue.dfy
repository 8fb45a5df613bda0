/** `AddQueryToQueue.addToQueue`: resolve the query, hand every song to the
    player, start playback when the player is idle or disconnected, and
    compose the reply. */
module AddQueryToQueue {
  import opened Wrappers
  import opened Text
  import opened Songs
  import opened PlayerState
  import opened SongResolution

  datatype QueueOptions = QueueOptions(
    query: string,
    addToFrontOfQueue: bool,
    shuffleAdditions: bool,
    shouldSplitChapters: bool)

  /** Who asked and where: `member.user.id` and `channel.id`. The guild only
      selects the player, which callers pass in directly. */
  datatype Requester = Requester(memberId: string, textChannelId: ChannelId)

  /** What `addToQueue` learns from outside the core: the resolver's inputs,
      the guild's `playlistLimit`, the member's voice channel (if any) and the
      guild's most popular voice channel. */
  datatype Environment = Environment(
    resolver: Resolver,
    playlistLimit: nat,
    memberVoiceChannel: Option<ChannelId>,
    mostPopularVoiceChannel: ChannelId)

  /** The reply: how many "now playing" embeds, and the text. */
  datatype Reply = Reply(embeds: nat, message: string)

  /** The calls made on the player, in order, the reply, and how many songs
      were added. */
  datatype Plan = Plan(calls: seq<Call>, reply: Reply, added: nat)

  const ResumingMessage := "resuming playback"

  // ---------------------------------------------------------------------------
  // The reply text

  function Bold(s: string): string {
    "**" + s + "**"
  }

  /** The singular template with and without " front of the". */
  const SingleFrontClause := " added to the front of the queue"
  const SingleClause := " added to the queue"
  /** The plural template, around the count of the other songs. */
  const ManyLead := " and "
  const ManyTail := " other songs were added to the queue"

  /** `getMessage`: the first title in bold, then the singular wording (which
      alone mentions the front of the queue) or the plural wording with the
      count of the other songs, then the extra note. */
  function GetMessage(newSongs: seq<SongMetadata>, addToFrontOfQueue: bool, extraMsg: string): (m: string)
    requires |newSongs| > 0
    ensures Bold(newSongs[0].title) <= m
    ensures EndsWith(m, extraMsg)
  {
    Bold(newSongs[0].title)
    + if |newSongs| == 1 then (if addToFrontOfQueue then SingleFrontClause else SingleClause) + extraMsg
      else ManyLead + NatToString(|newSongs| - 1) + ManyTail + extraMsg
  }

  /** What the reply tells the user: how many songs were added, whether at
      the front of the queue, and the note that follows. */
  datatype SummaryFacts = SummaryFacts(songCount: nat, atFront: bool, extraMsg: string)

  /** Reads what follows the bold title. */
  function ReadClause(rest: string): Option<SummaryFacts> {
    match StripPrefix(SingleFrontClause, rest)
    case Some(extra) => Some(SummaryFacts(1, true, extra))
    case None =>
      match StripPrefix(SingleClause, rest)
      case Some(extra) => Some(SummaryFacts(1, false, extra))
      case None =>
        match StripPrefix(ManyLead, rest)
        case None => None
        case Some(counted) => ReadCount(counted)
  }

  /** Reads "<n> other songs were added to the queue<note>" as n + 1 songs. */
  function ReadCount(counted: string): Option<SummaryFacts> {
    var d := DigitPrefix(counted);
    match StripPrefix(ManyTail, counted[|d|..])
    case Some(extra) => if d != "" then Some(SummaryFacts(DigitsValue(d) + 1, false, extra)) else None
    case None => None
  }

  function ReadSummary(firstTitle: string, m: string): Option<SummaryFacts> {
    match StripPrefix(Bold(firstTitle), m)
    case Some(rest) => ReadClause(rest)
    case None => None
  }

  lemma ReadSingleClause(addToFrontOfQueue: bool, extraMsg: string)
    ensures ReadClause((if addToFrontOfQueue then SingleFrontClause else SingleClause) + extraMsg)
         == Some(SummaryFacts(1, addToFrontOfQueue, extraMsg))
  {
    if addToFrontOfQueue {
      StripPrefixOfConcat(SingleFrontClause, extraMsg);
    } else {
      StripPrefixMismatch(SingleFrontClause, SingleClause + extraMsg, 14);
      StripPrefixOfConcat(SingleClause, extraMsg);
    }
  }

  lemma ReadCountOf(others: nat, extraMsg: string)
    ensures ReadCount(NatToString(others) + (ManyTail + extraMsg)) == Some(SummaryFacts(others + 1, false, extraMsg))
  {
    var d := NatToString(others);
    var counted := d + (ManyTail + extraMsg);
    DigitPrefixOfDigits(d, ManyTail + extraMsg);
    assert counted[|d|..] == ManyTail + extraMsg;
    StripPrefixOfConcat(ManyTail, extraMsg);
    NatToStringRoundTrip(others);
  }

  lemma ReadManyClause(others: nat, extraMsg: string)
    ensures ReadClause(ManyLead + NatToString(others) + ManyTail + extraMsg)
         == Some(SummaryFacts(others + 1, false, extraMsg))
  {
    var counted := NatToString(others) + (ManyTail + extraMsg);
    var rest := ManyLead + counted;
    assert ManyLead + NatToString(others) + ManyTail + extraMsg == rest;
    StripPrefixMismatch(SingleFrontClause, rest, 2);
    StripPrefixMismatch(SingleClause, rest, 2);
    StripPrefixOfConcat(ManyLead, counted);
    ReadCountOf(others, extraMsg);
  }

  lemma ReadAfterTitle(title: string, rest: string)
    ensures ReadSummary(title, Bold(title) + rest) == ReadClause(rest)
  {
    StripPrefixOfConcat(Bold(title), rest);
  }

  /** The reply states the number of songs added, says "front of the" exactly
      for a single song added to the front, and ends with the note. */
  lemma {:induction false} GetMessageRoundTrip(newSongs: seq<SongMetadata>, addToFrontOfQueue: bool, extraMsg: string)
    requires |newSongs| > 0
    ensures ReadSummary(newSongs[0].title, GetMessage(newSongs, addToFrontOfQueue, extraMsg))
         == Some(SummaryFacts(|newSongs|, addToFrontOfQueue && |newSongs| == 1, extraMsg))
  {
    var title := newSongs[0].title;
    var m := GetMessage(newSongs, addToFrontOfQueue, extraMsg);
    if |newSongs| == 1 {
      var rest := (if addToFrontOfQueue then SingleFrontClause else SingleClause) + extraMsg;
      ReadAfterTitle(title, rest);
      ReadSingleClause(addToFrontOfQueue, extraMsg);
    } else {
      var rest := ManyLead + NatToString(|newSongs| - 1) + ManyTail + extraMsg;
      ReadAfterTitle(title, rest);
      ReadManyClause(|newSongs| - 1, extraMsg);
    }
  }

  /** The two notes joined by ", " when both are present. */
  function JoinNotes(statusMsg: string, foundMsg: string): string {
    if statusMsg == "" then foundMsg
    else if foundMsg == "" then statusMsg
    else statusMsg + ", " + foundMsg
  }

  /** The extra note: the joined notes in parentheses after a space, or
      nothing at all when there is no note. */
  function ExtraMsg(statusMsg: string, foundMsg: string): (e: string)
    ensures e == "" <==> statusMsg == "" && foundMsg == ""
    ensures e != "" ==> e == " (" + JoinNotes(statusMsg, foundMsg) + ")"
  {
    var note := JoinNotes(statusMsg, foundMsg);
    if note == "" then "" else " (" + note + ")"
  }

  /** "resuming playback" when the player had no connection but had a current
      song when the request came in. */
  function StatusMsg(before: PlayerView): string {
    if !before.connected && before.hasCurrent then ResumingMessage else ""
  }

  /** The note opens with "resuming playback" exactly when playback is being
      resumed, whatever the resolver's note says. */
  lemma ResumingOnlyOnReconnect(before: PlayerView, foundMsg: string)
    requires foundMsg == "" || foundMsg[0] == 'a' || IsDigit(foundMsg[0])
    ensures " (" + ResumingMessage <= ExtraMsg(StatusMsg(before), foundMsg) <==> !before.connected && before.hasCurrent
  {
    var e := ExtraMsg(StatusMsg(before), foundMsg);
    if !before.connected && before.hasCurrent {
      assert e == " (" + ResumingMessage + (e[|" (" + ResumingMessage|..]);
    } else if e != "" {
      assert e[2] == foundMsg[0];
    }
  }

  // ---------------------------------------------------------------------------
  // The calls made on the player

  /** The song as passed to `player.add`: stamped with the text channel and
      the requesting member, everything else kept. */
  function Stamped(song: SongMetadata, requester: Requester): QueuedSong {
    QueuedSong(song, requester.textChannelId, requester.memberId)
  }

  /** One `add` call per song, in order. */
  function AddCalls(newSongs: seq<SongMetadata>, requester: Requester, immediate: bool): (calls: seq<Call>)
    ensures |calls| == |newSongs|
    ensures forall i :: 0 <= i < |newSongs| ==>
      && calls[i].AddCall? && calls[i].immediate == immediate
      && calls[i].song.metadata == newSongs[i]
      && calls[i].song.addedInChannelId == requester.textChannelId
      && calls[i].song.requestedBy == requester.memberId
    decreases |newSongs|
  {
    if newSongs == [] then []
    else AddCalls(newSongs[..|newSongs| - 1], requester, immediate) + [AddCall(Stamped(newSongs[|newSongs| - 1], requester), immediate)]
  }

  /** `getMemberVoiceChannel(member) ?? getMostPopularVoiceChannel(guild)`. */
  function TargetChannel(env: Environment): (c: ChannelId)
    ensures env.memberVoiceChannel.Some? ==> c == env.memberVoiceChannel.value
    ensures env.memberVoiceChannel.None? ==> c == env.mostPopularVoiceChannel
  {
    env.memberVoiceChannel.GetOr(env.mostPopularVoiceChannel)
  }

  /** No connection: connect, then play. Connected and idle: play. Otherwise
      the new songs wait in the queue. */
  function Transition(before: PlayerView, target: ChannelId): (t: seq<Call>)
    ensures ConnectCall(target) in t <==> !before.connected
    ensures PlayCall in t <==> !before.connected || before.status == Idle
    ensures forall i :: 0 <= i < |t| ==> t[i] == PlayCall || (t[i] == ConnectCall(target) && i + 1 < |t|)
  {
    if !before.connected then [ConnectCall(target), PlayCall]
    else if before.status == Idle then [PlayCall]
    else []
  }

  /** What `addToQueue` does once the songs are resolved, given the player as
      it was when the request came in. */
  function PlanFor(before: PlayerView, requester: Requester, front: bool, target: ChannelId, resolved: Resolution): Plan
    requires |resolved.newSongs| > 0
  {
    Plan(AddCalls(resolved.newSongs, requester, front) + Transition(before, target),
         Reply(if before.connected then 0 else 1,
               GetMessage(resolved.newSongs, front, ExtraMsg(StatusMsg(before), resolved.foundMsg))),
         |resolved.newSongs|)
  }

  /** Everything `addToQueue` does: fail with the resolver's error, or
      follow the plan for the resolved songs. */
  function AddToQueuePlan(before: PlayerView, requester: Requester, options: QueueOptions, env: Environment): Result<Plan> {
    match Resolve(options.query, options.shuffleAdditions, options.shouldSplitChapters, env.playlistLimit, env.resolver)
    case Err(e) => Err(e)
    case Ok(resolved) => Ok(PlanFor(before, requester, options.addToFrontOfQueue, TargetChannel(env), resolved))
  }

  /** Every resolved song is added exactly once, in resolved order, before the
      playback transition; the transition depends only on the player's state
      before the request. */
  lemma PlanCalls(before: PlayerView, requester: Requester, options: QueueOptions, env: Environment)
    requires AddToQueuePlan(before, requester, options, env).Ok?
    ensures var songs := Resolve(options.query, options.shuffleAdditions, options.shouldSplitChapters, env.playlistLimit, env.resolver).value.newSongs;
            var calls := AddToQueuePlan(before, requester, options, env).value.calls;
      && |songs| > 0 && |songs| <= |calls|
      && AddToQueuePlan(before, requester, options, env).value.added == |songs|
      && (forall i :: 0 <= i < |songs| ==> calls[i] == AddCall(Stamped(songs[i], requester), options.addToFrontOfQueue))
      && (forall i :: |songs| <= i < |calls| ==> !calls[i].AddCall?)
      && (!before.connected ==> calls[|songs|..] == [ConnectCall(TargetChannel(env)), PlayCall])
      && (before.connected && before.status == Idle ==> calls[|songs|..] == [PlayCall])
      && (before.connected && before.status != Idle ==> |calls| == |songs|)
  {
  }

  /** The reply says how many songs were added, whether at the front, and
      carries the note; exactly one embed when the player had to connect. */
  lemma {:induction false} PlanReply(before: PlayerView, requester: Requester, options: QueueOptions, env: Environment)
    requires AddToQueuePlan(before, requester, options, env).Ok?
    ensures var resolved := Resolve(options.query, options.shuffleAdditions, options.shouldSplitChapters, env.playlistLimit, env.resolver).value;
            var reply := AddToQueuePlan(before, requester, options, env).value.reply;
      && ReadSummary(resolved.newSongs[0].title, reply.message)
         == Some(SummaryFacts(|resolved.newSongs|, options.addToFrontOfQueue && |resolved.newSongs| == 1,
                              ExtraMsg(StatusMsg(before), resolved.foundMsg)))
      && (reply.embeds == 1 <==> !before.connected) && reply.embeds <= 1
  {
    var resolved := Resolve(options.query, options.shuffleAdditions, options.shouldSplitChapters, env.playlistLimit, env.resolver).value;
    GetMessageRoundTrip(resolved.newSongs, options.addToFrontOfQueue, ExtraMsg(StatusMsg(before), resolved.foundMsg));
  }

  // ---------------------------------------------------------------------------
  // The source's imperative rendering

  /** `newSongs.forEach(song => player.add(...))`: one `add` per song, in
      order, each stamped with the requester. */
  method AddEach(player: Player, newSongs: seq<SongMetadata>, requester: Requester, immediate: bool)
    requires player.Valid()
    modifies player
    ensures player.Valid()
    ensures player.calls == old(player.calls) + AddCalls(newSongs, requester, immediate)
    ensures player.voiceConnection == old(player.voiceConnection) && player.status == old(player.status)
    ensures player.Pending() == old(player.Pending()) + |newSongs|
    ensures old(player.hasCurrent) ==> player.hasCurrent
  {
    for i := 0 to |newSongs|
      invariant player.Valid()
      invariant player.calls == old(player.calls) + AddCalls(newSongs[..i], requester, immediate)
      invariant player.voiceConnection == old(player.voiceConnection) && player.status == old(player.status)
      invariant player.Pending() == old(player.Pending()) + i
      invariant old(player.hasCurrent) ==> player.hasCurrent
    {
      assert newSongs[..i + 1][..i] == newSongs[..i];
      player.Add(QueuedSong(newSongs[i], requester.textChannelId, requester.memberId), immediate);
    }
    assert newSongs[..|newSongs|] == newSongs;
  }

  /** The reply's note as `addToQueue` builds it: the status message first,
      then the resolver's note, then the parentheses. */
  method ComposeExtraMsg(statusMsg: string, foundMsg: string) returns (extraMsg: string)
    ensures extraMsg == ExtraMsg(statusMsg, foundMsg)
  {
    extraMsg := foundMsg;
    if statusMsg != "" {
      if extraMsg == "" {
        extraMsg := statusMsg;
      } else {
        extraMsg := statusMsg + ", " + extraMsg;
      }
    }
    if extraMsg != "" {
      extraMsg := " (" + extraMsg + ")";
    }
  }

  /** Starting playback once the songs are added: with no connection,
      connect to the target channel and play, reporting "resuming playback"
      when a song was current before the request; connected but idle, play;
      otherwise leave playback alone. Nothing queued is lost. */
  method StartPlayback(player: Player, target: ChannelId, ghost before: PlayerView, wasPlayingSong: bool)
    returns (statusMsg: string, embeds: nat)
    requires player.Valid() && player.Pending() > 0
    requires before.connected == player.voiceConnection.Some? && before.status == player.status
    requires before.hasCurrent == wasPlayingSong
    modifies player
    ensures player.Valid()
    ensures player.calls == old(player.calls) + Transition(before, target)
    ensures statusMsg == StatusMsg(before)
    ensures embeds == if before.connected then 0 else 1
    ensures player.voiceConnection == (if old(player.voiceConnection).None? then Some(target) else old(player.voiceConnection))
    ensures player.status == (if old(player.status) == Paused then Paused else Playing)
    ensures player.hasCurrent
    ensures player.Pending() == old(player.Pending())
  {
    statusMsg := "";
    embeds := 0;
    if player.voiceConnection.None? {
      player.Connect(target);
      player.Play();
      if wasPlayingSong {
        statusMsg := ResumingMessage;
      }
      embeds := embeds + 1;
    } else if player.status == Idle {
      player.Play();
    }
  }

  /** The part of `addToQueue` after resolution: add every song, start
      playback if needed, and build the reply. */
  method AddResolved(player: Player, requester: Requester, front: bool, target: ChannelId, resolved: Resolution, wasPlayingSong: bool)
    returns (reply: Reply)
    requires player.Valid() && |resolved.newSongs| > 0 && wasPlayingSong == player.hasCurrent
    modifies player
    ensures player.Valid()
    ensures reply == PlanFor(old(player.View()), requester, front, target, resolved).reply
    ensures player.calls == old(player.calls) + PlanFor(old(player.View()), requester, front, target, resolved).calls
    ensures player.voiceConnection == (if old(player.voiceConnection).None? then Some(target) else old(player.voiceConnection))
    ensures player.status == (if old(player.status) == Paused then Paused else Playing)
    ensures player.hasCurrent
    ensures player.Pending() == old(player.Pending()) + |resolved.newSongs|
  {
    ghost var before := player.View();
    var newSongs := resolved.newSongs;
    AddEach(player, newSongs, requester, front);
    var statusMsg, embeds := StartPlayback(player, target, before, wasPlayingSong);
    ConcatAssoc(old(player.calls), AddCalls(newSongs, requester, front), Transition(before, target));
    var extraMsg := ComposeExtraMsg(statusMsg, resolved.foundMsg);
    reply := Reply(embeds, GetMessage(newSongs, front, extraMsg));
  }

  /** `addToQueue`. Whether a song was current is sampled before anything is
      resolved or added. A failed resolution leaves the player untouched. */
  method AddToQueue(player: Player, requester: Requester, options: QueueOptions, env: Environment) returns (r: Result<Reply>)
    requires player.Valid()
    modifies player
    ensures player.Valid()
    ensures var plan := AddToQueuePlan(old(player.View()), requester, options, env);
      && (plan.Err? ==> r == Err(plan.error) && unchanged(player))
      && (plan.Ok? ==> r == Ok(plan.value.reply) && player.calls == old(player.calls) + plan.value.calls)
      && (plan.Ok? ==> player.Pending() == old(player.Pending()) + plan.value.added)
    ensures r.Ok? ==>
      && player.voiceConnection == (if old(player.voiceConnection).None? then Some(TargetChannel(env)) else old(player.voiceConnection))
      && player.status == (if old(player.status) == Paused then Paused else Playing)
      && player.hasCurrent
  {
    var wasPlayingSong := player.hasCurrent;
    var targetVoiceChannel := env.memberVoiceChannel.GetOr(env.mostPopularVoiceChannel);
    var resolved := GetNewSongs(options.query, options.shuffleAdditions, options.shouldSplitChapters, env.playlistLimit, env.resolver);
    if resolved.Err? {
      return Err(resolved.error);
    }
    var reply := AddResolved(player, requester, options.addToFrontOfQueue, targetVoiceChannel, resolved.value, wasPlayingSong);
    r := Ok(reply);
  }

  // ---------------------------------------------------------------------------
  // Entry points: only their guards are modelled

  datatype Origin = FromInteraction | FromMessage

  /** The optional parts of an incoming interaction or message: its guild,
      the member's user id and the text channel. */
  datatype Inbound = Inbound(guild: Option<string>, member: Option<string>, channel: Option<ChannelId>)

  function OriginName(origin: Origin): string {
    match origin
    case FromInteraction => "interaction"
    case FromMessage => "message"
  }

  /** The error a guard reports for a missing part, e.g.
      "message.member is null". */
  function NullError(origin: Origin, part: string): string {
    OriginName(origin) + "." + part + " is null"
  }

  /** The null guards of `addToQueueFromInteraction` and
      `addToQueueFromMessage`: guild, then member, then channel; the error
      names the first one missing. */
  function RequireContext(origin: Origin, inbound: Inbound): (r: Result<Requester>)
    ensures r.Ok? <==> inbound.guild.Some? && inbound.member.Some? && inbound.channel.Some?
    ensures r.Ok? ==> r.value == Requester(inbound.member.value, inbound.channel.value)
    ensures inbound.guild.None? ==> r == Err(NullError(origin, "guild"))
    ensures inbound.guild.Some? && inbound.member.None? ==> r == Err(NullError(origin, "member"))
    ensures inbound.guild.Some? && inbound.member.Some? && inbound.channel.None? ==> r == Err(NullError(origin, "channel"))
  {
    if inbound.guild.None? then Err(NullError(origin, "guild"))
    else if inbound.member.None? then Err(NullError(origin, "member"))
    else if inbound.channel.None? then Err(NullError(origin, "channel"))
    else Ok(Requester(inbound.member.value, inbound.channel.value))
  }

  /** Everything an entry point does: fail with the guard's error, or follow
      the plan of `addToQueue`. */
  function AddToQueueFromPlan(origin: Origin, before: PlayerView, inbound: Inbound, options: QueueOptions, env: Environment)
    : Result<Plan>
  {
    match RequireContext(origin, inbound)
    case Err(e) => Err(e)
    case Ok(requester) => AddToQueuePlan(before, requester, options, env)
  }

  /** `addToQueueFromInteraction` / `addToQueueFromMessage` without their
      transport: the guards, then `addToQueue`. Nothing reaches the player
      unless the guards pass and the songs resolve. */
  method AddToQueueFrom(origin: Origin, player: Player, inbound: Inbound, options: QueueOptions, env: Environment)
    returns (r: Result<Reply>)
    requires player.Valid()
    modifies player
    ensures player.Valid()
    ensures var plan := AddToQueueFromPlan(origin, old(player.View()), inbound, options, env);
      && (plan.Err? ==> r == Err(plan.error) && unchanged(player))
      && (plan.Ok? ==> r == Ok(plan.value.reply) && player.calls == old(player.calls) + plan.value.calls)
      && (plan.Ok? ==> player.Pending() == old(player.Pending()) + plan.value.added)
    ensures r.Ok? ==>
      && player.voiceConnection == (if old(player.voiceConnection).None? then Some(TargetChannel(env)) else old(player.voiceConnection))
      && player.status == (if old(player.status) == Paused then Paused else Playing)
      && player.hasCurrent
  {
    var requester := RequireContext(origin, inbound);
    if requester.Err? {
      return Err(requester.error);
    }
    r := AddToQueue(player, requester.value, options, env);
  }
}
