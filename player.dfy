/** The per-guild player as the orchestration and the message commands see it.
    Its implementation is not part of this model. Each operation records the
    call in `calls`; `connect` sets the connection, `play` starts a song when
    connected with something pending, `stop` clears the current song,
    `shuffle` reorders without changing what is queued, and `forward` moves
    on by a number of songs or fails. Only whether the current item is null
    is ever observed, so the current item is a flag. */
module PlayerState {
  import opened Wrappers
  import opened Songs

  type ChannelId = string

  datatype Status = Playing | Paused | Idle

  /** One call made on the player, in the order it was made. */
  datatype Call =
    | AddCall(song: QueuedSong, immediate: bool)
    | ConnectCall(channel: ChannelId)
    | PlayCall
    | StopCall
    | ShuffleCall
    | ForwardCall(skip: nat)

  /** The facts the callers branch on: `voiceConnection !== null`, `status`
      and `getCurrent() !== null`. */
  datatype PlayerView = PlayerView(connected: bool, status: Status, hasCurrent: bool)

  class Player {
    var voiceConnection: Option<ChannelId>
    var status: Status
    var hasCurrent: bool
    /** Number of queued songs after the current one. */
    var upcoming: nat
    var calls: seq<Call>

    /** Playing or paused needs a connection and a current item. */
    ghost predicate Valid()
      reads this
    {
      status != Idle ==> voiceConnection.Some? && hasCurrent
    }

    function View(): PlayerView
      reads this
    {
      PlayerView(voiceConnection.Some?, status, hasCurrent)
    }

    /** Songs still to be played, the current one included. */
    function Pending(): nat
      reads this
    {
      (if hasCurrent then 1 else 0) + upcoming
    }

    /** `isQueueEmpty()`: nothing queued after the current song. */
    predicate IsQueueEmpty()
      reads this
    {
      upcoming == 0
    }

    constructor ()
      ensures Valid()
      ensures voiceConnection == None && status == Idle && !hasCurrent
      ensures upcoming == 0 && calls == []
    {
      voiceConnection := None;
      status := Idle;
      hasCurrent := false;
      upcoming := 0;
      calls := [];
    }

    /** `add(song, {immediate})`. Where the song goes, and whether a song added
        while nothing is current becomes the current one, is up to the player;
        callers may rely only on what is stated here. */
    method Add(song: QueuedSong, immediate: bool)
      requires Valid()
      modifies this
      ensures Valid()
      ensures calls == old(calls) + [AddCall(song, immediate)]
      ensures voiceConnection == old(voiceConnection) && status == old(status)
      ensures Pending() == old(Pending()) + 1
      ensures old(hasCurrent) ==> hasCurrent
    {
      upcoming := upcoming + 1;
      calls := calls + [AddCall(song, immediate)];
    }

    method Connect(channel: ChannelId)
      requires Valid()
      modifies this
      ensures Valid()
      ensures calls == old(calls) + [ConnectCall(channel)]
      ensures voiceConnection == Some(channel)
      ensures status == old(status) && hasCurrent == old(hasCurrent) && upcoming == old(upcoming)
    {
      voiceConnection := Some(channel);
      calls := calls + [ConnectCall(channel)];
    }

    /** Starts the current song, or the next queued one when nothing is
        current, provided the player is connected and has something to play. */
    method Play()
      requires Valid()
      modifies this
      ensures Valid()
      ensures calls == old(calls) + [PlayCall]
      ensures voiceConnection == old(voiceConnection)
      ensures if old(voiceConnection).Some? && old(Pending()) > 0
              then status == Playing && hasCurrent && Pending() == old(Pending())
              else status == old(status) && hasCurrent == old(hasCurrent) && upcoming == old(upcoming)
    {
      if voiceConnection.Some? && Pending() > 0 {
        if !hasCurrent {
          hasCurrent := true;
          upcoming := upcoming - 1;
        }
        status := Playing;
      }
      calls := calls + [PlayCall];
    }

    /** Stops playback and clears the current item; the queue is kept. */
    method Stop()
      requires Valid()
      modifies this
      ensures Valid()
      ensures calls == old(calls) + [StopCall]
      ensures status == Idle && !hasCurrent
      ensures voiceConnection == old(voiceConnection) && upcoming == old(upcoming)
    {
      status := Idle;
      hasCurrent := false;
      calls := calls + [StopCall];
    }

    /** Reorders the queued songs; what is queued does not change. */
    method Shuffle()
      requires Valid()
      modifies this
      ensures Valid()
      ensures calls == old(calls) + [ShuffleCall]
      ensures View() == old(View()) && upcoming == old(upcoming)
    {
      calls := calls + [ShuffleCall];
    }

    /** `forward(skip)`: moves `skip` songs on from the current one. It fails
        (the source's promise rejects) when there is no current song or fewer
        songs than that remain; running off the end leaves the player idle. */
    method Forward(skip: nat) returns (ok: bool)
      requires Valid()
      modifies this
      ensures Valid()
      ensures calls == old(calls) + [ForwardCall(skip)]
      ensures voiceConnection == old(voiceConnection)
      ensures ok <==> old(hasCurrent) && skip <= old(Pending())
      ensures ok ==> Pending() == old(Pending()) - skip && (hasCurrent <==> Pending() > 0)
      ensures ok ==> status == (if hasCurrent then old(status) else Idle)
      ensures !ok ==> View() == old(View()) && upcoming == old(upcoming)
    {
      if !hasCurrent || skip > upcoming + 1 {
        ok := false;
      } else if skip <= upcoming {
        upcoming := upcoming - skip;
        ok := true;
      } else {
        hasCurrent := false;
        upcoming := 0;
        status := Idle;
        ok := true;
      }
      calls := calls + [ForwardCall(skip)];
    }
  }
}
