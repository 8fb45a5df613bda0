/** The song records that flow from the providers to the player. */
module Songs {
  import opened Wrappers

  /** What a provider returns for one playable item (`SongMetadata`). Only the
      title is read by the orchestration; the other fields are carried along. */
  datatype SongMetadata = SongMetadata(
    title: string,
    artist: string,
    url: string,
    lengthSeconds: nat,
    offsetSeconds: nat,
    isLive: bool,
    playlist: Option<string>)

  /** A song as handed to `player.add`: the provider's record spread unchanged,
      plus the text channel it was requested in and the requesting user. */
  datatype QueuedSong = QueuedSong(
    metadata: SongMetadata,
    addedInChannelId: string,
    requestedBy: string)
}
