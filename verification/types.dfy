/** The value types shared by the controller and the commentary service (types.ts). */
module Types {
  import opened Wrappers

  /** The fifteen discrete remote-control intents. */
  datatype RemoteAction =
    | Up | Down | Left | Right | Select
    | Home | Back | PlayPause | Rewind | FastForward
    | VolumeUp | VolumeDown | Mute | Power | Voice

  datatype Sentiment = Positive | Neutral | Critical

  /** One citation shown under a commentary. */
  datatype Source = Source(title: string, uri: string)

  /** A commentary. `sources` is `None` when the field is absent altogether,
      which the source distinguishes from an empty list. */
  datatype EditorResponse = EditorResponse(text: string, sentiment: Sentiment, sources: Option<seq<Source>>)

  datatype ConnectionState = ConnectionState(ip: string, isConnected: bool, isConnecting: bool)
}
