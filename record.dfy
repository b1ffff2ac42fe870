/**
 * One channel record of the channel store and the two result handlers that
 * change it: the channel-metadata handler (run once per channel after the
 * seed) and the stream-poll handler (run on every poll cycle).
 *
 * The record mirrors the fields the page script writes on its plain object;
 * a field the script has not written yet is `None`, `NoStatus`, `NoColor` or
 * `NoStreamField`.
 */
module ChannelRecord {

  datatype Option<T> = None | Some(value: T)

  /** The `status` field: unset until a handler writes one of three words. */
  datatype Status = NoStatus | Streaming | Offline | Suspended

  /** The `statusColor` field, a Bootstrap label colour. */
  datatype Color = NoColor | Success | Warning | Danger

  /**
   * The `stream` field: never written, the empty object `{}` the offline
   * branch stores, or the copy of a live stream. `preview` is the large
   * preview image, the only one of the preview urls the page shows.
   */
  datatype Stream =
    | NoStreamField
    | EmptyStream
    | LiveStream(game: string, preview: string, viewers: nat)

  datatype Record = Record(
    logo: Option<string>,
    displayName: Option<string>,
    url: Option<string>,
    activity: Option<string>,
    status: Status,
    statusColor: Color,
    stream: Stream)

  /** The record the seed creates: the empty object `{}`. */
  const Blank := Record(None, None, None, None, NoStatus, NoColor, NoStreamField)

  /** A streaming record always carries the live stream the badge and panel read. */
  ghost predicate WellFormed(r: Record) {
    r.status == Streaming ==> r.stream.LiveStream?
  }

  /** Outcome of `GET channels/<id>`; JSON `null` fields are `None`. */
  datatype ChannelResponse =
    | ChannelFound(logo: Option<string>, displayName: Option<string>,
                   url: Option<string>, status: Option<string>)
      /** The request failed with this HTTP status code. */
    | HttpError(code: int)
      /** The request failed without an HTTP response (transport error). */
    | NoResponse

  /** Successful outcome of `GET streams/<id>`: a stream object, or `stream: null`. */
  datatype StreamsResponse =
    | Live(game: string, preview: string, viewers: nat)
    | NoStream

  /**
   * The metadata handler. A found channel copies its four display fields;
   * HTTP 422 marks the channel suspended and names it by its identifier;
   * any other failure writes nothing (a failure without a response throws
   * inside the handler before it writes anything).
   */
  function ApplyChannelData(channel: string, r: Record, resp: ChannelResponse): (r': Record)
    ensures resp.ChannelFound? ==>
      && r'.logo == resp.logo && r'.displayName == resp.displayName
      && r'.url == resp.url && r'.activity == resp.status
      && r'.status == r.status && r'.statusColor == r.statusColor
    ensures resp == HttpError(422) ==>
      && r'.status == Suspended && r'.statusColor == Danger
      && r'.displayName == Some(channel)
      && r'.logo == r.logo && r'.url == r.url && r'.activity == r.activity
    ensures !resp.ChannelFound? && resp != HttpError(422) ==> r' == r
    ensures r'.stream == r.stream
  {
    match resp
    case ChannelFound(logo, name, url, title) =>
      r.(logo := logo, displayName := name, url := url, activity := title)
    case HttpError(code) =>
      if code == 422 then
        r.(status := Suspended, statusColor := Danger, displayName := Some(channel))
      else r
    case NoResponse => r
  }

  /**
   * The stream-poll handler: a live stream makes the record streaming, no
   * stream makes it offline. It never writes "suspended", and it touches
   * only `status`, `statusColor` and `stream`.
   */
  function ApplyStreams(r: Record, resp: StreamsResponse): (r': Record)
    ensures r'.status == (if resp.Live? then Streaming else Offline)
    ensures r'.statusColor == (if resp.Live? then Success else Warning)
    ensures resp.Live? ==>
      r'.stream == LiveStream(resp.game, resp.preview, resp.viewers)
    ensures resp.NoStream? ==> r'.stream == EmptyStream
    ensures r'.(status := r.status, statusColor := r.statusColor, stream := r.stream) == r
  {
    match resp
    case Live(game, preview, viewers) =>
      r.(status := Streaming, statusColor := Success, stream := LiveStream(game, preview, viewers))
    case NoStream =>
      r.(stream := EmptyStream, status := Offline, statusColor := Warning)
  }

  /**
   * One poll of one channel: the cycle asks for the stream only when the
   * record is not suspended, and then applies the handler.
   */
  function Poll(r: Record, resp: StreamsResponse): (r': Record)
    ensures r.status == Suspended ==> r' == r
    ensures r'.status == Suspended <==> r.status == Suspended
    ensures r.status != Suspended ==> r' == ApplyStreams(r, resp)
  {
    if r.status != Suspended then ApplyStreams(r, resp) else r
  }

  /** What can happen to one record, in the order it happens. */
  datatype Event = MetadataResult(ChannelResponse) | PollResult(StreamsResponse)

  function Step(channel: string, r: Record, e: Event): Record {
    match e
    case MetadataResult(resp) => ApplyChannelData(channel, r, resp)
    case PollResult(resp) => Poll(r, resp)
  }

  function Replay(channel: string, r: Record, events: seq<Event>): Record
    decreases |events|
  {
    if events == [] then r else Replay(channel, Step(channel, r, events[0]), events[1..])
  }

  /** Suspended is terminal: no sequence of results leaves it. */
  lemma {:induction false} SuspendedIsTerminal(channel: string, r: Record, events: seq<Event>)
    requires r.status == Suspended
    ensures Replay(channel, r, events).status == Suspended
    decreases |events|
  {
    if events != [] {
      SuspendedIsTerminal(channel, Step(channel, r, events[0]), events[1..]);
    }
  }

  /** Polling skips a suspended record entirely: not one field changes. */
  lemma {:induction false} PollsLeaveSuspendedUnchanged(channel: string, r: Record, events: seq<Event>)
    requires r.status == Suspended
    requires forall i | 0 <= i < |events| :: events[i].PollResult?
    ensures Replay(channel, r, events) == r
    decreases |events|
  {
    if events != [] {
      PollsLeaveSuspendedUnchanged(channel, Step(channel, r, events[0]), events[1..]);
    }
  }

  /**
   * Only an HTTP 422 metadata result suspends a channel: a record that ends
   * suspended and did not start so has met one.
   */
  lemma {:induction false} SuspendedOnlyBy422(channel: string, r: Record, events: seq<Event>)
    requires r.status != Suspended
    requires Replay(channel, r, events).status == Suspended
    ensures MetadataResult(HttpError(422)) in events
    decreases |events|
  {
    if events == [] {
    } else if events[0] == MetadataResult(HttpError(422)) {
    } else {
      SuspendedOnlyBy422(channel, Step(channel, r, events[0]), events[1..]);
      assert events == [events[0]] + events[1..];
    }
  }

  /**
   * The seed alone never makes a channel streaming or offline: metadata
   * results leave an unset record unset or suspended.
   */
  lemma {:induction false} SeedLeavesUnsetOrSuspended(channel: string, r: Record, events: seq<Event>)
    requires r.status == NoStatus || r.status == Suspended
    requires forall i | 0 <= i < |events| :: events[i].MetadataResult?
    ensures Replay(channel, r, events).status in {NoStatus, Suspended}
    decreases |events|
  {
    if events != [] {
      SeedLeavesUnsetOrSuspended(channel, Step(channel, r, events[0]), events[1..]);
    }
  }

  /** Every result keeps a streaming record's live stream in place. */
  lemma {:induction false} WellFormedPreserved(channel: string, r: Record, events: seq<Event>)
    requires WellFormed(r)
    ensures WellFormed(Replay(channel, r, events))
    decreases |events|
  {
    if events != [] {
      WellFormedPreserved(channel, Step(channel, r, events[0]), events[1..]);
    }
  }
}
