/**
 * The page application: the channel store (a fixed list of channel
 * identifiers and a map from identifier to record), the seed, the result
 * handlers applied to the store, the poll cycle and the page build.
 *
 * Responses arrive as arguments; the page region the build fills is the
 * field `channelList`.
 */
module TwitchApp {
  import opened ChannelRecord
  import opened Render

  /**
   * `keys` extended by every identifier of `list` it does not hold yet, in
   * list order: the key order the seed gives the store.
   */
  function Seeded(keys: seq<string>, list: seq<string>): seq<string> {
    if list == [] then keys
    else
      var prev := Seeded(keys, list[..|list| - 1]);
      var k := list[|list| - 1];
      if k in prev then prev else prev + [k]
  }

  lemma SeededStep(keys: seq<string>, list: seq<string>, k: string)
    ensures Seeded(keys, list + [k]) ==
      if k in Seeded(keys, list) then Seeded(keys, list) else Seeded(keys, list) + [k]
  {
    assert (list + [k])[..|list|] == list;
  }

  /** The seed ends with exactly the old keys and the listed identifiers. */
  lemma {:induction false} SeededMembers(keys: seq<string>, list: seq<string>)
    ensures forall k :: k in Seeded(keys, list) <==> k in keys || k in list
  {
    if list != [] {
      var init := list[..|list| - 1];
      assert list == init + [list[|list| - 1]];
      SeededMembers(keys, init);
    }
  }

  /** The seed keeps the old keys, in place, and adds no key twice. */
  lemma {:induction false} SeededExtends(keys: seq<string>, list: seq<string>)
    ensures |keys| <= |Seeded(keys, list)| && Seeded(keys, list)[..|keys|] == keys
    ensures forall n | |keys| <= n < |Seeded(keys, list)| :: Seeded(keys, list)[n] !in keys
    ensures Distinct(keys) ==> Distinct(Seeded(keys, list))
  {
    if list != [] {
      SeededExtends(keys, list[..|list| - 1]);
      SeededMembers(keys, list[..|list| - 1]);
    }
  }

  /**
   * The keys the seed adds are listed identifiers, in the order of their
   * first occurrence in the list.
   */
  lemma {:induction false} SeededFollowsList(keys: seq<string>, list: seq<string>)
    ensures var r := Seeded(keys, list);
      forall n, m | |keys| <= n < m < |r| ::
        r[n] in list && r[m] in list && IndexOf(list, r[n]) < IndexOf(list, r[m])
  {
    SeededExtends(keys, list);
    if list != [] {
      var init := list[..|list| - 1];
      var k := list[|list| - 1];
      assert list == init + [k];
      SeededFollowsList(keys, init);
      SeededMembers(keys, init);
      var prev := Seeded(keys, init);
      var r := Seeded(keys, list);
      SeededExtends(keys, init);
      forall n | |keys| <= n < |prev|
        ensures prev[n] in init && IndexOf(list, prev[n]) == IndexOf(init, prev[n])
      {
        assert prev[n] !in keys;
        IndexOfPrefix(init, k, prev[n]);
      }
      if k !in prev {
        assert k !in init;
        assert IndexOf(list, k) == |init|;
      }
    }
  }

  /**
   * The seed's pass over the configured identifiers: a blank record for
   * every identifier that has none, appended to the key order.
   */
  method SeedRecords(keys: seq<string>, records: map<string, Record>, list: seq<string>)
    returns (keys': seq<string>, records': map<string, Record>)
    requires forall k :: k in records <==> k in keys
    ensures keys' == Seeded(keys, list)
    ensures forall k :: k in records' <==> k in keys'
    ensures forall k | k in records :: k in records' && records'[k] == records[k]
    ensures forall k | k in records' && k !in records :: records'[k] == Blank
  {
    keys', records' := keys, records;
    var i := 0;
    while i < |list|
      invariant 0 <= i <= |list|
      invariant forall k :: k in records' <==> k in keys'
      invariant keys' == Seeded(keys, list[..i])
      invariant forall k | k in records :: k in records' && records'[k] == records[k]
      invariant forall k | k in records' && k !in records :: records'[k] == Blank
    {
      var channel := list[i];
      assert list[..i + 1] == list[..i] + [channel];
      SeededStep(keys, list[..i], channel);
      if channel !in records' {
        records' := records'[channel := Blank];
        keys' := keys' + [channel];
      }
      i := i + 1;
    }
    assert list[..|list|] == list;
  }

  class App {
    /** The configured channel identifiers. */
    const list: seq<string>
    /** The keys of the channel map, in insertion order. */
    var order: seq<string>
    /** The channel map. */
    var data: map<string, Record>
    /**
     * The `html` property the build gives each record: the parts of its
     * card. Only the build writes it and only the insertion reads it.
     */
    var html: map<string, seq<Part>>
    /** The contents of the page's channel list. */
    var channelList: seq<Part>

    ghost predicate Valid()
      reads this
    {
      && Distinct(order)
      && (forall k :: k in data <==> k in order)
      && (forall k | k in data :: WellFormed(data[k]))
    }

    constructor (list: seq<string>)
      ensures Valid()
      ensures this.list == list && order == [] && data == map[]
      ensures html == map[] && channelList == []
    {
      this.list := list;
      order := [];
      data := map[];
      html := map[];
      channelList := [];
    }

    /**
     * The seed: a blank record for every listed identifier that has none;
     * an existing record is kept as it is.
     */
    method Init()
      requires Valid()
      modifies this
      ensures Valid()
      ensures order == Seeded(old(order), list)
      ensures forall k | k in old(data) :: k in data && data[k] == old(data)[k]
      ensures forall k | k in data && k !in old(data) :: data[k] == Blank
      ensures html == old(html) && channelList == old(channelList)
    {
      SeededExtends(order, list);
      var keys, records := SeedRecords(order, data, list);
      assert forall k | k in records :: WellFormed(records[k]);
      order, data := keys, records;
    }

    /** The metadata result handler for one channel. */
    method OnChannelData(channel: string, resp: ChannelResponse)
      requires Valid() && channel in data
      modifies this
      ensures Valid()
      ensures data == old(data)[channel := ApplyChannelData(channel, old(data)[channel], resp)]
      ensures order == old(order) && html == old(html) && channelList == old(channelList)
    {
      // The field writes of the script's handler, one by one, on the
      // channel's record; `ApplyChannelData` is what they must amount to.
      var r := data[channel];
      match resp {
        case ChannelFound(logo, name, url, title) =>
          r := r.(logo := logo, displayName := name, url := url, activity := title);
        case HttpError(code) =>
          if code == 422 {
            r := r.(status := Suspended, statusColor := Danger, displayName := Some(channel));
          }
        case NoResponse =>
      }
      data := data[channel := r];
    }

    /**
     * The stream-poll result handler for one channel. It does not look at
     * the status itself: the poll cycle only asks for channels that are not
     * suspended.
     */
    method OnStreams(channel: string, resp: StreamsResponse)
      requires Valid() && channel in data
      modifies this
      ensures Valid()
      ensures data == old(data)[channel := ApplyStreams(old(data)[channel], resp)]
      ensures order == old(order) && html == old(html) && channelList == old(channelList)
    {
      // The field writes of the script's handler, one by one, on the
      // channel's record; `ApplyStreams` is what they must amount to.
      var r := data[channel];
      match resp {
        case Live(game, preview, viewers) =>
          r := r.(status := Streaming, statusColor := Success, stream := LiveStream(game, preview, viewers));
        case NoStream =>
          r := r.(stream := EmptyStream, status := Offline, statusColor := Warning);
      }
      data := data[channel := r];
    }

    /**
     * One poll cycle: every channel that is not suspended is asked for its
     * stream, and the answers in `responses` are applied (a channel missing
     * from `responses` is one whose request failed).
     */
    method UpdateStatus(responses: map<string, StreamsResponse>)
      requires Valid()
      modifies this
      ensures Valid()
      ensures data.Keys == old(data).Keys
      ensures forall k | k in data ::
        data[k] == if k in responses then Poll(old(data)[k], responses[k]) else old(data)[k]
      ensures order == old(order) && html == old(html) && channelList == old(channelList)
    {
      var i := 0;
      while i < |order|
        invariant 0 <= i <= |order|
        invariant Valid()
        invariant order == old(order) && html == old(html) && channelList == old(channelList)
        invariant data.Keys == old(data).Keys
        invariant forall k | k in data ::
          data[k] == if k in order[..i] && k in responses then Poll(old(data)[k], responses[k]) else old(data)[k]
      {
        var channel := order[i];
        assert order[..i + 1] == order[..i] + [channel];
        assert channel !in order[..i];
        if data[channel].status != Suspended && channel in responses {
          OnStreams(channel, responses[channel]);
        }
        i := i + 1;
      }
      assert order[..|order|] == order;
    }

    /**
     * The page build: every record gets its card; the cards are then put on
     * the page streaming first, offline next, suspended last, each group in
     * key order. Every record must have a status: the badge reads its first
     * character.
     */
    method Build()
      requires Valid()
      requires forall k | k in data :: data[k].status != NoStatus
      modifies this
      ensures Valid() && order == old(order) && data == old(data)
      ensures AllRenderable(data) && Covers(order, data)
      ensures html == CardMap(order, data)
      ensures channelList == Page(order, data)
    {
      var streaming, offline, suspended;
      html, streaming, offline, suspended := RenderChannels(order, data);
      BuildPage(order, data, streaming, offline, suspended);
      Insert([streaming, offline, suspended]);
    }

    /** Empties the page's channel list, then appends each group's cards in order. */
    method Insert(groups: seq<seq<string>>)
      modifies this`channelList
      ensures channelList == Html(Flatten(groups), html)
    {
      var content := [];
      var gi := 0;
      while gi < |groups|
        invariant 0 <= gi <= |groups|
        invariant content == Html(Flatten(groups[..gi]), html)
      {
        var done := Flatten(groups[..gi]);
        content := AppendCards(content, groups[gi], html);
        assert groups[..gi + 1][..gi] == groups[..gi];
        HtmlAppend(done, groups[gi], html);
        gi := gi + 1;
      }
      assert groups[..|groups|] == groups;
      channelList := content;
    }
  }

  /** Appends the stored parts of each channel of one group, in order. */
  method AppendCards(content: seq<Part>, group: seq<string>, html: map<string, seq<Part>>)
    returns (content': seq<Part>)
    ensures content' == content + Html(group, html)
  {
    content' := content;
    var j := 0;
    while j < |group|
      invariant 0 <= j <= |group|
      invariant content' == content + Html(group[..j], html)
    {
      HtmlStep(group, html, j);
      content' := content' + Stored(html, group[j]);
      j := j + 1;
    }
    assert group[..|group|] == group;
  }

  /**
   * The pass over the channels of the page build: each channel's card,
   * and the channels sorted into the three status groups in key order.
   */
  method RenderChannels(keys: seq<string>, records: map<string, Record>)
    returns (html: map<string, seq<Part>>, streaming: seq<string>, offline: seq<string>, suspended: seq<string>)
    requires Covers(keys, records) && AllRenderable(records)
    ensures html == CardMap(keys, records)
    ensures streaming == Group(keys, records, Streaming)
    ensures offline == Group(keys, records, Offline)
    ensures suspended == Group(keys, records, Suspended)
  {
    html, streaming, offline, suspended := map[], [], [], [];
    var i := 0;
    while i < |keys|
      invariant 0 <= i <= |keys|
      invariant html == CardMap(keys[..i], records)
      invariant streaming == Group(keys[..i], records, Streaming)
      invariant offline == Group(keys[..i], records, Offline)
      invariant suspended == Group(keys[..i], records, Suspended)
    {
      var channel := keys[i];
      assert keys[..i + 1][..i] == keys[..i];
      GroupStep(keys, records, Streaming, i);
      GroupStep(keys, records, Offline, i);
      GroupStep(keys, records, Suspended, i);
      html := html[channel := Card(channel, records[channel])];
      match records[channel].status {
        case Streaming => streaming := streaming + [channel];
        case Offline => offline := offline + [channel];
        case Suspended => suspended := suspended + [channel];
        case NoStatus =>
      }
      i := i + 1;
    }
    assert keys[..|keys|] == keys;
  }

  /** The three groups, inserted in order, make the page. */
  lemma BuildPage(keys: seq<string>, data: map<string, Record>,
                  streaming: seq<string>, offline: seq<string>, suspended: seq<string>)
    requires Covers(keys, data) && AllRenderable(data)
    requires streaming == Group(keys, data, Streaming)
    requires offline == Group(keys, data, Offline)
    requires suspended == Group(keys, data, Suspended)
    ensures Flatten([streaming, offline, suspended]) == RenderOrder(keys, data)
    ensures Html(RenderOrder(keys, data), CardMap(keys, data)) == Page(keys, data)
  {
    var html := CardMap(keys, data);
    CardMapHoldsCards(keys, data);
    var groups := [streaming, offline, suspended];
    assert [streaming][..0] == [];
    assert Flatten([streaming]) == streaming;
    assert [streaming, offline][..1] == [streaming];
    assert Flatten([streaming, offline]) == streaming + offline;
    assert groups[..2] == [streaming, offline];
    var o := RenderOrder(keys, data);
    RenderOrderMembers(keys, data);
    HtmlOfCards(o, data, html);
  }

  /** The groups laid end to end. */
  function Flatten(groups: seq<seq<string>>): seq<string> {
    if groups == [] then []
    else
      var init := groups[..|groups| - 1];
      assert groups == init + [groups[|groups| - 1]];
      Flatten(init) + groups[|groups| - 1]
  }
}
