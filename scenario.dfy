/**
 * Two runs of the page application from the seed to the page, one for a
 * channel that goes offline and then live, one for a suspended channel.
 */
module Scenarios {
  import opened ChannelRecord
  import opened Render
  import opened TwitchApp

  /** A page built from the one key `k` shows the card of `k`. */
  lemma OneChannelPage(k: string, d: map<string, Record>)
    requires k in d && AllRenderable(d)
    ensures Covers([k], d) && Page([k], d) == Card(k, d[k])
  {
    OneChannelOrder(k, d);
    assert [k][..0] == [];
    assert Cards([k], d) == Card(k, d[k]);
  }

  lemma OneChannelOrder(k: string, d: map<string, Record>)
    requires k in d && d[k].status != NoStatus
    ensures Covers([k], d) && RenderOrder([k], d) == [k]
  {
    var a := OneChannelGroup(k, d, Streaming);
    var b := OneChannelGroup(k, d, Offline);
    var c := OneChannelGroup(k, d, Suspended);
    assert RenderOrder([k], d) == a + b + c;
  }

  lemma OneChannelGroup(k: string, d: map<string, Record>, s: Status) returns (g: seq<string>)
    requires k in d
    ensures Covers([k], d) && g == Group([k], d, s)
    ensures g == if d[k].status == s then [k] else []
  {
    assert [k][..0] == [];
    g := Group([k], d, s);
  }

  lemma LiveCard()
    ensures Card("foo", Record(Some("L"), Some("Foo"), Some("U"), Some("hi"), Streaming, Success, LiveStream("G", "P", 42)))
      == [ListItem(Some("#collapse-foo"), false, true, "L", "foo", Some("Foo"), Success, "42 viewers", Some("hi")),
          CollapsePanel("collapse-foo", Some("U"), true, "P", PreviewAlt)]
  {
    var r := Record(Some("L"), Some("Foo"), Some("U"), Some("hi"), Streaming, Success, LiveStream("G", "P", 42));
    assert Decimal.NatToString(4) == "4";
    assert Decimal.NatToString(42) == "42";
    assert Badge(r) == "42 viewers";
    assert "#collapse-" + "foo" == "#collapse-foo";
    assert "collapse-" + "foo" == "collapse-foo";
  }

  lemma SuspendedCard()
    ensures Card("bar", Record(None, Some("bar"), None, None, Suspended, Danger, NoStreamField))
      == [ListItem(None, true, false, DefaultLogo, "bar", Some("bar"), Danger, "Suspended", None)]
  {
    assert UpperCase('s') == 'S';
    assert Capitalize("suspended") == "Suspended";
  }

  /** Two poll cycles for "foo": no stream, then 42 viewers. */
  method PollOfflineThenLive(app: App)
    requires app.Valid() && app.data.Keys == {"foo"}
    requires app.data["foo"] == Record(Some("L"), Some("Foo"), Some("U"), Some("hi"), NoStatus, NoColor, NoStreamField)
    modifies app
    ensures app.Valid() && app.order == old(app.order) && app.data.Keys == {"foo"}
    ensures app.data["foo"] == Record(Some("L"), Some("Foo"), Some("U"), Some("hi"), Streaming, Success, LiveStream("G", "P", 42))
  {
    app.UpdateStatus(map["foo" := NoStream]);
    assert app.data["foo"].status == Offline;
    app.UpdateStatus(map["foo" := Live("G", "P", 42)]);
  }

  /**
   * Channel "foo": its metadata arrives, a poll finds no stream, a later
   * poll finds 42 viewers. The page then shows one live card and its
   * preview panel.
   */
  method LiveChannel() returns (page: seq<Part>)
    ensures page == [
      ListItem(Some("#collapse-foo"), false, true, "L", "foo", Some("Foo"), Success, "42 viewers", Some("hi")),
      CollapsePanel("collapse-foo", Some("U"), true, "P", PreviewAlt)]
  {
    var app := new App(["foo"]);
    app.Init();
    assert app.order == ["foo"] by {
      assert ["foo"][..0] == [];
    }
    assert app.data.Keys == {"foo"};
    app.OnChannelData("foo", ChannelFound(Some("L"), Some("Foo"), Some("U"), Some("hi")));
    PollOfflineThenLive(app);
    app.Build();
    OneChannelPage("foo", app.data);
    LiveCard();
    page := app.channelList;
  }

  /**
   * Channel "bar": the metadata request fails with HTTP 422, so the
   * channel is suspended under its own identifier, and a later poll
   * answer leaves it alone. The page shows one suspended card that links
   * nowhere (the channel has no url) and opens in a new tab.
   */
  method SuspendedChannel() returns (page: seq<Part>)
    ensures page == [
      ListItem(None, true, false, DefaultLogo, "bar", Some("bar"), Danger, "Suspended", None)]
  {
    var app := new App(["bar"]);
    app.Init();
    assert app.order == ["bar"] by {
      assert ["bar"][..0] == [];
    }
    assert app.data.Keys == {"bar"};
    app.OnChannelData("bar", HttpError(422));
    var r := Record(None, Some("bar"), None, None, Suspended, Danger, NoStreamField);
    app.UpdateStatus(map["bar" := Live("G", "P", 7)]);
    assert app.data["bar"] == r;
    app.Build();
    OneChannelPage("bar", app.data);
    SuspendedCard();
    page := app.channelList;
  }
}
