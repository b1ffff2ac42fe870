/**
 * What the page builder derives from the store: the badge text and the
 * markup parts of each channel card, and the order in which the cards are
 * put on the page (all streaming channels, then all offline ones, then all
 * suspended ones, each group in key order).
 */
module Render {
  import opened ChannelRecord
  import Decimal

  const DefaultLogo: string := "img/logo-default.jpg"

  /** One piece of markup the page builder produces for a channel. */
  datatype Part =
      /** The list item: `href`, whether it opens a new tab, whether it toggles
          the collapse panel, logo source and alt text, display name, badge
          colour and text, activity line. */
    | ListItem(href: Option<string>, newTab: bool, togglesCollapse: bool,
               logo: string, alt: string, name: Option<string>,
               badgeColor: Color, badge: string, activity: Option<string>)
      /** The collapse panel, shown only when live: its id, and a link (with
          its target) around the stream preview image and that image's alt
          text. */
    | CollapsePanel(id: string, href: Option<string>, newTab: bool,
                    preview: string, previewAlt: string)

  const PreviewAlt: string := "Stream preview."

  /** The word the script stores in `status`. */
  function StatusText(s: Status): (t: string)
    requires s != NoStatus
    ensures |t| > 0 && forall i | 0 <= i < |t| :: 'a' <= t[i] <= 'z'
  {
    match s
    case Streaming => "streaming"
    case Offline => "offline"
    case Suspended => "suspended"
  }

  predicate IsLower(c: char) { 'a' <= c <= 'z' }

  predicate IsUpper(c: char) { 'A' <= c <= 'Z' }

  function UpperCase(c: char): (u: char)
    ensures IsLower(c) ==> IsUpper(u)
    ensures !IsLower(c) ==> u == c
  {
    if IsLower(c) then (c as int - 32) as char else c
  }

  function LowerCase(c: char): (l: char)
    ensures IsUpper(c) ==> IsLower(l)
    ensures !IsUpper(c) ==> l == c
  {
    if IsUpper(c) then (c as int + 32) as char else c
  }

  /** First character upper-cased, the rest unchanged. */
  function Capitalize(s: string): (r: string)
    requires |s| > 0
    ensures |r| == |s| && r[1..] == s[1..]
    ensures IsLower(s[0]) ==> IsUpper(r[0]) && LowerCase(r[0]) == s[0]
    ensures !IsLower(s[0]) ==> r[0] == s[0]
  {
    [UpperCase(s[0])] + s[1..]
  }

  /** A record the builder can draw without throwing. */
  ghost predicate Renderable(r: Record) {
    r.status != NoStatus && WellFormed(r)
  }

  /** The badge: the viewer count while streaming, else the capitalised status. */
  function Badge(r: Record): string
    requires Renderable(r)
  {
    if r.status == Streaming then Decimal.NatToString(r.stream.viewers) + " viewers"
    else Capitalize(StatusText(r.status))
  }

  /** A live badge reads back as the viewer count followed by " viewers". */
  lemma BadgeShowsViewers(r: Record)
    requires Renderable(r) && r.status == Streaming
    ensures var b := Badge(r);
      && |b| > 8 && b[|b| - 8..] == " viewers"
      && Decimal.AllDigits(b[..|b| - 8])
      && Decimal.ParseDecimal(b[..|b| - 8]) == r.stream.viewers
  {
    var b := Badge(r);
    var digits := Decimal.NatToString(r.stream.viewers);
    assert b[..|b| - 8] == digits;
    Decimal.ParseNatToString(r.stream.viewers);
  }

  /** Any other badge is the status word with an upper-case first letter. */
  lemma BadgeNamesStatus(r: Record)
    requires Renderable(r) && r.status != Streaming
    ensures var b := Badge(r);
      && |b| > 0 && IsUpper(b[0])
      && [LowerCase(b[0])] + b[1..] == StatusText(r.status)
  {
    var t := StatusText(r.status);
    assert IsLower(t[0]);
    assert t == [t[0]] + t[1..];
  }

  /** `data.logo || 'img/logo-default.jpg'`: a missing or empty logo falls back. */
  function LogoSource(logo: Option<string>): (src: string)
    ensures src != []
    ensures logo.Some? && logo.value != [] ==> src == logo.value
    ensures !(logo.Some? && logo.value != []) ==> src == DefaultLogo
  {
    if logo.Some? && logo.value != [] then logo.value else DefaultLogo
  }

  /**
   * The card of one channel: the list item, and the collapse panel when the
   * channel is streaming.
   */
  function Card(channel: string, r: Record): seq<Part>
    requires Renderable(r)
  {
    var live := r.status == Streaming;
    var item := ListItem(
      if live then Some("#collapse-" + channel) else r.url, !live, live,
      LogoSource(r.logo), channel, r.displayName,
      r.statusColor, Badge(r), r.activity);
    if live then [item, CollapsePanel("collapse-" + channel, r.url, true, r.stream.preview, PreviewAlt)]
    else [item]
  }

  /**
   * What a card shows: the channel's logo (or the default), its identifier
   * as alt text, its display name, badge and activity. A live card links to
   * its own collapse panel, which links to the channel page and shows the
   * preview; any other card links to the channel page in a new tab.
   */
  lemma CardContents(channel: string, r: Record)
    requires Renderable(r)
    ensures var html := Card(channel, r);
      && |html| == (if r.status == Streaming then 2 else 1)
      && html[0].ListItem? && html[0].alt == channel && html[0].name == r.displayName
      && html[0].badge == Badge(r) && html[0].badgeColor == r.statusColor
      && html[0].logo == LogoSource(r.logo) && html[0].activity == r.activity
      && (r.status == Streaming ==>
        && html[0].href == Some("#collapse-" + channel)
        && html[0].togglesCollapse && !html[0].newTab
        && html[1] == CollapsePanel("collapse-" + channel, r.url, true, r.stream.preview, PreviewAlt))
      && (r.status != Streaming ==>
        html[0].href == r.url && html[0].newTab && !html[0].togglesCollapse)
  {
  }

  /** The status a reader of the page sees on a card: a preview panel, or the badge word. */
  function CardStatus(card: seq<Part>): Status {
    if |card| == 2 then Streaming
    else if |card| == 1 && card[0].ListItem? && card[0].badge == "Offline" then Offline
    else if |card| == 1 && card[0].ListItem? && card[0].badge == "Suspended" then Suspended
    else NoStatus
  }

  /** The channel page a card leads to: through the preview panel when live. */
  function CardLink(card: seq<Part>): Option<string> {
    if |card| == 2 && card[1].CollapsePanel? then card[1].href
    else if |card| > 0 && card[0].ListItem? then card[0].href
    else None
  }

  /**
   * A card can be read back: its alt text names the channel, and its
   * badge or panel gives the record's status and the channel page.
   */
  lemma CardReadsBack(channel: string, r: Record)
    requires Renderable(r)
    ensures var card := Card(channel, r);
      && card[0].ListItem? && card[0].alt == channel
      && CardStatus(card) == r.status
      && CardLink(card) == r.url
  {
  }

  predicate Distinct(s: seq<string>) {
    forall i, j | 0 <= i < j < |s| :: s[i] != s[j]
  }

  ghost predicate Covers(keys: seq<string>, data: map<string, Record>) {
    forall k | k in keys :: k in data
  }

  /** The keys whose record has status `s`, in key order. */
  function Group(keys: seq<string>, data: map<string, Record>, s: Status): seq<string>
    requires Covers(keys, data)
  {
    if keys == [] then []
    else
      var last := keys[|keys| - 1];
      Group(keys[..|keys| - 1], data, s) + if data[last].status == s then [last] else []
  }

  /** A group holds exactly the keys whose record has status `s`, and is no longer than the keys. */
  lemma {:induction false} GroupMembers(keys: seq<string>, data: map<string, Record>, s: Status)
    requires Covers(keys, data)
    ensures forall k :: k in Group(keys, data, s) <==> k in keys && data[k].status == s
    ensures |Group(keys, data, s)| <= |keys|
  {
    if keys != [] {
      var init := keys[..|keys| - 1];
      assert keys == init + [keys[|keys| - 1]];
      GroupMembers(init, data, s);
    }
  }

  /** Looking at one more key extends the group by that key exactly when it has status `s`. */
  lemma GroupStep(keys: seq<string>, data: map<string, Record>, s: Status, i: nat)
    requires i < |keys| && Covers(keys, data)
    ensures Covers(keys[..i], data) && Covers(keys[..i + 1], data)
    ensures data[keys[i]].status == s ==> Group(keys[..i + 1], data, s) == Group(keys[..i], data, s) + [keys[i]]
    ensures data[keys[i]].status != s ==> Group(keys[..i + 1], data, s) == Group(keys[..i], data, s)
  {
    assert keys[..i + 1][..i] == keys[..i];
    assert Group(keys[..i], data, s) + [] == Group(keys[..i], data, s);
  }

  /** Group reads nothing of a record but its status. */
  lemma {:induction false} GroupSeesOnlyStatus(keys: seq<string>, d1: map<string, Record>, d2: map<string, Record>, s: Status)
    requires Covers(keys, d1) && Covers(keys, d2)
    requires forall k | k in keys :: d1[k].status == d2[k].status
    ensures Group(keys, d1, s) == Group(keys, d2, s)
  {
    if keys != [] {
      GroupSeesOnlyStatus(keys[..|keys| - 1], d1, d2, s);
    }
  }

  /** Index of the first occurrence of `k`. */
  function IndexOf(keys: seq<string>, k: string): (i: nat)
    requires k in keys
    ensures i < |keys| && keys[i] == k && k !in keys[..i]
  {
    if keys[0] == k then 0
    else
      assert k in keys[1..];
      1 + IndexOf(keys[1..], k)
  }

  lemma {:induction false} IndexOfPrefix(keys: seq<string>, x: string, k: string)
    requires k in keys
    ensures IndexOf(keys + [x], k) == IndexOf(keys, k)
  {
    if keys[0] != k {
      assert k in keys[1..];
      assert (keys + [x])[1..] == keys[1..] + [x];
      IndexOfPrefix(keys[1..], x, k);
    }
  }

  /** Grouping is stable: a group lists its channels in key order. */
  lemma {:induction false} GroupKeepsKeyOrder(keys: seq<string>, data: map<string, Record>, s: Status)
    requires Covers(keys, data) && Distinct(keys)
    ensures forall i, j | 0 <= i < j < |Group(keys, data, s)| ::
      && Group(keys, data, s)[i] in keys && Group(keys, data, s)[j] in keys
      && IndexOf(keys, Group(keys, data, s)[i]) < IndexOf(keys, Group(keys, data, s)[j])
  {
    GroupMembers(keys, data, s);
    if keys != [] {
      var init := keys[..|keys| - 1];
      var last := keys[|keys| - 1];
      assert keys == init + [last];
      GroupKeepsKeyOrder(init, data, s);
      GroupMembers(init, data, s);
      var g0 := Group(init, data, s);
      var g := Group(keys, data, s);
      forall i, j | 0 <= i < j < |g|
        ensures IndexOf(keys, g[i]) < IndexOf(keys, g[j])
      {
        assert g[i] == g0[i] && g0[i] in init;
        IndexOfPrefix(init, last, g[i]);
        if j < |g0| {
          assert g[j] == g0[j];
          IndexOfPrefix(init, last, g[j]);
        } else {
          assert g[j] == last;
          assert IndexOf(keys, last) == |keys| - 1;
        }
      }
    }
  }

  /** The order the cards reach the page: streaming, offline, suspended. */
  function RenderOrder(keys: seq<string>, data: map<string, Record>): seq<string>
    requires Covers(keys, data)
  {
    Group(keys, data, Streaming) + Group(keys, data, Offline) + Group(keys, data, Suspended)
  }

  /** Exactly the keys whose record has a status reach the page. */
  lemma RenderOrderMembers(keys: seq<string>, data: map<string, Record>)
    requires Covers(keys, data)
    ensures forall k :: k in RenderOrder(keys, data) <==> k in keys && data[k].status != NoStatus
  {
    GroupMembers(keys, data, Streaming);
    GroupMembers(keys, data, Offline);
    GroupMembers(keys, data, Suspended);
  }

  function Rank(s: Status): nat {
    match s
    case Streaming => 0
    case Offline => 1
    case Suspended => 2
    case NoStatus => 3
  }

  /** Streaming cards come first, then offline ones, then suspended ones. */
  lemma RenderOrderIsGrouped(keys: seq<string>, data: map<string, Record>)
    requires Covers(keys, data)
    ensures var o := RenderOrder(keys, data);
      forall i, j | 0 <= i < j < |o| :: o[i] in data && o[j] in data &&
        Rank(data[o[i]].status) <= Rank(data[o[j]].status)
  {
    var a := Group(keys, data, Streaming);
    var b := Group(keys, data, Offline);
    var c := Group(keys, data, Suspended);
    var o := RenderOrder(keys, data);
    GroupMembers(keys, data, Streaming);
    GroupMembers(keys, data, Offline);
    GroupMembers(keys, data, Suspended);
    forall i | 0 <= i < |o|
      ensures o[i] in data
      ensures i < |a| ==> data[o[i]].status == Streaming
      ensures |a| <= i < |a| + |b| ==> data[o[i]].status == Offline
      ensures |a| + |b| <= i ==> data[o[i]].status == Suspended
    {
      if i < |a| { assert o[i] == a[i] && a[i] in a; }
      else if i < |a| + |b| { assert o[i] == b[i - |a|] && b[i - |a|] in b; }
      else { assert o[i] == c[i - |a| - |b|] && c[i - |a| - |b|] in c; }
    }
  }

  lemma GroupStepCount(keys: seq<string>, data: map<string, Record>, s: Status, i: nat)
    requires i < |keys| && Covers(keys, data)
    ensures Covers(keys[..i], data) && Covers(keys[..i + 1], data)
    ensures multiset(Group(keys[..i + 1], data, s)) == multiset(Group(keys[..i], data, s))
      + if data[keys[i]].status == s then multiset{keys[i]} else multiset{}
  {
    GroupStep(keys, data, s, i);
  }

  /** The keys whose record has a status, in key order: the channels the switch places. */
  function Placed(keys: seq<string>, data: map<string, Record>): seq<string>
    requires Covers(keys, data)
  {
    if keys == [] then []
    else
      var last := keys[|keys| - 1];
      Placed(keys[..|keys| - 1], data) + if data[last].status != NoStatus then [last] else []
  }

  /** Once every record has a status, every key is placed. */
  lemma {:induction false} PlacedAll(keys: seq<string>, data: map<string, Record>)
    requires Covers(keys, data)
    requires forall k | k in keys :: data[k].status != NoStatus
    ensures Placed(keys, data) == keys
  {
    if keys != [] {
      var init := keys[..|keys| - 1];
      assert keys == init + [keys[|keys| - 1]];
      PlacedAll(init, data);
    }
  }

  /** One more key puts that key once more on the page exactly when it has a status. */
  lemma RenderOrderStep(keys: seq<string>, data: map<string, Record>, i: nat)
    requires i < |keys| && Covers(keys, data)
    ensures Covers(keys[..i], data) && Covers(keys[..i + 1], data)
    ensures multiset(RenderOrder(keys[..i + 1], data)) == multiset(RenderOrder(keys[..i], data))
      + if data[keys[i]].status != NoStatus then multiset{keys[i]} else multiset{}
  {
    GroupStepCount(keys, data, Streaming, i);
    GroupStepCount(keys, data, Offline, i);
    GroupStepCount(keys, data, Suspended, i);
  }

  /**
   * Every channel with a status reaches the page exactly as often as it is
   * a key, and a channel without one does not reach it at all.
   */
  lemma {:induction false} RenderOrderIsPermutation(keys: seq<string>, data: map<string, Record>)
    requires Covers(keys, data)
    ensures multiset(RenderOrder(keys, data)) == multiset(Placed(keys, data))
  {
    if keys != [] {
      var n := |keys| - 1;
      var k := keys[n];
      var add := if data[k].status != NoStatus then [k] else [];
      assert keys[..n + 1] == keys;
      calc {
        multiset(RenderOrder(keys, data));
        { RenderOrderStep(keys, data, n); }
        multiset(RenderOrder(keys[..n], data)) + multiset(add);
        { RenderOrderIsPermutation(keys[..n], data); }
        multiset(Placed(keys[..n], data)) + multiset(add);
        multiset(Placed(keys[..n], data) + add);
      }
    }
  }

  /** The stored parts of one channel; a channel with none stored appends nothing. */
  function Stored(html: map<string, seq<Part>>, k: string): seq<Part> {
    if k in html then html[k] else []
  }

  /**
   * The markup of a run of channels, in order, as stored in `html`: what
   * appending each channel's stored parts to the page produces.
   */
  function Html(keys: seq<string>, html: map<string, seq<Part>>): seq<Part> {
    if keys == [] then [] else Html(keys[..|keys| - 1], html) + Stored(html, keys[|keys| - 1])
  }

  lemma HtmlStep(keys: seq<string>, html: map<string, seq<Part>>, j: nat)
    requires j < |keys|
    ensures Html(keys[..j + 1], html) == Html(keys[..j], html) + Stored(html, keys[j])
  {
    assert keys[..j + 1][..j] == keys[..j];
  }

  lemma {:induction false} HtmlAppend(a: seq<string>, b: seq<string>, html: map<string, seq<Part>>)
    ensures Html(a + b, html) == Html(a, html) + Html(b, html)
    decreases |b|
  {
    if b == [] {
      assert a + b == a;
    } else {
      var init := b[..|b| - 1];
      assert (a + b)[..|a + b| - 1] == a + init;
      assert (a + b)[|a + b| - 1] == b[|b| - 1];
      HtmlAppend(a, init, html);
    }
  }

  /** The cards of a run of channels, in order. */
  function Cards(keys: seq<string>, data: map<string, Record>): seq<Part>
    requires Covers(keys, data)
    requires forall k | k in keys :: Renderable(data[k])
  {
    if keys == [] then []
    else
      var last := keys[|keys| - 1];
      Cards(keys[..|keys| - 1], data) + Card(last, data[last])
  }

  /** Each channel's card, by channel: what the build stores in `html`. */
  function CardMap(keys: seq<string>, data: map<string, Record>): map<string, seq<Part>>
    requires Covers(keys, data)
    requires forall k | k in keys :: Renderable(data[k])
  {
    if keys == [] then map[]
    else
      var last := keys[|keys| - 1];
      CardMap(keys[..|keys| - 1], data)[last := Card(last, data[last])]
  }

  /** The card map holds exactly the keys, each with its card. */
  lemma {:induction false} CardMapHoldsCards(keys: seq<string>, data: map<string, Record>)
    requires Covers(keys, data)
    requires forall k | k in keys :: Renderable(data[k])
    ensures forall k :: k in CardMap(keys, data) <==> k in keys
    ensures forall k | k in keys :: CardMap(keys, data)[k] == Card(k, data[k])
  {
    if keys != [] {
      var init := keys[..|keys| - 1];
      assert keys == init + [keys[|keys| - 1]];
      CardMapHoldsCards(init, data);
    }
  }

  /** Stored markup that holds each channel's card lays out as the cards themselves. */
  lemma {:induction false} HtmlOfCards(keys: seq<string>, data: map<string, Record>, html: map<string, seq<Part>>)
    requires Covers(keys, data) && forall k | k in keys :: Renderable(data[k])
    requires forall k | k in keys :: k in html && html[k] == Card(k, data[k])
    ensures Html(keys, html) == Cards(keys, data)
  {
    if keys != [] {
      HtmlOfCards(keys[..|keys| - 1], data, html);
    }
  }

  ghost predicate AllRenderable(data: map<string, Record>) {
    forall k | k in data :: Renderable(data[k])
  }

  /**
   * The page: the cards of every streaming channel, then every offline
   * one, then every suspended one. It depends on the records alone, so
   * building twice from the same records gives the same page.
   */
  function Page(keys: seq<string>, data: map<string, Record>): seq<Part>
    requires Covers(keys, data) && AllRenderable(data)
  {
    RenderOrderMembers(keys, data);
    Cards(RenderOrder(keys, data), data)
  }
}
