# Twitch channel status page: channel store and page build

This project models the page script `js/app.js` of a small web page. The page
lists a fixed set of Twitch channels and shows, for each one, whether it is
streaming, offline or suspended. The model covers the channel store and the
two result handlers that change its records, the poll cycle, and the page
build. The build derives one card per channel and lays the cards out in three
groups: streaming first, then offline, then suspended, each group in key order.

Modules:

- `Decimal` (`decimal.dfy`): the decimal numeral that `viewers + " viewers"`
  prints, with its parser, so that the badge can be read back.
- `ChannelRecord` (`record.dfy`): the record of one channel, the metadata
  handler (`ApplyChannelData`), the stream handler (`ApplyStreams`), and one
  poll of one channel (`Poll`). It also has a replay of a sequence of results,
  used to state the status state machine.
- `Render` (`render.dfy`):
  - the badge text and the parts of a card (`Card`);
  - the three status groups (`Group`) and the page order (`RenderOrder`);
  - the page as a function of the store (`Page`).
- `TwitchApp` (`app.dfy`): class `App` holds the store.
  - Its fields are `order` (the key order of the channel map), `data` (the
    channel map), `html` (the card each record carries after a build) and
    `channelList` (the page region).
  - Its methods are `Init`, `OnChannelData`, `OnStreams`, `UpdateStatus`,
    `Build` and `Insert`. Each one updates those fields in place.
  - Each method is proved against the functions of `ChannelRecord`,
    `Render` and `TwitchApp` itself (`Seeded` for `Init`, `Flatten` for
    `Insert`).
- `Scenarios` (`scenario.dfy`): two complete runs on `App`, from the seed to
  the page.

Records are values in the map `data`. A handler replaces the record of its
channel. In the script the record is an object with several aliases: the
handler closures capture it as `data` (js/app.js:28, 56) and write through
it, the build pushes it into `streaming`, `offline` or `suspended`
(js/app.js:205-211), and `insert` reads `channel.html` through that alias
(js/app.js:223). Each entry of the channel map is created once
(js/app.js:25) and never reassigned, so every alias reaches the record the
map holds, and writing through any of them is replacing that map entry.

## Model

| member | source | states |
|---|---|---|
| Decimal.NatToString | js/app.js:152 | the viewer count prints as a non-empty string of digits with no leading zero |
| Decimal.ParseNatToString | js/app.js:152 | reading the printed count back gives the count: printing loses nothing |
| Decimal.NatToStringInjective | js/app.js:152 | different viewer counts print differently |
| ChannelRecord.ApplyChannelData | js/app.js:33-45 | success copies logo, display name, url and status title into logo, displayName, url, activity, leaving status, colour and stream alone; HTTP 422 sets suspended, danger and displayName = identifier and nothing else; any other failure leaves the record unchanged |
| ChannelRecord.ApplyStreams | js/app.js:64-76 | a live stream gives streaming, success and a copy of game, preview and viewers; no stream gives offline, warning and the empty stream object; no other field changes |
| ChannelRecord.Poll | js/app.js:56-77 | a suspended record is skipped and stays exactly as it is; otherwise the stream handler applies; a poll never makes a record suspended or un-suspends one |
| ChannelRecord.SuspendedIsTerminal | js/app.js:40-76 | after any sequence of metadata and poll results, a suspended record is still suspended |
| ChannelRecord.PollsLeaveSuspendedUnchanged | js/app.js:58-76 | any number of polls leave a suspended record unchanged in every field |
| ChannelRecord.SuspendedOnlyBy422 | js/app.js:40-76 | a record that ends suspended and did not start so has received a metadata failure with code 422 |
| ChannelRecord.SeedLeavesUnsetOrSuspended | js/app.js:33-45 | metadata results alone leave an unset record unset or suspended, never streaming or offline |
| ChannelRecord.WellFormedPreserved | js/app.js:64-76 | every result keeps the invariant that a streaming record holds a live stream |
| Render.StatusText | js/app.js:42-74 | each status word is non-empty and lower-case |
| Render.Capitalize | js/app.js:149 | the first character is upper-cased and the rest is unchanged; a lower-case first letter lower-cases back; any other first character is kept |
| Render.BadgeShowsViewers | js/app.js:151-153 | a live badge is a decimal numeral followed by " viewers", and the numeral reads back as the viewer count |
| Render.BadgeNamesStatus | js/app.js:147-149 | any other badge starts with an upper-case letter and lower-casing that letter gives the status word |
| Render.LogoSource | js/app.js:133 | a present, non-empty logo is used; otherwise the default image; never empty |
| Render.CardReadsBack | js/app.js:112-200 | a card names its channel in the alt text; its panel or badge word gives back the record's status, and its links give back the channel url |
| Render.CardContents | js/app.js:112-200 | a card has two parts when streaming and one otherwise; the list item carries the logo (or default), the identifier as alt text, the display name, the badge and its colour, and the activity; a live item links to "#collapse-" + identifier and toggles the panel; the panel has id "collapse-" + identifier, links to the channel url in a new tab and shows the preview with alt text "Stream preview."; any other item links to the url in a new tab |
| Render.GroupMembers | js/app.js:203-212 | a status group holds exactly the keys whose record has that status |
| Render.GroupStep | js/app.js:203-212 | one more key extends a group by that key exactly when its record has the group's status |
| Render.GroupSeesOnlyStatus | js/app.js:203-212 | the grouping depends on nothing of a record but its status |
| Render.GroupKeepsKeyOrder | js/app.js:203-212 | the partition is stable: each group lists its channels in key order |
| Render.RenderOrderMembers | js/app.js:203-216 | exactly the keys whose record has a status reach the page: the switch without default drops a record with none |
| Render.RenderOrderIsGrouped | js/app.js:203-216 | on the page, every streaming card precedes every offline card, which precedes every suspended card |
| Render.RenderOrderIsPermutation | js/app.js:203-216 | the page order holds each key with a status exactly as often as the keys do, and nothing else |
| Render.PlacedAll | js/app.js:203-212 | once every record has a status, every key is placed |
| Render.HtmlAppend | js/app.js:219-225 | appending two runs of channels one after the other gives the markup of their concatenation |
| Render.CardMapHoldsCards | js/app.js:166-200 | after the pass, every key, and nothing else, carries its own card |
| Render.HtmlOfCards | js/app.js:219-225 | stored markup that holds each channel's card lays out as those cards |
| TwitchApp.SeededMembers | js/app.js:23-26 | after the seed, the keys are exactly the old keys and the listed identifiers |
| TwitchApp.SeededExtends | js/app.js:23-26 | the seed keeps the old keys in place and never adds a key that exists or one twice |
| TwitchApp.SeededFollowsList | js/app.js:23-26 | the keys the seed adds are listed identifiers, in the order of their first occurrence in the list |
| TwitchApp.SeedRecords | js/app.js:23-26 | the seed's pass gives every listed identifier a record, keeps each existing record as it is, and makes each new record blank |
| TwitchApp.App.constructor | js/app.js:13-17 | the store starts with the given list and an empty channel map |
| TwitchApp.App.Init | js/app.js:19-27 | the key order becomes the seeded order; existing records are kept; new records are blank; the store stays consistent |
| TwitchApp.App.OnChannelData | js/app.js:33-45 | only the channel's own record changes, and it changes as `ApplyChannelData` says |
| TwitchApp.App.OnStreams | js/app.js:62-77 | only the channel's own record changes, and it changes as `ApplyStreams` says |
| TwitchApp.App.UpdateStatus | js/app.js:50-79 | after a cycle, each record is the `Poll` of its old value with its answer; a channel without an answer is unchanged; no key is added or lost |
| TwitchApp.RenderChannels | js/app.js:108-213 | the pass over the keys gives each key its card and pushes each key into the group of its status, in key order |
| TwitchApp.BuildPage | js/app.js:215-216 | the three groups laid end to end are the page order, and their stored cards make the page |
| TwitchApp.App.Build | js/app.js:92-217 | the store is unchanged; every record carries its card; the page region holds the page: the streaming, offline and suspended cards in key order within each group |
| TwitchApp.App.Insert | js/app.js:219-225 | the page region is emptied, then holds each group's stored cards, group after group, in order |
| TwitchApp.AppendCards | js/app.js:221-224 | appending one group adds that group's stored cards, in order, to what was there |
| Scenarios.LiveChannel | js/app.js:19-225 | a channel with metadata, then no stream, then 42 viewers, shows one live card with badge "42 viewers" and its preview panel |
| Scenarios.SuspendedChannel | js/app.js:19-225 | a channel whose metadata fails with 422 stays suspended through a poll and shows one card with badge "Suspended", colour danger and its identifier as name |

The lemmas above are about these functions, each of which follows part of
the script:

- `ChannelRecord.Step` and `ChannelRecord.Replay` (js/app.js:33-45, 62-77):
  one metadata or poll result applied to a record, and a sequence of them.
- `TwitchApp.Seeded` (js/app.js:23-26): the key order after the seed.
- `Render.Badge` (js/app.js:147-153): the badge text.
- `Render.Card` (js/app.js:112-200): the list item and, when live, the
  collapse panel.
- `Render.Group` (js/app.js:203-212): one status group, in key order.
- `Render.RenderOrder` (js/app.js:203-216): the three groups end to end.
- `Render.Placed` (js/app.js:203-212): the keys whose record has a status.
- `Render.CardMap` (js/app.js:166-200): the card each key carries after the
  build.
- `Render.Html` and `Render.Cards` (js/app.js:219-225): the stored markup of
  a run of keys, and the cards of a run of keys.
- `Render.Page` (js/app.js:92-225): the page region after a build.

Facts about js/app.js that the model follows:

- A record whose status was never written makes the build throw at
  js/app.js:149, where the badge reads the first character of `status`.
  `App.Build` therefore requires every record to have a status.
  `Render.RenderOrderMembers` shows that the switch at js/app.js:203-212,
  which has no default case, would leave such a record off the page.
- The offline branch stores an empty object in `stream` (js/app.js:73); it
  does not remove the field.
- The display name is set to the identifier only on the 422 path
  (js/app.js:44). A record whose metadata never arrived has no display name.
- `status` holds one of three words once a handler has written it, and is
  unset before that; the script writes no other value.

## Left out

- HTTP calls (js/app.js:3-10): responses are arguments of the handlers and of
  `UpdateStatus` (a map from channel to answer; a channel missing from it is a
  request that failed).
- Promise scheduling: the model applies results one at a time. `OnStreams`
  does not re-check the status, as in the script. A poll answer that arrives
  after a 422 therefore overwrites the suspension. `UpdateStatus` and `Poll`
  model a poll whose answer arrives before any later metadata result.
- Timers (js/app.js:82-89, 233-235): the one-second delays, and the repeated
  `setInterval` that `update` registers on every cycle.
- jQuery and the DOM: a card is the abstract `Part` list, with the attribute
  values the script sets. CSS classes and element nesting are left out.
  `channelList` is the content of `#channel-list`.
- The hard-coded channel list (js/app.js:15) is the constructor argument.
- `Object.keys` lists integer-like keys first. The model keeps plain
  insertion order, which is what the listed channel names give.
- TwitchApp.App.OnChannelData: a failure without an HTTP response throws inside the
  catch handler before any write (js/app.js:41). This is modelled as
  `NoResponse` leaving the record unchanged.
- Render.Capitalize: upper-cases ASCII letters only. `toUpperCase` maps other
  scripts too, but only the three ASCII status words reach it.
- Decimal.NatToString: viewer counts are natural numbers. JavaScript's
  exponent notation for numbers from 1e21 up is not modelled.
- The `html` property each record carries is the separate map field `html`,
  keyed like `data`. The three groups hold channel keys, not record objects.
  `Insert` looks each card up by key, and a key without stored markup appends
  nothing, as appending `undefined` does.
- The stream preview: the script stores the whole `preview` object and the
  build shows `preview.large` (js/app.js:189). `Stream` keeps only that url,
  so a live stream whose preview is null, on which the build throws, is not
  modelled.
