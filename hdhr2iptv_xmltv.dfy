/**
 * generate_xmltv of the current converter: for every discovered tuner with a
 * DeviceID, read its lineup, write its playlist, then for every channel not
 * yet seen fetch the live guide, emit the channel element and walk the pages
 * of its guide, remembering the channel number so that a second tuner with
 * the same channel does not fetch it again.
 */
module Hdhr2IptvXmltv {
  import opened Wrappers
  import opened Xml
  import opened Clock
  import opened Hdhr
  import opened Hdhr2IptvProgram
  import opened Hdhr2IptvPlaylist
  import opened Hdhr2IptvCache
  import opened Hdhr2IptvGuide

  // ---------------------------------------------------------------------
  // One channel of a lineup

  /** What one channel adds to the document and the request log, the cache after it, and how it ended. */
  datatype Run = Run(elements: seq<Element>, fetched: seq<Request>, cache: map<CacheKey, Response>, status: Status)

  /**
   * The body of the lineup loop for a channel that is not yet parsed: the
   * live request (no Start, not cached), then nothing when the response has
   * no first element, a KeyError for the empty object, and otherwise the
   * channel element followed by the walk over the channel's guide pages.
   */
  function ChannelRun(
    pages: map<Request, Response>, auth: string, channel: LineupChannel, clock: Clock,
    cache: map<CacheKey, Response>, fuel: nat): Run
  {
    var live := Request(auth, channel.guideNumber, None);
    match Fetch(pages, live)
    case Err(fault) => Run([], [live], cache, Failed(fault))
    case Ok(response) =>
      match First(response)
      case None => Run([], [live], cache, Finished)
      case Some(Blank) => Run([], [live], cache, Failed(KeyError))
      case Some(Listing(info, guide)) =>
        var w := Follow(pages, Converter(channel.guideNumber, clock), auth, channel.guideNumber, guide, cache, fuel);
        Run([ChannelElement(channel, info)] + w.elements, [live] + w.fetched, w.cache, w.status)
  }

  /** A programme element of the given channel number. */
  predicate OfChannel(e: Element, number: string) {
    e.tag == "programme" && |e.attributes| >= 1 && e.attributes[0] == ("channel", number)
  }

  /**
   * A channel's first page is asked for live exactly once, every other
   * request of the channel carries a Start, and all of them use the device's
   * auth and the channel's number.
   */
  lemma ChannelRequests(
    pages: map<Request, Response>, auth: string, channel: LineupChannel, clock: Clock,
    cache: map<CacheKey, Response>, fuel: nat)
    ensures var r := ChannelRun(pages, auth, channel, clock, cache, fuel);
      LiveChannels(r.fetched) == [channel.guideNumber]
      && (forall i :: 0 <= i < |r.fetched| ==> r.fetched[i].auth == auth && r.fetched[i].channel == channel.guideNumber)
  {
    var live := Request(auth, channel.guideNumber, None);
    assert LiveChannels([live]) == [channel.guideNumber] by {
      assert [live][..0] == [];
    }
    var response := Fetch(pages, live);
    if response.Ok? && First(response.value).Some? && First(response.value).value.Listing? {
      var info, guide := First(response.value).value.info, First(response.value).value.guide;
      var w := Follow(pages, Converter(channel.guideNumber, clock), auth, channel.guideNumber, guide, cache, fuel);
      FollowRequests(pages, Converter(channel.guideNumber, clock), auth, channel.guideNumber, guide, cache, fuel);
      LiveChannelsConcat([live], w.fetched);
      assert forall i :: 1 <= i < |[live] + w.fetched| ==> ([live] + w.fetched)[i] == w.fetched[i - 1];
    }
  }

  /** The channel element comes first and everything after it is a programme of that channel. */
  lemma ChannelElements(
    pages: map<Request, Response>, auth: string, channel: LineupChannel, clock: Clock,
    cache: map<CacheKey, Response>, fuel: nat)
    ensures var r := ChannelRun(pages, auth, channel, clock, cache, fuel);
      var response := Fetch(pages, Request(auth, channel.guideNumber, None));
      (r.elements != [] <==> response.Ok? && First(response.value).Some? && First(response.value).value.Listing?)
      && (r.elements != [] ==> r.elements[0] == ChannelElement(channel, First(response.value).value.info))
      && (forall i :: 1 <= i < |r.elements| ==> OfChannel(r.elements[i], channel.guideNumber))
  {
    var response := Fetch(pages, Request(auth, channel.guideNumber, None));
    if response.Ok? && First(response.value).Some? && First(response.value).value.Listing? {
      var guide := First(response.value).value.guide;
      var convert := Converter(channel.guideNumber, clock);
      ConverterConverts(channel.guideNumber, clock);
      FollowProgrammes(pages, convert, auth, channel.guideNumber, guide, cache, fuel, clock);
      assert var w := Follow(pages, convert, auth, channel.guideNumber, guide, cache, fuel);
        forall i :: 0 <= i < |w.elements| ==> OfChannel(w.elements[i], channel.guideNumber);
    }
  }

  /** Stored pages survive a channel unchanged, and every page it adds is storable. */
  lemma ChannelCache(
    pages: map<Request, Response>, auth: string, channel: LineupChannel, clock: Clock,
    cache: map<CacheKey, Response>, fuel: nat)
    ensures var r := ChannelRun(pages, auth, channel, clock, cache, fuel);
      (forall k :: k in cache ==> k in r.cache && r.cache[k] == cache[k])
      && (forall k :: k in r.cache && k !in cache ==> Storable(r.cache[k]))
  {
    var response := Fetch(pages, Request(auth, channel.guideNumber, None));
    if response.Ok? && First(response.value).Some? && First(response.value).value.Listing? {
      var guide := First(response.value).value.guide;
      FollowCache(pages, Converter(channel.guideNumber, clock), auth, channel.guideNumber, guide, cache, fuel);
    }
  }

  // ---------------------------------------------------------------------
  // The programmes of a walk belong to its channel

  /** parse_program tags its element with the channel number it is given. */
  lemma ProgrammeChannel(p: Program, channel: string, clock: Clock)
    requires Programme(p, channel, clock).Ok?
    ensures OfChannel(Programme(p, channel, clock).value, channel)
  {
    var season, episode := SeasonEpisode(p, clock).value.0, SeasonEpisode(p, clock).value.1;
    ProgrammeOf(p, channel, clock, season, episode);
  }

  lemma ConvertChannel(guide: seq<Program>, channel: string, clock: Clock)
    ensures forall i :: 0 <= i < |Convert(guide, channel, clock).elements| ==>
      OfChannel(Convert(guide, channel, clock).elements[i], channel)
  {
    var elements := Convert(guide, channel, clock).elements;
    ConvertPrefix(guide, channel, clock);
    forall i | 0 <= i < |elements|
      ensures OfChannel(elements[i], channel)
    {
      ProgrammeChannel(guide[i], channel, clock);
    }
  }

  lemma {:induction false} FollowProgrammes(
    pages: map<Request, Response>, convert: seq<Program> -> Converted, auth: string, channel: string,
    guide: seq<Program>, cache: map<CacheKey, Response>, fuel: nat, clock: Clock)
    requires Converts(convert, channel, clock)
    ensures var w := Follow(pages, convert, auth, channel, guide, cache, fuel);
      forall i :: 0 <= i < |w.elements| ==> OfChannel(w.elements[i], channel)
    decreases fuel, 1
  {
    var w := Follow(pages, convert, auth, channel, guide, cache, fuel);
    var converted := Convert(guide, channel, clock);
    assert convert(guide) == converted;
    ConvertChannel(guide, channel, clock);
    if converted.fault.None? && fuel > 0 {
      var a := Ask(pages, convert, auth, channel, LastEnd(guide) + 1, cache, fuel - 1);
      AskProgrammes(pages, convert, auth, channel, LastEnd(guide) + 1, cache, fuel - 1, clock);
      assert var b := Ask(pages, convert, auth, channel, LastEnd(guide) + 1, cache, fuel - 1);
        forall i :: 0 <= i < |b.elements| ==> OfChannel(b.elements[i], channel);
      assert w.elements == converted.elements + a.elements;
    }
  }

  lemma {:induction false} AskProgrammes(
    pages: map<Request, Response>, convert: seq<Program> -> Converted, auth: string, channel: string,
    start: int, cache: map<CacheKey, Response>, fuel: nat, clock: Clock)
    requires Converts(convert, channel, clock)
    ensures var a := Ask(pages, convert, auth, channel, start, cache, fuel);
      forall i :: 0 <= i < |a.elements| ==> OfChannel(a.elements[i], channel)
    decreases fuel + 1, 0
  {
    var l := CachedGuide(cache, pages, auth, channel, start);
    var v := Judge(l.result);
    if v.stop.None? {
      FollowProgrammes(pages, convert, auth, channel, v.next, l.entries, fuel, clock);
      assert var w := Follow(pages, convert, auth, channel, v.next, l.entries, fuel);
        forall i :: 0 <= i < |w.elements| ==> OfChannel(w.elements[i], channel);
    }
  }

  /**
   * The body of the lineup loop for a channel not yet parsed, over the
   * document, the guide API and the cache.
   */
  method ChannelGuide(
    root: Document, api: GuideApi, cache: GuideCache, clock: Clock,
    auth: string, channel: LineupChannel, fuel: nat) returns (status: Status)
    modifies root, api, cache
    ensures var r := ChannelRun(api.pages, auth, channel, clock, old(cache.entries), fuel);
      status == r.status && root.children == old(root.children) + r.elements
      && api.log == old(api.log) + r.fetched && cache.entries == r.cache
  {
    var live := api.Get(Request(auth, channel.guideNumber, None));
    if live.Err? {
      return Failed(live.fault);
    }
    var channelData := First(live.value);
    if channelData.None? {
      return Finished;
    }
    if channelData.value.Blank? {
      return Failed(KeyError);
    }
    var element := ParseChannel(root, channel, channelData.value.info);
    ConverterConverts(channel.guideNumber, clock);
    ghost var children, log := root.children, api.log;
    status := Paginate(root, api, cache, clock, auth, channel.guideNumber, channelData.value.guide, fuel,
                       Converter(channel.guideNumber, clock));
    ghost var w := Follow(api.pages, Converter(channel.guideNumber, clock), auth, channel.guideNumber,
                          channelData.value.guide, old(cache.entries), fuel);
    Regroup(old(root.children), [element], w.elements);
    Regroup(old(api.log), [Request(auth, channel.guideNumber, None)], w.fetched);
  }

  // ---------------------------------------------------------------------
  // The lineup loop

  /**
   * What generate_xmltv carries from channel to channel: parsed_channels, the
   * document's sub-elements, the log of guide requests, the cache, and
   * whether the run is still going (Finished) or has stopped.
   */
  datatype Progress = Progress(
    parsed: seq<string>, elements: seq<Element>, fetched: seq<Request>,
    cache: map<CacheKey, Response>, status: Status)

  /** One pass of the lineup loop: a channel number already parsed is skipped. */
  function ChannelStep(
    pages: map<Request, Response>, auth: string, clock: Clock, fuel: nat, prev: Progress, channel: LineupChannel): Progress
  {
    if channel.guideNumber in prev.parsed then prev
    else
      var r := ChannelRun(pages, auth, channel, clock, prev.cache, fuel);
      Progress(
        if r.status == Finished then prev.parsed + [channel.guideNumber] else prev.parsed,
        prev.elements + r.elements, prev.fetched + r.fetched, r.cache, r.status)
  }

  /** The lineup loop from `start`; the first channel that fails stops the run. */
  function LineupRun(
    pages: map<Request, Response>, auth: string, lineup: seq<LineupChannel>, clock: Clock, fuel: nat, start: Progress): Progress
    decreases |lineup|
  {
    if lineup == [] then start
    else
      var prev := LineupRun(pages, auth, lineup[..|lineup| - 1], clock, fuel, start);
      if prev.status != Finished then prev else ChannelStep(pages, auth, clock, fuel, prev, lineup[|lineup| - 1])
  }

  /** The channel numbers of a lineup, in order. */
  function Numbers(lineup: seq<LineupChannel>): (r: seq<string>)
    ensures |r| == |lineup|
    ensures forall i :: 0 <= i < |lineup| ==> r[i] == lineup[i].guideNumber
  {
    seq(|lineup|, i requires 0 <= i < |lineup| => lineup[i].guideNumber)
  }

  /**
   * A lineup that completes adds to parsed_channels exactly its channel
   * numbers not parsed before, each once and in lineup order, and asks for
   * the live first page of exactly those channels, in the same order.
   */
  lemma {:induction false} LineupDedup(
    pages: map<Request, Response>, auth: string, lineup: seq<LineupChannel>, clock: Clock, fuel: nat, start: Progress)
    requires start.status == Finished
    ensures var r := LineupRun(pages, auth, lineup, clock, fuel, start);
      var added := Fresh(Numbers(lineup), start.parsed);
      r.status == Finished ==>
        r.parsed == start.parsed + added && LiveChannels(r.fetched) == LiveChannels(start.fetched) + added
    decreases |lineup|
  {
    if lineup != [] {
      var init, channel := lineup[..|lineup| - 1], lineup[|lineup| - 1];
      var prev := LineupRun(pages, auth, init, clock, fuel, start);
      LineupDedup(pages, auth, init, clock, fuel, start);
      assert Numbers(lineup)[..|lineup| - 1] == Numbers(init);
      if prev.status == Finished && channel.guideNumber !in prev.parsed {
        var r := ChannelRun(pages, auth, channel, clock, prev.cache, fuel);
        ChannelRequests(pages, auth, channel, clock, prev.cache, fuel);
        LiveChannelsConcat(prev.fetched, r.fetched);
      }
    }
  }

  /** Once the run has stopped, the rest of the lineup changes nothing. */
  lemma {:induction false} LineupSticky(
    pages: map<Request, Response>, auth: string, lineup: seq<LineupChannel>, clock: Clock, fuel: nat, start: Progress, n: nat)
    requires n <= |lineup|
    requires LineupRun(pages, auth, lineup[..n], clock, fuel, start).status != Finished
    ensures LineupRun(pages, auth, lineup, clock, fuel, start) == LineupRun(pages, auth, lineup[..n], clock, fuel, start)
    decreases |lineup| - n
  {
    if n < |lineup| {
      assert lineup[..n + 1][..n] == lineup[..n];
      LineupSticky(pages, auth, lineup, clock, fuel, start, n + 1);
    } else {
      assert lineup[..n] == lineup;
    }
  }

  /** Stored pages survive a lineup unchanged, and every page it adds is storable. */
  lemma {:induction false} LineupCache(
    pages: map<Request, Response>, auth: string, lineup: seq<LineupChannel>, clock: Clock, fuel: nat, start: Progress)
    ensures var r := LineupRun(pages, auth, lineup, clock, fuel, start);
      (forall k :: k in start.cache ==> k in r.cache && r.cache[k] == start.cache[k])
      && (forall k :: k in r.cache && k !in start.cache ==> Storable(r.cache[k]))
    decreases |lineup|
  {
    if lineup != [] {
      var init, channel := lineup[..|lineup| - 1], lineup[|lineup| - 1];
      var prev := LineupRun(pages, auth, init, clock, fuel, start);
      LineupCache(pages, auth, init, clock, fuel, start);
      if prev.status == Finished && channel.guideNumber !in prev.parsed {
        ChannelCache(pages, auth, channel, clock, prev.cache, fuel);
      }
    }
  }

  /** `for channel in lineup`, over the document, the guide API and the cache. */
  method LineupGuide(
    root: Document, api: GuideApi, cache: GuideCache, clock: Clock,
    auth: string, lineup: seq<LineupChannel>, fuel: nat, parsed: seq<string>)
    returns (parsedOut: seq<string>, status: Status)
    modifies root, api, cache
    ensures var r := LineupRun(api.pages, auth, lineup, clock, fuel,
                               Progress(parsed, old(root.children), old(api.log), old(cache.entries), Finished));
      parsedOut == r.parsed && root.children == r.elements && api.log == r.fetched
      && cache.entries == r.cache && status == r.status
  {
    ghost var start := Progress(parsed, root.children, api.log, cache.entries, Finished);
    parsedOut, status := parsed, Finished;
    for i := 0 to |lineup|
      invariant var r := LineupRun(api.pages, auth, lineup[..i], clock, fuel, start);
        parsedOut == r.parsed && root.children == r.elements && api.log == r.fetched
        && cache.entries == r.cache && status == r.status == Finished
    {
      parsedOut, status := LineupStep(root, api, cache, clock, auth, lineup, i, fuel, parsedOut, start);
      if status != Finished {
        LineupSticky(api.pages, auth, lineup, clock, fuel, start, i + 1);
        return;
      }
    }
    assert lineup[..|lineup|] == lineup;
  }

  method LineupStep(
    root: Document, api: GuideApi, cache: GuideCache, clock: Clock,
    auth: string, lineup: seq<LineupChannel>, i: nat, fuel: nat, parsed: seq<string>, ghost start: Progress)
    returns (parsedOut: seq<string>, status: Status)
    requires i < |lineup|
    requires var r := LineupRun(api.pages, auth, lineup[..i], clock, fuel, start);
      parsed == r.parsed && root.children == r.elements && api.log == r.fetched
      && cache.entries == r.cache && r.status == Finished
    modifies root, api, cache
    ensures var r := LineupRun(api.pages, auth, lineup[..i + 1], clock, fuel, start);
      parsedOut == r.parsed && root.children == r.elements && api.log == r.fetched
      && cache.entries == r.cache && status == r.status
  {
    assert lineup[..i + 1][..i] == lineup[..i];
    var channel := lineup[i];
    if channel.guideNumber in parsed {
      return parsed, Finished;
    }
    status := ChannelGuide(root, api, cache, clock, auth, channel, fuel);
    parsedOut := if status == Finished then parsed + [channel.guideNumber] else parsed;
  }

  // ---------------------------------------------------------------------
  // The device loop

  /** The run so far and the playlists written, as (DeviceID, file text) in order. */
  datatype Generation = Generation(progress: Progress, playlists: seq<(string, string)>)

  /**
   * One pass of the device loop over the lineup documents by URL (None for
   * JSON null): a device without DeviceID is passed over; the playlist is
   * written before the lineup is walked, and a null lineup fails there
   * already, since generate_m3u iterates it.
   */
  function DeviceStep(
    pages: map<Request, Response>, lineups: map<string, Option<seq<LineupChannel>>>, clock: Clock, fuel: nat,
    prev: Generation, device: Device): Generation
  {
    if device.deviceId.None? then prev
    else if device.lineupUrl !in lineups then Generation(prev.progress.(status := Failed(TransportError)), prev.playlists)
    else
      match lineups[device.lineupUrl]
      case None => Generation(prev.progress.(status := Failed(TypeError)), prev.playlists)
      case Some(lineup) =>
        Generation(
          LineupRun(pages, device.deviceAuth, lineup, clock, fuel, prev.progress),
          prev.playlists + [(device.deviceId.value, PlaylistText(lineup))])
  }

  /** The device loop from `start`; the first failure stops the run. */
  function DevicesRun(
    pages: map<Request, Response>, lineups: map<string, Option<seq<LineupChannel>>>, devices: seq<Device>,
    clock: Clock, fuel: nat, start: Generation): Generation
    decreases |devices|
  {
    if devices == [] then start
    else
      var prev := DevicesRun(pages, lineups, devices[..|devices| - 1], clock, fuel, start);
      if prev.progress.status != Finished then prev
      else DeviceStep(pages, lineups, clock, fuel, prev, devices[|devices| - 1])
  }

  /** The playlists of the devices that have a DeviceID and a lineup, in device order. */
  function Playlists(lineups: map<string, Option<seq<LineupChannel>>>, devices: seq<Device>): seq<(string, string)>
    decreases |devices|
  {
    if devices == [] then []
    else
      var d := devices[|devices| - 1];
      Playlists(lineups, devices[..|devices| - 1])
      + if d.deviceId.Some? && d.lineupUrl in lineups && lineups[d.lineupUrl].Some?
        then [(d.deviceId.value, PlaylistText(lineups[d.lineupUrl].value))] else []
  }

  /**
   * From `before` to `after`, parsed_channels only grew and stayed free of
   * repetitions, and the live first pages asked for in between are exactly
   * the channel numbers it gained, in order.
   */
  predicate Gained(before: Progress, after: Progress) {
    |before.parsed| <= |after.parsed| && after.parsed[..|before.parsed|] == before.parsed
    && LiveChannels(after.fetched) == LiveChannels(before.fetched) + after.parsed[|before.parsed|..]
    && Distinct(after.parsed)
  }

  lemma GainedTrans(a: Progress, b: Progress, c: Progress)
    requires Gained(a, b) && Gained(b, c)
    ensures Gained(a, c)
  {
    var x, y := b.parsed[|a.parsed|..], c.parsed[|b.parsed|..];
    assert c.parsed == b.parsed + y;
    assert b.parsed == a.parsed + x;
    assert c.parsed == a.parsed + (x + y);
  }

  /** A completed lineup gains exactly its fresh channel numbers. */
  lemma LineupGained(
    pages: map<Request, Response>, auth: string, lineup: seq<LineupChannel>, clock: Clock, fuel: nat, start: Progress)
    requires start.status == Finished && Distinct(start.parsed)
    ensures var r := LineupRun(pages, auth, lineup, clock, fuel, start);
      r.status == Finished ==> Gained(start, r)
  {
    var r := LineupRun(pages, auth, lineup, clock, fuel, start);
    LineupDedup(pages, auth, lineup, clock, fuel, start);
    FreshDistinct(Numbers(lineup), start.parsed);
    if r.status == Finished {
      assert r.parsed[..|start.parsed|] == start.parsed;
      assert r.parsed[|start.parsed|..] == Fresh(Numbers(lineup), start.parsed);
    }
  }

  /**
   * Across all devices no channel is fetched live twice, however many tuners
   * carry it: the live first pages asked for are exactly the channel numbers
   * parsed_channels gained, which stays free of repetitions.
   */
  lemma {:induction false} DevicesDedup(
    pages: map<Request, Response>, lineups: map<string, Option<seq<LineupChannel>>>, devices: seq<Device>,
    clock: Clock, fuel: nat, start: Generation)
    requires start.progress.status == Finished && Distinct(start.progress.parsed)
    ensures var g := DevicesRun(pages, lineups, devices, clock, fuel, start);
      g.progress.status == Finished ==> Gained(start.progress, g.progress)
    decreases |devices|
  {
    var p := start.progress;
    if devices == [] {
      assert p.parsed[..|p.parsed|] == p.parsed && p.parsed[|p.parsed|..] == [];
    } else {
      var init, device := devices[..|devices| - 1], devices[|devices| - 1];
      var prev := DevicesRun(pages, lineups, init, clock, fuel, start);
      DevicesDedup(pages, lineups, init, clock, fuel, start);
      if prev.progress.status == Finished && device.deviceId.Some? && device.lineupUrl in lineups
         && lineups[device.lineupUrl].Some?
      {
        var lineup := lineups[device.lineupUrl].value;
        var r := LineupRun(pages, device.deviceAuth, lineup, clock, fuel, prev.progress);
        LineupGained(pages, device.deviceAuth, lineup, clock, fuel, prev.progress);
        if r.status == Finished {
          GainedTrans(p, prev.progress, r);
        }
      }
    }
  }

  /** Stored pages survive the run unchanged, and every page it adds is storable. */
  lemma {:induction false} DevicesCache(
    pages: map<Request, Response>, lineups: map<string, Option<seq<LineupChannel>>>, devices: seq<Device>,
    clock: Clock, fuel: nat, start: Generation)
    ensures var g := DevicesRun(pages, lineups, devices, clock, fuel, start);
      (forall k :: k in start.progress.cache ==> k in g.progress.cache && g.progress.cache[k] == start.progress.cache[k])
      && (forall k :: k in g.progress.cache && k !in start.progress.cache ==> Storable(g.progress.cache[k]))
    decreases |devices|
  {
    if devices != [] {
      var init, device := devices[..|devices| - 1], devices[|devices| - 1];
      var prev := DevicesRun(pages, lineups, init, clock, fuel, start);
      DevicesCache(pages, lineups, init, clock, fuel, start);
      if prev.progress.status == Finished && device.deviceId.Some? && device.lineupUrl in lineups
         && lineups[device.lineupUrl].Some?
      {
        LineupCache(pages, device.deviceAuth, lineups[device.lineupUrl].value, clock, fuel, prev.progress);
      }
    }
  }

  /** A run that completes has written one playlist per device with a DeviceID, in device order. */
  lemma {:induction false} DevicesPlaylists(
    pages: map<Request, Response>, lineups: map<string, Option<seq<LineupChannel>>>, devices: seq<Device>,
    clock: Clock, fuel: nat, start: Generation)
    ensures var g := DevicesRun(pages, lineups, devices, clock, fuel, start);
      g.progress.status == Finished ==>
        g.playlists == start.playlists + Playlists(lineups, devices)
    decreases |devices|
  {
    if devices != [] {
      var init, device := devices[..|devices| - 1], devices[|devices| - 1];
      var prev := DevicesRun(pages, lineups, init, clock, fuel, start);
      DevicesPlaylists(pages, lineups, init, clock, fuel, start);
      if prev.progress.status == Finished {
        var g := DeviceStep(pages, lineups, clock, fuel, prev, device);
        var written := if device.deviceId.Some? && device.lineupUrl in lineups && lineups[device.lineupUrl].Some?
          then [(device.deviceId.value, PlaylistText(lineups[device.lineupUrl].value))] else [];
        assert g.playlists == prev.playlists + written;
        Regroup(start.playlists, Playlists(lineups, init), written);
      }
    }
  }

  /** A run that completes found the lineup of every device with a DeviceID. */
  lemma {:induction false} DevicesLineups(
    pages: map<Request, Response>, lineups: map<string, Option<seq<LineupChannel>>>, devices: seq<Device>,
    clock: Clock, fuel: nat, start: Generation)
    ensures var g := DevicesRun(pages, lineups, devices, clock, fuel, start);
      g.progress.status == Finished ==>
        forall i :: 0 <= i < |devices| && devices[i].deviceId.Some? ==>
          devices[i].lineupUrl in lineups && lineups[devices[i].lineupUrl].Some?
    decreases |devices|
  {
    if devices != [] {
      var init := devices[..|devices| - 1];
      DevicesLineups(pages, lineups, init, clock, fuel, start);
      DevicesStopped(pages, lineups, devices, clock, fuel, start, |devices| - 1);
    }
  }

  /** A run that completes completed every prefix of its devices. */
  lemma {:induction false} DevicesStopped(
    pages: map<Request, Response>, lineups: map<string, Option<seq<LineupChannel>>>, devices: seq<Device>,
    clock: Clock, fuel: nat, start: Generation, n: nat)
    requires n <= |devices|
    ensures DevicesRun(pages, lineups, devices, clock, fuel, start).progress.status == Finished ==>
      DevicesRun(pages, lineups, devices[..n], clock, fuel, start).progress.status == Finished
  {
    if DevicesRun(pages, lineups, devices[..n], clock, fuel, start).progress.status != Finished {
      DevicesSticky(pages, lineups, devices, clock, fuel, start, n);
    }
  }

  /** Once the run has stopped, the remaining devices change nothing. */
  lemma {:induction false} DevicesSticky(
    pages: map<Request, Response>, lineups: map<string, Option<seq<LineupChannel>>>, devices: seq<Device>,
    clock: Clock, fuel: nat, start: Generation, n: nat)
    requires n <= |devices|
    requires DevicesRun(pages, lineups, devices[..n], clock, fuel, start).progress.status != Finished
    ensures DevicesRun(pages, lineups, devices, clock, fuel, start) == DevicesRun(pages, lineups, devices[..n], clock, fuel, start)
    decreases |devices| - n
  {
    if n < |devices| {
      assert devices[..n + 1][..n] == devices[..n];
      DevicesSticky(pages, lineups, devices, clock, fuel, start, n + 1);
    } else {
      assert devices[..n] == devices;
    }
  }

  /**
   * A device whose lineup document is JSON null stops the run with a
   * TypeError in generate_m3u, before the `lineup is not None` test that
   * was meant to pass over it, and writes no playlist.
   */
  lemma NullLineupStops(
    pages: map<Request, Response>, lineups: map<string, Option<seq<LineupChannel>>>, clock: Clock, fuel: nat,
    prev: Generation, device: Device)
    requires device.deviceId.Some? && device.lineupUrl in lineups && lineups[device.lineupUrl].None?
    ensures var g := DeviceStep(pages, lineups, clock, fuel, prev, device);
      g.progress.status == Failed(TypeError) && g.playlists == prev.playlists
      && g.progress.elements == prev.progress.elements && g.progress.fetched == prev.progress.fetched
  {
  }

  /**
   * generate_xmltv: discovery, then the device loop over a fresh "tv"
   * document; the document is written only when the run completed.
   * Discovery is None when it raised or when libhdhr reported its error
   * value `[]`, the only falsy result; otherwise it is the devices found,
   * possibly none, since libhdhr then hands back a generator, and a
   * generator object is truthy, so an empty "tv" document is written.
   */
  method GenerateXmltv(
    api: GuideApi, cache: GuideCache, lineups: map<string, Option<seq<LineupChannel>>>,
    devices: Option<seq<Device>>, clock: Clock, fuel: nat)
    returns (document: Option<Element>, playlists: seq<(string, string)>, status: Status)
    modifies api, cache
    ensures devices.None? ==>
      document.None? && playlists == [] && status == Finished
      && api.log == old(api.log) && cache.entries == old(cache.entries)
    ensures devices == Some([]) ==>
      document == Some(Element("tv", [], None, [])) && playlists == [] && status == Finished
      && api.log == old(api.log) && cache.entries == old(cache.entries)
    ensures devices.Some? ==>
      var g := DevicesRun(api.pages, lineups, devices.value, clock, fuel,
                          Generation(Progress([], [], old(api.log), old(cache.entries), Finished), []));
      status == g.progress.status && playlists == g.playlists
      && api.log == g.progress.fetched && cache.entries == g.progress.cache
      && document == (if status == Finished then Some(Element("tv", [], None, g.progress.elements)) else None)
  {
    if devices.None? {
      return None, [], Finished;
    }
    var all := devices.value;
    var root := new Document();
    ghost var start := Generation(Progress([], [], api.log, cache.entries, Finished), []);
    var parsed := [];
    playlists, status := [], Finished;
    for i := 0 to |all|
      invariant fresh(root)
      invariant var g := DevicesRun(api.pages, lineups, all[..i], clock, fuel, start);
        parsed == g.progress.parsed && root.children == g.progress.elements && api.log == g.progress.fetched
        && cache.entries == g.progress.cache && playlists == g.playlists && status == g.progress.status == Finished
    {
      parsed, playlists, status := DeviceGuide(root, api, cache, clock, lineups, all, i, fuel, parsed, playlists, start);
      if status != Finished {
        DevicesSticky(api.pages, lineups, all, clock, fuel, start, i + 1);
        return None, playlists, status;
      }
    }
    assert all[..|all|] == all;
    document := Some(root.Root());
  }

  /** One pass of the device loop, over the document, the guide API and the cache. */
  method DeviceGuide(
    root: Document, api: GuideApi, cache: GuideCache, clock: Clock,
    lineups: map<string, Option<seq<LineupChannel>>>, devices: seq<Device>, i: nat, fuel: nat,
    parsed: seq<string>, playlists: seq<(string, string)>, ghost start: Generation)
    returns (parsedOut: seq<string>, playlistsOut: seq<(string, string)>, status: Status)
    requires i < |devices|
    requires var g := DevicesRun(api.pages, lineups, devices[..i], clock, fuel, start);
      parsed == g.progress.parsed && root.children == g.progress.elements && api.log == g.progress.fetched
      && cache.entries == g.progress.cache && playlists == g.playlists && g.progress.status == Finished
    modifies root, api, cache
    ensures var g := DevicesRun(api.pages, lineups, devices[..i + 1], clock, fuel, start);
      parsedOut == g.progress.parsed && root.children == g.progress.elements && api.log == g.progress.fetched
      && cache.entries == g.progress.cache && playlistsOut == g.playlists && status == g.progress.status
  {
    assert devices[..i + 1][..i] == devices[..i];
    var device := devices[i];
    if device.deviceId.None? {
      return parsed, playlists, Finished;
    }
    if device.lineupUrl !in lineups {
      return parsed, playlists, Failed(TransportError);
    }
    var lineup := lineups[device.lineupUrl];
    var m3u := GenerateM3u(lineup);
    if m3u.Err? {
      return parsed, playlists, Failed(m3u.fault);
    }
    playlistsOut := playlists + [(device.deviceId.value, m3u.value)];
    parsedOut, status := LineupGuide(root, api, cache, clock, device.deviceAuth, lineup.value, fuel, parsed);
  }
}
