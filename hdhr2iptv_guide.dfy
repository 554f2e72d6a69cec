/**
 * The current converter's guide walk for one channel: convert the page in
 * hand, ask the cache for the page starting one second after the last
 * program's end, and go on until a response has no first element or an empty
 * Guide.
 */
module Hdhr2IptvGuide {
  import opened Wrappers
  import opened Xml
  import opened Clock
  import opened Hdhr
  import opened Hdhr2IptvProgram
  import opened Hdhr2IptvCache

  // ---------------------------------------------------------------------
  // One page

  /** The outcome of parse_program for each program of a page, in order. */
  function Outcomes(guide: seq<Program>, channel: string, clock: Clock): (r: seq<Result<Element>>)
    ensures |r| == |guide|
    ensures forall i :: 0 <= i < |guide| ==> r[i] == Programme(guide[i], channel, clock)
  {
    seq(|guide|, i requires 0 <= i < |guide| => Programme(guide[i], channel, clock))
  }

  /** The elements appended up to the first failing outcome, and that failure. */
  datatype Converted = Converted(elements: seq<Element>, fault: Option<Fault>)

  function Collect(outcomes: seq<Result<Element>>): Converted
    decreases |outcomes|
  {
    if outcomes == [] then Converted([], None)
    else
      var init := Collect(outcomes[..|outcomes| - 1]);
      if init.fault.Some? then init
      else
        match outcomes[|outcomes| - 1]
        case Err(f) => Converted(init.elements, Some(f))
        case Ok(e) => Converted(init.elements + [e], None)
  }

  /** What converting a page appends, and the failure that stops it. */
  function Convert(guide: seq<Program>, channel: string, clock: Clock): Converted {
    Collect(Outcomes(guide, channel, clock))
  }

  /**
   * Every outcome up to the first failure contributes its element, in order;
   * the failure, if any, is that of the next outcome.
   */
  lemma {:induction false} CollectPrefix(outcomes: seq<Result<Element>>)
    ensures var c := Collect(outcomes);
      |c.elements| <= |outcomes|
      && (forall j :: 0 <= j < |c.elements| ==> outcomes[j] == Ok(c.elements[j]))
      && (c.fault.None? ==> |c.elements| == |outcomes|)
      && (c.fault.Some? ==> |c.elements| < |outcomes| && outcomes[|c.elements|] == Err(c.fault.value))
    decreases |outcomes|
  {
    if outcomes != [] {
      var init := outcomes[..|outcomes| - 1];
      CollectPrefix(init);
      assert forall j :: 0 <= j < |init| ==> init[j] == outcomes[j];
    }
  }

  /** Converting a page appends each program's programme element up to the first failure. */
  lemma ConvertPrefix(guide: seq<Program>, channel: string, clock: Clock)
    ensures var c := Convert(guide, channel, clock);
      |c.elements| <= |guide|
      && (forall j :: 0 <= j < |c.elements| ==> Programme(guide[j], channel, clock) == Ok(c.elements[j]))
      && (c.fault.None? ==> |c.elements| == |guide|)
      && (c.fault.Some? ==> |c.elements| < |guide| && Programme(guide[|c.elements|], channel, clock) == Err(c.fault.value))
  {
    CollectPrefix(Outcomes(guide, channel, clock));
  }

  /** Once a prefix has failed, the outcomes after it change nothing. */
  lemma {:induction false} CollectSticky(outcomes: seq<Result<Element>>, n: nat)
    requires n <= |outcomes|
    requires Collect(outcomes[..n]).fault.Some?
    ensures Collect(outcomes) == Collect(outcomes[..n])
    decreases |outcomes| - n
  {
    if n < |outcomes| {
      assert outcomes[..n + 1][..n] == outcomes[..n];
      CollectSticky(outcomes, n + 1);
    } else {
      assert outcomes[..n] == outcomes;
    }
  }

  lemma CollectSnoc(outcomes: seq<Result<Element>>, i: nat)
    requires i < |outcomes|
    ensures var init := Collect(outcomes[..i]);
      Collect(outcomes[..i + 1]) ==
        if init.fault.Some? then init
        else match outcomes[i]
          case Err(f) => Converted(init.elements, Some(f))
          case Ok(e) => Converted(init.elements + [e], None)
  {
    assert outcomes[..i + 1][..i] == outcomes[..i];
  }

  /** The loop over a page's programs: each one parsed in turn, the last end time kept. */
  method ParsePrograms(root: Document, guide: seq<Program>, channel: string, clock: Clock)
    returns (lastEnd: int, fault: Option<Fault>)
    modifies root
    ensures root.children == old(root.children) + Convert(guide, channel, clock).elements
    ensures fault == Convert(guide, channel, clock).fault
    ensures fault.None? ==> lastEnd == LastEnd(guide)
  {
    ghost var outcomes := Outcomes(guide, channel, clock);
    ghost var base := root.children;
    lastEnd := 0;
    for i := 0 to |guide|
      invariant root.children == base + Collect(outcomes[..i]).elements
      invariant Collect(outcomes[..i]).fault.None?
      invariant lastEnd == LastEnd(guide[..i])
    {
      var r := ParseAt(root, guide, i, channel, clock, outcomes, base);
      if r.Err? {
        CollectSticky(outcomes, i + 1);
        return lastEnd, Some(r.fault);
      }
      lastEnd := r.value;
    }
    assert outcomes[..|guide|] == outcomes;
    fault := None;
  }

  /** One pass of the page loop: parse_program on program i, after i programs converted cleanly. */
  method ParseAt(
    root: Document, guide: seq<Program>, i: nat, channel: string, clock: Clock,
    ghost outcomes: seq<Result<Element>>, ghost base: seq<Element>) returns (r: Result<int>)
    requires i < |guide| && i < |outcomes| && outcomes[i] == Programme(guide[i], channel, clock)
    requires Collect(outcomes[..i]).fault.None?
    requires root.children == base + Collect(outcomes[..i]).elements
    modifies root
    ensures root.children == base + Collect(outcomes[..i + 1]).elements
    ensures Collect(outcomes[..i + 1]).fault == if r.Err? then Some(r.fault) else None
    ensures r.Ok? ==> r.value == LastEnd(guide[..i + 1])
  {
    CollectSnoc(outcomes, i);
    assert guide[..i + 1][i] == guide[i];
    r := ParseProgram(root, guide[i], channel, clock);
  }

  // ---------------------------------------------------------------------
  // The walk

  /** A page the walk goes on from: a first element with a non-empty Guide. */
  predicate Continues(r: Response, next: seq<Program>) {
    First(r).Some? && First(r).value.Listing? && First(r).value.guide == next && next != []
  }

  /** A page that ends the walk: no first element, or an empty Guide. */
  predicate Ends(r: Response) {
    First(r).None? || (First(r).value.Listing? && First(r).value.guide == [])
  }

  /** What a follow-up response means for the walk: stop with a status, or go on with the next page. */
  datatype Verdict = Verdict(stop: Option<Status>, next: seq<Program>)

  function Judge(result: Result<Response>): (v: Verdict)
    ensures v.stop.None? <==> result.Ok? && Continues(result.value, v.next)
    ensures v.stop == Some(Finished) <==> result.Ok? && Ends(result.value)
    ensures result.Err? ==> v.stop == Some(Failed(result.fault))
    ensures result.Ok? && First(result.value).Some? && First(result.value).value.Blank? ==>
      v.stop == Some(Failed(KeyError))
  {
    match result
    case Err(f) => Verdict(Some(Failed(f)), [])
    case Ok(r) =>
      if First(r).None? then Verdict(Some(Finished), [])
      else if First(r).value.Blank? then Verdict(Some(Failed(KeyError)), [])
      else if First(r).value.guide == [] then Verdict(Some(Finished), [])
      else Verdict(None, First(r).value.guide)
  }

  /** Everything a walk did, page by page. */
  datatype Walk = Walk(
    pages: seq<seq<Program>>,        // the Guide of every page converted, in order
    starts: seq<int>,                // the Start of every follow-up request
    responses: seq<Response>,        // the response to each of them that arrived
    elements: seq<Element>,          // the programme elements appended
    fetched: seq<Request>,           // the requests that reached the network
    cache: map<CacheKey, Response>,  // the cache afterwards
    status: Status)

  /**
   * The walk from a page in hand, with at most `fuel` follow-up requests;
   * `convert` gives what converting one page appends and the failure that
   * stops it.
   */
  function Follow(
    pages: map<Request, Response>, convert: seq<Program> -> Converted, auth: string, channel: string,
    guide: seq<Program>, cache: map<CacheKey, Response>, fuel: nat): Walk
    decreases fuel, 1
  {
    var converted := convert(guide);
    if converted.fault.Some? then
      Walk([guide], [], [], converted.elements, [], cache, Failed(converted.fault.value))
    else if fuel == 0 then
      Walk([guide], [], [], converted.elements, [], cache, OutOfFuel)
    else
      var a := Ask(pages, convert, auth, channel, LastEnd(guide) + 1, cache, fuel - 1);
      Walk([guide] + a.pages, a.starts, a.responses, converted.elements + a.elements, a.fetched, a.cache, a.status)
  }

  /** The walk from the follow-up request for the page at `start`, with `fuel` more requests after it. */
  function Ask(
    pages: map<Request, Response>, convert: seq<Program> -> Converted, auth: string, channel: string,
    start: int, cache: map<CacheKey, Response>, fuel: nat): Walk
    decreases fuel + 1, 0
  {
    var l := CachedGuide(cache, pages, auth, channel, start);
    var v := Judge(l.result);
    var answered := if l.result.Ok? then [l.result.value] else [];
    if v.stop.Some? then
      Walk([], [start], answered, [], l.fetched, l.entries, v.stop.value)
    else
      var rest := Follow(pages, convert, auth, channel, v.next, l.entries, fuel);
      Walk(rest.pages, [start] + rest.starts, answered + rest.responses, rest.elements,
           l.fetched + rest.fetched, rest.cache, rest.status)
  }

  /** A walk converts at least the page in hand, and asks for the next page of every page but the last. */
  lemma {:induction false} FollowShape(
    pages: map<Request, Response>, convert: seq<Program> -> Converted, auth: string, channel: string,
    guide: seq<Program>, cache: map<CacheKey, Response>, fuel: nat)
    ensures var w := Follow(pages, convert, auth, channel, guide, cache, fuel);
      |w.pages| >= 1 && w.pages[0] == guide
      && |w.responses| <= |w.starts| <= |w.pages| <= |w.responses| + 1
    decreases fuel, 1
  {
    if convert(guide).fault.None? && fuel > 0 {
      AskShape(pages, convert, auth, channel, LastEnd(guide) + 1, cache, fuel - 1);
    }
  }

  lemma {:induction false} AskShape(
    pages: map<Request, Response>, convert: seq<Program> -> Converted, auth: string, channel: string,
    start: int, cache: map<CacheKey, Response>, fuel: nat)
    ensures var a := Ask(pages, convert, auth, channel, start, cache, fuel);
      |a.starts| >= 1 && a.starts[0] == start
      && |a.pages| <= |a.responses| <= |a.starts| <= |a.pages| + 1
    decreases fuel + 1, 0
  {
    var l := CachedGuide(cache, pages, auth, channel, start);
    var v := Judge(l.result);
    if v.stop.None? {
      FollowShape(pages, convert, auth, channel, v.next, l.entries, fuel);
    }
  }

  /**
   * Each follow-up request starts one second after the end of the last
   * program of the page before it.
   */
  lemma {:induction false} FollowStarts(
    pages: map<Request, Response>, convert: seq<Program> -> Converted, auth: string, channel: string,
    guide: seq<Program>, cache: map<CacheKey, Response>, fuel: nat)
    ensures var w := Follow(pages, convert, auth, channel, guide, cache, fuel);
      forall k :: 0 <= k < |w.starts| && k < |w.pages| ==> w.starts[k] == LastEnd(w.pages[k]) + 1
    decreases fuel, 1
  {
    var w := Follow(pages, convert, auth, channel, guide, cache, fuel);
    if convert(guide).fault.None? && fuel > 0 {
      var a := Ask(pages, convert, auth, channel, LastEnd(guide) + 1, cache, fuel - 1);
      AskStarts(pages, convert, auth, channel, LastEnd(guide) + 1, cache, fuel - 1);
      AskShape(pages, convert, auth, channel, LastEnd(guide) + 1, cache, fuel - 1);
      assert w.pages == [guide] + a.pages && w.starts == a.starts;
      assert forall k :: 1 <= k < |w.pages| ==> w.pages[k] == a.pages[k - 1];
    }
  }

  lemma {:induction false} AskStarts(
    pages: map<Request, Response>, convert: seq<Program> -> Converted, auth: string, channel: string,
    start: int, cache: map<CacheKey, Response>, fuel: nat)
    ensures var a := Ask(pages, convert, auth, channel, start, cache, fuel);
      forall k :: 0 <= k < |a.starts| - 1 && k < |a.pages| ==> a.starts[k + 1] == LastEnd(a.pages[k]) + 1
    decreases fuel + 1, 0
  {
    var l := CachedGuide(cache, pages, auth, channel, start);
    var v := Judge(l.result);
    if v.stop.None? {
      var a := Ask(pages, convert, auth, channel, start, cache, fuel);
      var rest := Follow(pages, convert, auth, channel, v.next, l.entries, fuel);
      FollowStarts(pages, convert, auth, channel, v.next, l.entries, fuel);
      assert var w := Follow(pages, convert, auth, channel, v.next, l.entries, fuel);
        forall k :: 0 <= k < |w.starts| && k < |w.pages| ==> w.starts[k] == LastEnd(w.pages[k]) + 1;
      assert a.starts == [start] + rest.starts && a.pages == rest.pages;
      forall k | 0 <= k < |a.starts| - 1 && k < |a.pages|
        ensures a.starts[k + 1] == LastEnd(a.pages[k]) + 1
      {
        assert a.starts[k + 1] == rest.starts[k] && a.pages[k] == rest.pages[k];
      }
    }
  }

  /**
   * The walk goes on from a response only when its first element has a
   * non-empty Guide, which is the next page.
   */
  lemma {:induction false} FollowContinues(
    pages: map<Request, Response>, convert: seq<Program> -> Converted, auth: string, channel: string,
    guide: seq<Program>, cache: map<CacheKey, Response>, fuel: nat)
    ensures var w := Follow(pages, convert, auth, channel, guide, cache, fuel);
      forall k :: 0 <= k < |w.pages| - 1 && k < |w.responses| ==> Continues(w.responses[k], w.pages[k + 1])
    decreases fuel, 1
  {
    var w := Follow(pages, convert, auth, channel, guide, cache, fuel);
    if convert(guide).fault.None? && fuel > 0 {
      var a := Ask(pages, convert, auth, channel, LastEnd(guide) + 1, cache, fuel - 1);
      AskContinues(pages, convert, auth, channel, LastEnd(guide) + 1, cache, fuel - 1);
      assert var b := Ask(pages, convert, auth, channel, LastEnd(guide) + 1, cache, fuel - 1);
        forall k :: 0 <= k < |b.pages| && k < |b.responses| ==> Continues(b.responses[k], b.pages[k]);
      assert w.pages == [guide] + a.pages && w.responses == a.responses;
      forall k | 0 <= k < |w.pages| - 1 && k < |w.responses|
        ensures Continues(w.responses[k], w.pages[k + 1])
      {
        assert w.pages[k + 1] == a.pages[k] && w.responses[k] == a.responses[k];
      }
    }
  }

  lemma {:induction false} AskContinues(
    pages: map<Request, Response>, convert: seq<Program> -> Converted, auth: string, channel: string,
    start: int, cache: map<CacheKey, Response>, fuel: nat)
    ensures var a := Ask(pages, convert, auth, channel, start, cache, fuel);
      forall k :: 0 <= k < |a.pages| && k < |a.responses| ==> Continues(a.responses[k], a.pages[k])
    decreases fuel + 1, 0
  {
    var l := CachedGuide(cache, pages, auth, channel, start);
    var v := Judge(l.result);
    if v.stop.None? {
      var a := Ask(pages, convert, auth, channel, start, cache, fuel);
      var rest := Follow(pages, convert, auth, channel, v.next, l.entries, fuel);
      FollowContinues(pages, convert, auth, channel, v.next, l.entries, fuel);
      FollowShape(pages, convert, auth, channel, v.next, l.entries, fuel);
      assert a.responses == [l.result.value] + rest.responses && a.pages == rest.pages;
      assert forall k :: 1 <= k < |a.responses| ==> a.responses[k] == rest.responses[k - 1];
    }
  }

  /** A walk finishes only on a response that ends it, the answer to its last request. */
  lemma {:induction false} FollowEnd(
    pages: map<Request, Response>, convert: seq<Program> -> Converted, auth: string, channel: string,
    guide: seq<Program>, cache: map<CacheKey, Response>, fuel: nat)
    ensures var w := Follow(pages, convert, auth, channel, guide, cache, fuel);
      w.status == Finished ==>
        |w.responses| == |w.pages| && Ends(w.responses[|w.responses| - 1])
    decreases fuel, 1
  {
    if convert(guide).fault.None? && fuel > 0 {
      AskEnd(pages, convert, auth, channel, LastEnd(guide) + 1, cache, fuel - 1);
    }
  }

  lemma {:induction false} AskEnd(
    pages: map<Request, Response>, convert: seq<Program> -> Converted, auth: string, channel: string,
    start: int, cache: map<CacheKey, Response>, fuel: nat)
    ensures var a := Ask(pages, convert, auth, channel, start, cache, fuel);
      a.status == Finished ==>
        |a.responses| == |a.pages| + 1 && Ends(a.responses[|a.responses| - 1])
    decreases fuel + 1, 0
  {
    var l := CachedGuide(cache, pages, auth, channel, start);
    var v := Judge(l.result);
    if v.stop.None? {
      FollowEnd(pages, convert, auth, channel, v.next, l.entries, fuel);
    }
  }

  /**
   * Along a walk the cache only grows: stored pages stay as they were and
   * every new entry is a storable page.
   */
  lemma {:induction false} FollowCache(
    pages: map<Request, Response>, convert: seq<Program> -> Converted, auth: string, channel: string,
    guide: seq<Program>, cache: map<CacheKey, Response>, fuel: nat)
    ensures var w := Follow(pages, convert, auth, channel, guide, cache, fuel);
      (forall k :: k in cache ==> k in w.cache && w.cache[k] == cache[k])
      && (forall k :: k in w.cache && k !in cache ==> Storable(w.cache[k]))
    decreases fuel, 1
  {
    if convert(guide).fault.None? && fuel > 0 {
      AskCache(pages, convert, auth, channel, LastEnd(guide) + 1, cache, fuel - 1);
    }
  }

  lemma {:induction false} AskCache(
    pages: map<Request, Response>, convert: seq<Program> -> Converted, auth: string, channel: string,
    start: int, cache: map<CacheKey, Response>, fuel: nat)
    ensures var a := Ask(pages, convert, auth, channel, start, cache, fuel);
      (forall k :: k in cache ==> k in a.cache && a.cache[k] == cache[k])
      && (forall k :: k in a.cache && k !in cache ==> Storable(a.cache[k]))
    decreases fuel + 1, 0
  {
    var l := CachedGuide(cache, pages, auth, channel, start);
    var v := Judge(l.result);
    if v.stop.None? {
      FollowCache(pages, convert, auth, channel, v.next, l.entries, fuel);
    }
  }

  /** Every request of a walk is for this channel and carries a Start. */
  lemma {:induction false} FollowRequests(
    pages: map<Request, Response>, convert: seq<Program> -> Converted, auth: string, channel: string,
    guide: seq<Program>, cache: map<CacheKey, Response>, fuel: nat)
    ensures var w := Follow(pages, convert, auth, channel, guide, cache, fuel);
      (forall i :: 0 <= i < |w.fetched| ==>
        w.fetched[i].auth == auth && w.fetched[i].channel == channel && w.fetched[i].start.Some?)
      && LiveChannels(w.fetched) == []
    decreases fuel, 1
  {
    if convert(guide).fault.None? && fuel > 0 {
      AskRequests(pages, convert, auth, channel, LastEnd(guide) + 1, cache, fuel - 1);
    }
  }

  lemma {:induction false} AskRequests(
    pages: map<Request, Response>, convert: seq<Program> -> Converted, auth: string, channel: string,
    start: int, cache: map<CacheKey, Response>, fuel: nat)
    ensures var a := Ask(pages, convert, auth, channel, start, cache, fuel);
      (forall i :: 0 <= i < |a.fetched| ==>
        a.fetched[i].auth == auth && a.fetched[i].channel == channel && a.fetched[i].start.Some?)
      && LiveChannels(a.fetched) == []
    decreases fuel + 1, 0
  {
    var l := CachedGuide(cache, pages, auth, channel, start);
    var v := Judge(l.result);
    assert LiveChannels(l.fetched) == [] by {
      if l.fetched != [] {
        assert l.fetched[..0] == [];
      }
    }
    if v.stop.None? {
      var rest := Follow(pages, convert, auth, channel, v.next, l.entries, fuel);
      FollowRequests(pages, convert, auth, channel, v.next, l.entries, fuel);
      LiveChannelsConcat(l.fetched, rest.fetched);
    }
  }

  /** The current converter's page conversion: parse_program over every program of the page. */
  function Converter(channel: string, clock: Clock): seq<Program> -> Converted {
    guide => Convert(guide, channel, clock)
  }

  /** `convert` converts every page as parse_program does. */
  ghost predicate Converts(convert: seq<Program> -> Converted, channel: string, clock: Clock) {
    forall guide {:trigger Convert(guide, channel, clock)} :: convert(guide) == Convert(guide, channel, clock)
  }

  lemma ConverterConverts(channel: string, clock: Clock)
    ensures Converts(Converter(channel, clock), channel, clock)
  {
  }

  /**
   * The while loop of generate_xmltv for one channel, from the Guide of the
   * live response: convert the page, then follow the cache to the next one.
   */
  method Paginate(
    root: Document, api: GuideApi, cache: GuideCache, clock: Clock,
    auth: string, channel: string, guide: seq<Program>, fuel: nat, ghost convert: seq<Program> -> Converted)
    returns (status: Status)
    requires Converts(convert, channel, clock)
    modifies root, api, cache
    ensures var w := Follow(api.pages, convert, auth, channel, guide, old(cache.entries), fuel);
      status == w.status && root.children == old(root.children) + w.elements
      && cache.entries == w.cache && api.log == old(api.log) + w.fetched
  {
    ghost var whole := Follow(api.pages, convert, auth, channel, guide, cache.entries, fuel);
    var guideData := guide;
    var remaining := fuel;
    while true
      // what is written and fetched so far, followed by the rest of the walk, is the whole walk
      invariant var w := Follow(api.pages, convert, auth, channel, guideData, cache.entries, remaining);
        old(root.children) + whole.elements == root.children + w.elements
        && old(api.log) + whole.fetched == api.log + w.fetched
        && whole.cache == w.cache && whole.status == w.status
      decreases remaining
    {
      ghost var children, log := root.children, api.log;
      var next, stop, elements, fetched := PageStep(root, api, cache, clock, auth, channel, guideData, remaining, convert);
      if stop.Some? {
        return stop.value;
      }
      ghost var rest := Follow(api.pages, convert, auth, channel, next, cache.entries, remaining - 1);
      Regroup(children, elements, rest.elements);
      Regroup(log, fetched, rest.fetched);
      guideData, remaining := next, remaining - 1;
    }
  }

  lemma Regroup<T>(a: seq<T>, b: seq<T>, c: seq<T>)
    ensures a + (b + c) == (a + b) + c
  {
  }

  /**
   * One pass of the pagination loop: convert the page, then either stop with
   * the walk's status or hand over the next page with one request fewer to go.
   */
  method PageStep(
    root: Document, api: GuideApi, cache: GuideCache, clock: Clock,
    auth: string, channel: string, guide: seq<Program>, fuel: nat, ghost convert: seq<Program> -> Converted)
    returns (next: seq<Program>, stop: Option<Status>, ghost elements: seq<Element>, ghost fetched: seq<Request>)
    requires Converts(convert, channel, clock)
    modifies root, api, cache
    ensures root.children == old(root.children) + elements && api.log == old(api.log) + fetched
    ensures var w := Follow(api.pages, convert, auth, channel, guide, old(cache.entries), fuel);
      if stop.Some? then
        stop.value == w.status && elements == w.elements && fetched == w.fetched && cache.entries == w.cache
      else
        fuel > 0 &&
        var rest := Follow(api.pages, convert, auth, channel, next, cache.entries, fuel - 1);
        w.elements == elements + rest.elements && w.fetched == fetched + rest.fetched
        && w.cache == rest.cache && w.status == rest.status
  {
    var lastEnd, fault := ParsePrograms(root, guide, channel, clock);
    elements, fetched := Convert(guide, channel, clock).elements, [];
    if fault.Some? {
      return [], Some(Failed(fault.value)), elements, fetched;
    }
    if fuel == 0 {
      return [], Some(OutOfFuel), elements, fetched;
    }
    ghost var entries := cache.entries;
    FollowGoes(api.pages, convert, auth, channel, guide, entries, fuel);
    next, stop, fetched := FetchNext(api, cache, auth, channel, lastEnd + 1);
    AskGoes(api.pages, convert, auth, channel, lastEnd + 1, entries, fuel - 1);
  }

  /** A page that converts without failure, with fuel left, is followed by the request for the next one. */
  lemma FollowGoes(
    pages: map<Request, Response>, convert: seq<Program> -> Converted, auth: string, channel: string,
    guide: seq<Program>, cache: map<CacheKey, Response>, fuel: nat)
    requires convert(guide).fault.None? && fuel > 0
    ensures var w := Follow(pages, convert, auth, channel, guide, cache, fuel);
      var a := Ask(pages, convert, auth, channel, LastEnd(guide) + 1, cache, fuel - 1);
      w.elements == convert(guide).elements + a.elements && w.fetched == a.fetched
      && w.cache == a.cache && w.status == a.status
  {
  }

  /** A follow-up response that does not stop the walk hands its Guide on to the rest of it. */
  lemma AskGoes(
    pages: map<Request, Response>, convert: seq<Program> -> Converted, auth: string, channel: string,
    start: int, cache: map<CacheKey, Response>, fuel: nat)
    ensures var l := CachedGuide(cache, pages, auth, channel, start);
      var v := Judge(l.result);
      var a := Ask(pages, convert, auth, channel, start, cache, fuel);
      if v.stop.Some? then
        a.elements == [] && a.fetched == l.fetched && a.cache == l.entries && a.status == v.stop.value
      else
        var rest := Follow(pages, convert, auth, channel, v.next, l.entries, fuel);
        a.elements == rest.elements && a.fetched == l.fetched + rest.fetched
        && a.cache == rest.cache && a.status == rest.status
  {
  }

  /**
   * The request for the next page and what its response says: stop with the
   * status it gives the walk, or go on with its Guide.
   */
  method FetchNext(api: GuideApi, cache: GuideCache, auth: string, channel: string, start: int)
    returns (next: seq<Program>, stop: Option<Status>, ghost fetched: seq<Request>)
    modifies api, cache
    ensures var l := CachedGuide(old(cache.entries), api.pages, auth, channel, start);
      api.log == old(api.log) + l.fetched && cache.entries == l.entries && fetched == l.fetched
      && stop == Judge(l.result).stop && (stop.None? ==> next == Judge(l.result).next)
  {
    var page := cache.GetOrFetch(api, auth, channel, start);
    fetched := CachedGuide(old(cache.entries), api.pages, auth, channel, start).fetched;
    if page.Err? {
      return [], Some(Failed(page.fault)), fetched;
    }
    var channelData := First(page.value);
    if channelData.None? {
      return [], Some(Finished), fetched;
    }
    if channelData.value.Blank? {
      return [], Some(Failed(KeyError)), fetched;
    }
    next := channelData.value.guide;
    if |next| == 0 {
      return [], Some(Finished), fetched;
    }
    stop := None;
  }
}
