/**
 * generate_xmltv of the middle converter (hdhr2xml.py): for every discovered
 * tuner with a DeviceID, ask its discover URL for the DeviceAuth and read its
 * lineup; for every channel not yet parsed, and only favourites when asked,
 * fetch the live guide, emit the channel element and walk the guide pages
 * until a response has no first element. There is no cache.
 */
module Hdhr2XmlXmltv {
  import opened Wrappers
  import opened Xml
  import opened Clock
  import opened Hdhr
  import opened Hdhr2XmlProgram
  import Guide = Hdhr2IptvGuide
  import IptvXmltv = Hdhr2IptvXmltv

  // ---------------------------------------------------------------------
  // One page

  /** What parse_program gives for each program of a page, in order. */
  function Outcomes(guide: seq<Program>, channel: string, clock: Clock): (r: seq<Parsed>)
    ensures |r| == |guide|
    ensures forall i :: 0 <= i < |guide| ==> r[i] == Programme(guide[i], channel, clock)
  {
    seq(|guide|, i requires 0 <= i < |guide| => Programme(guide[i], channel, clock))
  }

  /**
   * The elements appended up to and including the first program that raises,
   * and its failure: parse_program appends its element even when it raises.
   */
  function Collect(outcomes: seq<Parsed>): Guide.Converted
    decreases |outcomes|
  {
    if outcomes == [] then Guide.Converted([], None)
    else
      var init := Collect(outcomes[..|outcomes| - 1]);
      if init.fault.Some? then init
      else
        var last := outcomes[|outcomes| - 1];
        Guide.Converted(init.elements + [last.element], last.fault)
  }

  /** What converting a page appends, and the failure that stops it. */
  function Convert(guide: seq<Program>, channel: string, clock: Clock): Guide.Converted {
    Collect(Outcomes(guide, channel, clock))
  }

  /**
   * Every outcome up to and including the first failure contributes its
   * element, in order; the failure is that of the last element kept.
   */
  lemma {:induction false} CollectPrefix(outcomes: seq<Parsed>)
    ensures var c := Collect(outcomes);
      |c.elements| <= |outcomes|
      && (forall j :: 0 <= j < |c.elements| ==> c.elements[j] == outcomes[j].element)
      && (c.fault.None? ==> |c.elements| == |outcomes| && forall j :: 0 <= j < |outcomes| ==> outcomes[j].fault.None?)
      && (c.fault.Some? ==>
            |c.elements| > 0 && c.fault == outcomes[|c.elements| - 1].fault
            && forall j :: 0 <= j < |c.elements| - 1 ==> outcomes[j].fault.None?)
    decreases |outcomes|
  {
    if outcomes != [] {
      var init := outcomes[..|outcomes| - 1];
      CollectPrefix(init);
      assert forall j :: 0 <= j < |init| ==> init[j] == outcomes[j];
    }
  }

  /**
   * Once a prefix has raised, the outcomes after it change nothing. The
   * statement reads like the current converter's, but this `Collect` keeps
   * the element of the program that raised, since parse_program here
   * appends the programme before it can raise.
   */
  lemma {:induction false} CollectSticky(outcomes: seq<Parsed>, n: nat)
    requires n <= |outcomes|
    requires Collect(outcomes[..n]).fault.Some?
    ensures Collect(outcomes) == Collect(outcomes[..n])
    decreases |outcomes| - n
  {
    if n < |outcomes| {
      assert outcomes[..n + 1][..n] == outcomes[..n];
      CollectSticky(outcomes, n + 1);
    } else {
      assert outcomes[..n] == outcomes;
    }
  }

  /** One more outcome: kept, with its fault, unless a fault came before it. */
  lemma CollectSnoc(outcomes: seq<Parsed>, i: nat)
    requires i < |outcomes|
    ensures var init := Collect(outcomes[..i]);
      Collect(outcomes[..i + 1]) ==
        if init.fault.Some? then init else Guide.Converted(init.elements + [outcomes[i].element], outcomes[i].fault)
  {
    assert outcomes[..i + 1][..i] == outcomes[..i];
  }

  /** The loop over a page's programs: each one parsed in turn, the last end time kept. */
  method ParsePrograms(root: Document, guide: seq<Program>, channel: string, clock: Clock)
    returns (lastEnd: int, fault: Option<Fault>)
    modifies root
    ensures root.children == old(root.children) + Convert(guide, channel, clock).elements
    ensures fault == Convert(guide, channel, clock).fault
    ensures fault.None? ==> lastEnd == LastEnd(guide)
  {
    ghost var outcomes := Outcomes(guide, channel, clock);
    ghost var base := root.children;
    lastEnd := 0;
    for i := 0 to |guide|
      invariant root.children == base + Collect(outcomes[..i]).elements
      invariant Collect(outcomes[..i]).fault.None?
      invariant lastEnd == LastEnd(guide[..i])
    {
      var r := ParseAt(root, guide, i, channel, clock, outcomes, base);
      if r.Err? {
        CollectSticky(outcomes, i + 1);
        return lastEnd, Some(r.fault);
      }
      lastEnd := r.value;
    }
    assert outcomes[..|guide|] == outcomes;
    fault := None;
  }

  /** One pass of the page loop: parse_program on program i, after i programs converted cleanly. */
  method ParseAt(
    root: Document, guide: seq<Program>, i: nat, channel: string, clock: Clock,
    ghost outcomes: seq<Parsed>, ghost base: seq<Element>) returns (r: Result<int>)
    requires i < |guide| && i < |outcomes| && outcomes[i] == Programme(guide[i], channel, clock)
    requires Collect(outcomes[..i]).fault.None?
    requires root.children == base + Collect(outcomes[..i]).elements
    modifies root
    ensures root.children == base + Collect(outcomes[..i + 1]).elements
    ensures Collect(outcomes[..i + 1]).fault == if r.Err? then Some(r.fault) else None
    ensures r.Ok? ==> r.value == LastEnd(guide[..i + 1])
  {
    CollectSnoc(outcomes, i);
    assert guide[..i + 1][i] == guide[i];
    r := ParseProgram(root, guide[i], channel, clock);
  }

  // ---------------------------------------------------------------------
  // The walk over a channel's guide pages

  /** Everything a walk did, page by page. */
  datatype Walk = Walk(
    pages: seq<seq<Program>>,   // the Guide of every page converted, in order
    starts: seq<int>,           // the Start of every follow-up request
    responses: seq<Response>,   // the response to each of them that arrived
    elements: seq<Element>,     // the programme elements appended
    fetched: seq<Request>,      // the follow-up requests sent
    status: Status)

  /** A response the walk goes on from: its first element is a channel, whose Guide is the next page. */
  predicate Continues(r: Response, next: seq<Program>) {
    First(r).Some? && First(r).value.Listing? && First(r).value.guide == next
  }

  /**
   * What a follow-up response means for the walk: no first element ends it,
   * the empty object raises KeyError, and any channel, even with an empty
   * Guide, hands over the next page.
   */
  function Judge(result: Result<Response>): (v: Guide.Verdict)
    ensures v.stop.None? <==> result.Ok? && Continues(result.value, v.next)
    ensures v.stop == Some(Finished) <==> result.Ok? && First(result.value).None?
    ensures result.Err? ==> v.stop == Some(Failed(result.fault))
    ensures result.Ok? && First(result.value).Some? && First(result.value).value.Blank? ==>
      v.stop == Some(Failed(KeyError))
  {
    match result
    case Err(f) => Guide.Verdict(Some(Failed(f)), [])
    case Ok(r) =>
      if First(r).None? then Guide.Verdict(Some(Finished), [])
      else if First(r).value.Blank? then Guide.Verdict(Some(Failed(KeyError)), [])
      else Guide.Verdict(None, First(r).value.guide)
  }

  /**
   * The walk from a page in hand with at most `fuel` follow-up requests:
   * convert the page, then ask for the page starting one second after its
   * last program's end (at 1 for an empty page).
   */
  function Follow(
    pages: map<Request, Response>, convert: seq<Program> -> Guide.Converted, auth: string, channel: string,
    guide: seq<Program>, fuel: nat): Walk
    decreases fuel
  {
    var converted := convert(guide);
    if converted.fault.Some? then Walk([guide], [], [], converted.elements, [], Failed(converted.fault.value))
    else if fuel == 0 then Walk([guide], [], [], converted.elements, [], OutOfFuel)
    else
      var start := LastEnd(guide) + 1;
      var request := Request(auth, channel, Some(start));
      var result := Fetch(pages, request);
      var v := Judge(result);
      var answered := if result.Ok? then [result.value] else [];
      if v.stop.Some? then Walk([guide], [start], answered, converted.elements, [request], v.stop.value)
      else
        var rest := Follow(pages, convert, auth, channel, v.next, fuel - 1);
        Walk([guide] + rest.pages, [start] + rest.starts, answered + rest.responses,
             converted.elements + rest.elements, [request] + rest.fetched, rest.status)
  }

  /** The page a walk goes on to, when it does. */
  function Onward(pages: map<Request, Response>, auth: string, channel: string, guide: seq<Program>): Guide.Verdict {
    Judge(Fetch(pages, Request(auth, channel, Some(LastEnd(guide) + 1))))
  }

  /** A walk converts at least the page in hand and asks for the next page of every page but the last. */
  lemma {:induction false} FollowShape(
    pages: map<Request, Response>, convert: seq<Program> -> Guide.Converted, auth: string, channel: string,
    guide: seq<Program>, fuel: nat)
    ensures var w := Follow(pages, convert, auth, channel, guide, fuel);
      |w.pages| >= 1 && w.pages[0] == guide && |w.fetched| == |w.starts|
      && |w.responses| <= |w.starts| <= |w.pages| <= |w.responses| + 1
    decreases fuel
  {
    var v := Onward(pages, auth, channel, guide);
    if convert(guide).fault.None? && fuel > 0 && v.stop.None? {
      FollowShape(pages, convert, auth, channel, v.next, fuel - 1);
    }
  }

  /** A walk that goes on from its first page: that page, its follow-up request and response, then the rest. */
  lemma FollowNext(
    pages: map<Request, Response>, convert: seq<Program> -> Guide.Converted, auth: string, channel: string,
    guide: seq<Program>, fuel: nat)
    requires convert(guide).fault.None? && fuel > 0 && Onward(pages, auth, channel, guide).stop.None?
    ensures var w := Follow(pages, convert, auth, channel, guide, fuel);
      var request := Request(auth, channel, Some(LastEnd(guide) + 1));
      var rest := Follow(pages, convert, auth, channel, Onward(pages, auth, channel, guide).next, fuel - 1);
      Fetch(pages, request).Ok? && Continues(Fetch(pages, request).value, Onward(pages, auth, channel, guide).next)
      && w.pages == [guide] + rest.pages && w.starts == [LastEnd(guide) + 1] + rest.starts
      && w.responses == [Fetch(pages, request).value] + rest.responses
      && w.elements == convert(guide).elements + rest.elements && w.fetched == [request] + rest.fetched
      && w.status == rest.status
  {
  }

  /** A walk that stops at its first page: at most one follow-up request, and the response it finished on. */
  lemma FollowStop(
    pages: map<Request, Response>, convert: seq<Program> -> Guide.Converted, auth: string, channel: string,
    guide: seq<Program>, fuel: nat)
    requires !(convert(guide).fault.None? && fuel > 0 && Onward(pages, auth, channel, guide).stop.None?)
    ensures var w := Follow(pages, convert, auth, channel, guide, fuel);
      var request := Request(auth, channel, Some(LastEnd(guide) + 1));
      w.pages == [guide] && w.elements == convert(guide).elements
      && |w.responses| <= |w.starts| == |w.fetched| <= 1
      && (|w.starts| == 1 ==> w.starts == [LastEnd(guide) + 1] && w.fetched == [request])
      && (w.status == Finished ==> |w.responses| == 1 && First(w.responses[0]).None?)
  {
  }

  /**
   * Every follow-up request is for this channel and starts one second after
   * the end of the last program of the page before it.
   */
  lemma {:induction false} FollowStarts(
    pages: map<Request, Response>, convert: seq<Program> -> Guide.Converted, auth: string, channel: string,
    guide: seq<Program>, fuel: nat)
    ensures var w := Follow(pages, convert, auth, channel, guide, fuel);
      forall k :: 0 <= k < |w.starts| && k < |w.pages| && k < |w.fetched| ==>
        w.starts[k] == LastEnd(w.pages[k]) + 1 && w.fetched[k] == Request(auth, channel, Some(w.starts[k]))
    decreases fuel
  {
    var w := Follow(pages, convert, auth, channel, guide, fuel);
    var v := Onward(pages, auth, channel, guide);
    if convert(guide).fault.None? && fuel > 0 && v.stop.None? {
      var rest := Follow(pages, convert, auth, channel, v.next, fuel - 1);
      FollowNext(pages, convert, auth, channel, guide, fuel);
      FollowStarts(pages, convert, auth, channel, v.next, fuel - 1);
      StartsCons(w, rest, guide, auth, channel);
    } else {
      FollowStop(pages, convert, auth, channel, guide, fuel);
    }
  }

  lemma StartsCons(w: Walk, rest: Walk, guide: seq<Program>, auth: string, channel: string)
    requires w.pages == [guide] + rest.pages && w.starts == [LastEnd(guide) + 1] + rest.starts
    requires w.fetched == [Request(auth, channel, Some(LastEnd(guide) + 1))] + rest.fetched
    requires forall k :: 0 <= k < |rest.starts| && k < |rest.pages| && k < |rest.fetched| ==>
      rest.starts[k] == LastEnd(rest.pages[k]) + 1 && rest.fetched[k] == Request(auth, channel, Some(rest.starts[k]))
    ensures forall k :: 0 <= k < |w.starts| && k < |w.pages| && k < |w.fetched| ==>
      w.starts[k] == LastEnd(w.pages[k]) + 1 && w.fetched[k] == Request(auth, channel, Some(w.starts[k]))
  {
    forall k | 1 <= k < |w.starts| && k < |w.pages| && k < |w.fetched|
      ensures w.starts[k] == LastEnd(w.pages[k]) + 1 && w.fetched[k] == Request(auth, channel, Some(w.starts[k]))
    {
      assert w.starts[k] == rest.starts[k - 1] && w.pages[k] == rest.pages[k - 1];
      assert w.fetched[k] == rest.fetched[k - 1];
    }
  }

  /** A page with no programs is followed by a request with Start 1. */
  lemma EmptyPageRestarts(
    pages: map<Request, Response>, convert: seq<Program> -> Guide.Converted, auth: string, channel: string,
    guide: seq<Program>, fuel: nat)
    ensures var w := Follow(pages, convert, auth, channel, guide, fuel);
      forall k :: 0 <= k < |w.starts| && k < |w.pages| && w.pages[k] == [] ==> w.starts[k] == 1
  {
    FollowShape(pages, convert, auth, channel, guide, fuel);
    FollowStarts(pages, convert, auth, channel, guide, fuel);
  }

  /**
   * The walk goes on from every response whose first element is a channel,
   * even one with an empty Guide; that Guide is the next page.
   */
  lemma {:induction false} FollowContinues(
    pages: map<Request, Response>, convert: seq<Program> -> Guide.Converted, auth: string, channel: string,
    guide: seq<Program>, fuel: nat)
    ensures var w := Follow(pages, convert, auth, channel, guide, fuel);
      forall k :: 0 <= k < |w.pages| - 1 && k < |w.responses| ==> Continues(w.responses[k], w.pages[k + 1])
    decreases fuel
  {
    var w := Follow(pages, convert, auth, channel, guide, fuel);
    var v := Onward(pages, auth, channel, guide);
    if convert(guide).fault.None? && fuel > 0 && v.stop.None? {
      var rest := Follow(pages, convert, auth, channel, v.next, fuel - 1);
      FollowNext(pages, convert, auth, channel, guide, fuel);
      FollowContinues(pages, convert, auth, channel, v.next, fuel - 1);
      FollowShape(pages, convert, auth, channel, v.next, fuel - 1);
      ContinuesCons(w, rest, guide);
    } else {
      FollowStop(pages, convert, auth, channel, guide, fuel);
    }
  }

  lemma ContinuesCons(w: Walk, rest: Walk, guide: seq<Program>)
    requires |rest.pages| >= 1 && |w.responses| >= 1
    requires w.pages == [guide] + rest.pages && w.responses == [w.responses[0]] + rest.responses
    requires Continues(w.responses[0], rest.pages[0])
    requires forall k :: 0 <= k < |rest.pages| - 1 && k < |rest.responses| ==> Continues(rest.responses[k], rest.pages[k + 1])
    ensures forall k :: 0 <= k < |w.pages| - 1 && k < |w.responses| ==> Continues(w.responses[k], w.pages[k + 1])
  {
    forall k | 1 <= k < |w.pages| - 1 && k < |w.responses|
      ensures Continues(w.responses[k], w.pages[k + 1])
    {
      assert w.responses[k] == rest.responses[k - 1] && w.pages[k + 1] == rest.pages[k];
    }
  }

  /** A walk finishes only on a response without a first element, the answer to its last request. */
  lemma {:induction false} FollowEnd(
    pages: map<Request, Response>, convert: seq<Program> -> Guide.Converted, auth: string, channel: string,
    guide: seq<Program>, fuel: nat)
    ensures var w := Follow(pages, convert, auth, channel, guide, fuel);
      w.status == Finished ==>
        |w.responses| == |w.pages| && First(w.responses[|w.responses| - 1]).None?
    decreases fuel
  {
    var v := Onward(pages, auth, channel, guide);
    if convert(guide).fault.None? && fuel > 0 && v.stop.None? {
      FollowEnd(pages, convert, auth, channel, v.next, fuel - 1);
    }
  }

  /** No follow-up request is a live one. */
  lemma {:induction false} FollowLive(
    pages: map<Request, Response>, convert: seq<Program> -> Guide.Converted, auth: string, channel: string,
    guide: seq<Program>, fuel: nat)
    ensures LiveChannels(Follow(pages, convert, auth, channel, guide, fuel).fetched) == []
    decreases fuel
  {
    var request := Request(auth, channel, Some(LastEnd(guide) + 1));
    assert LiveChannels([request]) == [] by {
      assert [request][..0] == [];
    }
    var v := Onward(pages, auth, channel, guide);
    if convert(guide).fault.None? && fuel > 0 && v.stop.None? {
      var rest := Follow(pages, convert, auth, channel, v.next, fuel - 1);
      FollowLive(pages, convert, auth, channel, v.next, fuel - 1);
      LiveChannelsConcat([request], rest.fetched);
    }
  }

  /** Every element a walk appends is a programme of its channel, when every page converts to such. */
  lemma {:induction false} FollowProgrammes(
    pages: map<Request, Response>, convert: seq<Program> -> Guide.Converted, auth: string, channel: string,
    guide: seq<Program>, fuel: nat)
    requires Labels(convert, channel)
    ensures var w := Follow(pages, convert, auth, channel, guide, fuel);
      forall i :: 0 <= i < |w.elements| ==> IptvXmltv.OfChannel(w.elements[i], channel)
    decreases fuel
  {
    var w := Follow(pages, convert, auth, channel, guide, fuel);
    var converted := convert(guide);
    var v := Onward(pages, auth, channel, guide);
    if converted.fault.None? && fuel > 0 && v.stop.None? {
      var rest := Follow(pages, convert, auth, channel, v.next, fuel - 1);
      FollowProgrammes(pages, convert, auth, channel, v.next, fuel - 1);
      assert var u := Follow(pages, convert, auth, channel, v.next, fuel - 1);
        forall i :: 0 <= i < |u.elements| ==> IptvXmltv.OfChannel(u.elements[i], channel);
      assert w.elements == converted.elements + rest.elements;
    }
  }

  /** Every page `convert` converts becomes programmes of `channel` only. */
  ghost predicate Labels(convert: seq<Program> -> Guide.Converted, channel: string) {
    forall guide, i :: 0 <= i < |convert(guide).elements| ==> IptvXmltv.OfChannel(convert(guide).elements[i], channel)
  }

  /** The middle converter's page conversion: parse_program over every program of the page. */
  function Converter(channel: string, clock: Clock): seq<Program> -> Guide.Converted {
    guide => Convert(guide, channel, clock)
  }

  /** Converting any page yields programmes of the channel only. */
  lemma ConverterLabels(channel: string, clock: Clock)
    ensures Labels(Converter(channel, clock), channel)
  {
    forall guide, i | 0 <= i < |Converter(channel, clock)(guide).elements|
      ensures IptvXmltv.OfChannel(Converter(channel, clock)(guide).elements[i], channel)
    {
      var outcomes := Outcomes(guide, channel, clock);
      CollectPrefix(outcomes);
      assert Converter(channel, clock)(guide).elements[i] == outcomes[i].element;
    }
  }

  /** `convert` converts every page as parse_program does. */
  ghost predicate Converts(convert: seq<Program> -> Guide.Converted, channel: string, clock: Clock) {
    forall guide {:trigger Convert(guide, channel, clock)} :: convert(guide) == Convert(guide, channel, clock)
  }

  lemma ConverterConverts(channel: string, clock: Clock)
    ensures Converts(Converter(channel, clock), channel, clock)
  {
  }

  /** The `while guide_data is not None` loop for one channel, from the Guide of the live response. */
  method Paginate(
    root: Document, api: GuideApi, clock: Clock, auth: string, channel: string, guide: seq<Program>, fuel: nat,
    ghost convert: seq<Program> -> Guide.Converted)
    returns (status: Status)
    requires Converts(convert, channel, clock)
    modifies root, api
    ensures var w := Follow(api.pages, convert, auth, channel, guide, fuel);
      status == w.status && root.children == old(root.children) + w.elements && api.log == old(api.log) + w.fetched
  {
    ghost var whole := Follow(api.pages, convert, auth, channel, guide, fuel);
    var guideData := guide;
    var remaining := fuel;
    while true
      // what is written and fetched so far, followed by the rest of the walk, is the whole walk
      invariant var w := Follow(api.pages, convert, auth, channel, guideData, remaining);
        old(root.children) + whole.elements == root.children + w.elements
        && old(api.log) + whole.fetched == api.log + w.fetched && whole.status == w.status
      decreases remaining
    {
      ghost var children, log := root.children, api.log;
      var next, stop, elements, fetched := PageStep(root, api, clock, auth, channel, guideData, remaining, convert);
      if stop.Some? {
        return stop.value;
      }
      ghost var rest := Follow(api.pages, convert, auth, channel, next, remaining - 1);
      Guide.Regroup(children, elements, rest.elements);
      Guide.Regroup(log, fetched, rest.fetched);
      guideData, remaining := next, remaining - 1;
    }
  }

  /**
   * One pass of the pagination loop: convert the page and ask for the next;
   * either stop with the walk's status or hand over the next page.
   */
  method PageStep(
    root: Document, api: GuideApi, clock: Clock, auth: string, channel: string, guide: seq<Program>, fuel: nat,
    ghost convert: seq<Program> -> Guide.Converted)
    returns (next: seq<Program>, stop: Option<Status>, ghost elements: seq<Element>, ghost fetched: seq<Request>)
    requires Converts(convert, channel, clock)
    modifies root, api
    ensures root.children == old(root.children) + elements && api.log == old(api.log) + fetched
    ensures var w := Follow(api.pages, convert, auth, channel, guide, fuel);
      if stop.Some? then
        stop.value == w.status && elements == w.elements && fetched == w.fetched
      else
        fuel > 0 &&
        var rest := Follow(api.pages, convert, auth, channel, next, fuel - 1);
        w.elements == elements + rest.elements && w.fetched == fetched + rest.fetched && w.status == rest.status
  {
    var lastEnd, fault := ParsePrograms(root, guide, channel, clock);
    elements, fetched := Convert(guide, channel, clock).elements, [];
    if fault.Some? {
      return [], Some(Failed(fault.value)), elements, fetched;
    }
    if fuel == 0 {
      return [], Some(OutOfFuel), elements, fetched;
    }
    fetched := [Request(auth, channel, Some(lastEnd + 1))];
    next, stop := FetchNext(api, auth, channel, lastEnd + 1);
  }

  /** The request for the next page and what its response says: stop with a status, or go on with its Guide. */
  method FetchNext(api: GuideApi, auth: string, channel: string, start: int)
    returns (next: seq<Program>, stop: Option<Status>)
    modifies api
    ensures var request := Request(auth, channel, Some(start));
      var v := Judge(Fetch(api.pages, request));
      api.log == old(api.log) + [request] && stop == v.stop && (stop.None? ==> next == v.next)
  {
    var page := api.Get(Request(auth, channel, Some(start)));
    if page.Err? {
      return [], Some(Failed(page.fault));
    }
    var channelData := First(page.value);
    if channelData.None? {
      return [], Some(Finished);
    }
    if channelData.value.Blank? {
      return [], Some(Failed(KeyError));
    }
    next, stop := channelData.value.guide, None;
  }

  // ---------------------------------------------------------------------
  // One channel of a lineup

  /** What one channel adds to the document and the request log, and how it ended. */
  datatype Run = Run(elements: seq<Element>, fetched: seq<Request>, status: Status)

  /**
   * The body of the lineup loop for a channel that is taken: the live
   * request, then nothing when the response has no first element, a KeyError
   * for the empty object, and otherwise the channel element followed by the
   * walk over the guide pages.
   */
  function ChannelRun(pages: map<Request, Response>, auth: string, number: string, clock: Clock, fuel: nat): Run {
    var live := Request(auth, number, None);
    match Fetch(pages, live)
    case Err(fault) => Run([], [live], Failed(fault))
    case Ok(response) =>
      match First(response)
      case None => Run([], [live], Finished)
      case Some(Blank) => Run([], [live], Failed(KeyError))
      case Some(Listing(info, guide)) =>
        var w := Follow(pages, Converter(number, clock), auth, number, guide, fuel);
        Run([ChannelElement(info)] + w.elements, [live] + w.fetched, w.status)
  }

  /** A channel's first page is asked for live exactly once, and every request is for this channel. */
  lemma ChannelRequests(pages: map<Request, Response>, auth: string, number: string, clock: Clock, fuel: nat)
    ensures var r := ChannelRun(pages, auth, number, clock, fuel);
      LiveChannels(r.fetched) == [number]
      && (forall i :: 0 <= i < |r.fetched| ==> r.fetched[i].auth == auth && r.fetched[i].channel == number)
  {
    var live := Request(auth, number, None);
    var response := Fetch(pages, live);
    if response.Ok? && First(response.value).Some? && First(response.value).value.Listing? {
      var guide := First(response.value).value.guide;
      FollowRequests(pages, Converter(number, clock), auth, number, guide, fuel);
      LiveFirst(live, Follow(pages, Converter(number, clock), auth, number, guide, fuel).fetched);
    } else {
      LiveFirst(live, []);
      assert [live] + [] == [live];
    }
  }

  /** The walk's requests all carry a Start and this channel's auth and number. */
  lemma FollowRequests(
    pages: map<Request, Response>, convert: seq<Program> -> Guide.Converted, auth: string, channel: string,
    guide: seq<Program>, fuel: nat)
    ensures var w := Follow(pages, convert, auth, channel, guide, fuel);
      LiveChannels(w.fetched) == []
      && forall i :: 0 <= i < |w.fetched| ==>
        w.fetched[i].auth == auth && w.fetched[i].channel == channel && w.fetched[i].start.Some?
  {
    FollowLive(pages, convert, auth, channel, guide, fuel);
    FollowStarts(pages, convert, auth, channel, guide, fuel);
    FollowShape(pages, convert, auth, channel, guide, fuel);
  }

  lemma LiveFirst(live: Request, rest: seq<Request>)
    requires live.start.None?
    requires LiveChannels(rest) == []
    requires forall i :: 0 <= i < |rest| ==> rest[i].auth == live.auth && rest[i].channel == live.channel
    ensures LiveChannels([live] + rest) == [live.channel]
    ensures forall i :: 0 <= i < |[live] + rest| ==>
      ([live] + rest)[i].auth == live.auth && ([live] + rest)[i].channel == live.channel
  {
    assert LiveChannels([live]) == [live.channel] by {
      assert [live][..0] == [];
    }
    LiveChannelsConcat([live], rest);
    assert forall i :: 1 <= i < |[live] + rest| ==> ([live] + rest)[i] == rest[i - 1];
  }

  /** The channel element comes first and everything after it is a programme of that channel. */
  lemma ChannelElements(pages: map<Request, Response>, auth: string, number: string, clock: Clock, fuel: nat)
    ensures var r := ChannelRun(pages, auth, number, clock, fuel);
      var response := Fetch(pages, Request(auth, number, None));
      (r.elements != [] <==> response.Ok? && First(response.value).Some? && First(response.value).value.Listing?)
      && (r.elements != [] ==> r.elements[0] == ChannelElement(First(response.value).value.info))
      && (forall i :: 1 <= i < |r.elements| ==> IptvXmltv.OfChannel(r.elements[i], number))
  {
    var response := Fetch(pages, Request(auth, number, None));
    if response.Ok? && First(response.value).Some? && First(response.value).value.Listing? {
      var guide := First(response.value).value.guide;
      ConverterLabels(number, clock);
      FollowProgrammes(pages, Converter(number, clock), auth, number, guide, fuel);
      assert var w := Follow(pages, Converter(number, clock), auth, number, guide, fuel);
        forall i :: 0 <= i < |w.elements| ==> IptvXmltv.OfChannel(w.elements[i], number);
    }
  }

  /** The body of the lineup loop for a channel that is taken, over the document and the guide API. */
  method ChannelGuide(root: Document, api: GuideApi, clock: Clock, auth: string, number: string, fuel: nat)
    returns (status: Status)
    modifies root, api
    ensures var r := ChannelRun(api.pages, auth, number, clock, fuel);
      status == r.status && root.children == old(root.children) + r.elements && api.log == old(api.log) + r.fetched
  {
    var live := api.Get(Request(auth, number, None));
    if live.Err? {
      return Failed(live.fault);
    }
    var channelData := First(live.value);
    if channelData.None? {
      return Finished;
    }
    if channelData.value.Blank? {
      return Failed(KeyError);
    }
    var element := ParseChannel(root, channelData.value.info);
    ConverterConverts(number, clock);
    status := Paginate(root, api, clock, auth, number, channelData.value.guide, fuel, Converter(number, clock));
    ghost var w := Follow(api.pages, Converter(number, clock), auth, number, channelData.value.guide, fuel);
    Guide.Regroup(old(root.children), [element], w.elements);
    Guide.Regroup(old(api.log), [Request(auth, number, None)], w.fetched);
  }

  // ---------------------------------------------------------------------
  // The lineup loop

  /**
   * What generate_xmltv carries from channel to channel: parsed_channels, the
   * document's sub-elements, the log of guide requests, and whether the run
   * is still going (Finished) or has stopped.
   */
  datatype Progress = Progress(parsed: seq<string>, elements: seq<Element>, fetched: seq<Request>, status: Status)

  /** A channel is taken when favourites are not asked for, or it is a favourite. */
  predicate Wanted(channel: LineupChannel, favoritesOnly: bool) {
    !favoritesOnly || channel.favorite
  }

  /**
   * One pass of the lineup loop: a channel already parsed, or passed over by
   * the favourites filter, changes nothing; a taken one is recorded once it
   * completes.
   */
  function ChannelStep(
    pages: map<Request, Response>, auth: string, clock: Clock, fuel: nat, favoritesOnly: bool,
    prev: Progress, channel: LineupChannel): Progress
  {
    if channel.guideNumber in prev.parsed || !Wanted(channel, favoritesOnly) then prev
    else
      var r := ChannelRun(pages, auth, channel.guideNumber, clock, fuel);
      Progress(
        if r.status == Finished then prev.parsed + [channel.guideNumber] else prev.parsed,
        prev.elements + r.elements, prev.fetched + r.fetched, r.status)
  }

  /** The lineup loop from `start`; the first channel that fails stops the run. */
  function LineupRun(
    pages: map<Request, Response>, auth: string, lineup: seq<LineupChannel>, clock: Clock, fuel: nat,
    favoritesOnly: bool, start: Progress): Progress
    decreases |lineup|
  {
    if lineup == [] then start
    else
      var prev := LineupRun(pages, auth, lineup[..|lineup| - 1], clock, fuel, favoritesOnly, start);
      if prev.status != Finished then prev
      else ChannelStep(pages, auth, clock, fuel, favoritesOnly, prev, lineup[|lineup| - 1])
  }

  /** The numbers of the channels the favourites filter takes, in lineup order. */
  function Taken(lineup: seq<LineupChannel>, favoritesOnly: bool): seq<string>
    decreases |lineup|
  {
    if lineup == [] then []
    else
      var channel := lineup[|lineup| - 1];
      Taken(lineup[..|lineup| - 1], favoritesOnly) + if Wanted(channel, favoritesOnly) then [channel.guideNumber] else []
  }

  /** A number is taken exactly when some channel of the lineup with that number passes the filter. */
  lemma {:induction false} TakenMembers(lineup: seq<LineupChannel>, favoritesOnly: bool)
    ensures forall x :: x in Taken(lineup, favoritesOnly) <==>
      exists i :: 0 <= i < |lineup| && lineup[i].guideNumber == x && Wanted(lineup[i], favoritesOnly)
    decreases |lineup|
  {
    if lineup != [] {
      var init := lineup[..|lineup| - 1];
      TakenMembers(init, favoritesOnly);
      assert forall i :: 0 <= i < |init| ==> init[i] == lineup[i];
      forall x | exists i :: 0 <= i < |lineup| && lineup[i].guideNumber == x && Wanted(lineup[i], favoritesOnly)
        ensures x in Taken(lineup, favoritesOnly)
      {
        var i :| 0 <= i < |lineup| && lineup[i].guideNumber == x && Wanted(lineup[i], favoritesOnly);
        if i < |init| {
          assert init[i].guideNumber == x && Wanted(init[i], favoritesOnly);
        }
      }
    }
  }

  /**
   * A lineup that completes adds to parsed_channels exactly the numbers of
   * its taken channels not parsed before, each once and in lineup order, and
   * asks for the live first page of exactly those channels, in that order.
   */
  lemma {:induction false} LineupDedup(
    pages: map<Request, Response>, auth: string, lineup: seq<LineupChannel>, clock: Clock, fuel: nat,
    favoritesOnly: bool, start: Progress)
    requires start.status == Finished
    ensures var r := LineupRun(pages, auth, lineup, clock, fuel, favoritesOnly, start);
      var added := Fresh(Taken(lineup, favoritesOnly), start.parsed);
      r.status == Finished ==>
        r.parsed == start.parsed + added && LiveChannels(r.fetched) == LiveChannels(start.fetched) + added
    decreases |lineup|
  {
    if lineup != [] {
      var init, channel := lineup[..|lineup| - 1], lineup[|lineup| - 1];
      var prev := LineupRun(pages, auth, init, clock, fuel, favoritesOnly, start);
      LineupDedup(pages, auth, init, clock, fuel, favoritesOnly, start);
      if prev.status == Finished {
        DedupStep(pages, auth, clock, fuel, favoritesOnly, prev, channel, start.parsed, start.fetched, Taken(init, favoritesOnly));
      }
    }
  }

  /** One channel keeps parsed_channels and the live requests equal to the fresh taken numbers so far. */
  lemma DedupStep(
    pages: map<Request, Response>, auth: string, clock: Clock, fuel: nat, favoritesOnly: bool,
    prev: Progress, channel: LineupChannel, seen: seq<string>, log: seq<Request>, taken: seq<string>)
    requires prev.status == Finished
    requires prev.parsed == seen + Fresh(taken, seen)
    requires LiveChannels(prev.fetched) == LiveChannels(log) + Fresh(taken, seen)
    ensures var r := ChannelStep(pages, auth, clock, fuel, favoritesOnly, prev, channel);
      var added := Fresh(taken + if Wanted(channel, favoritesOnly) then [channel.guideNumber] else [], seen);
      r.status == Finished ==> r.parsed == seen + added && LiveChannels(r.fetched) == LiveChannels(log) + added
  {
    var n := channel.guideNumber;
    if Wanted(channel, favoritesOnly) {
      FreshSnoc(taken, n, seen);
      if n !in prev.parsed {
        var r := ChannelRun(pages, auth, n, clock, fuel);
        ChannelRequests(pages, auth, n, clock, fuel);
        RunDedup(prev, r, n, seen, log, taken);
      }
    } else {
      assert taken + [] == taken;
    }
  }

  lemma RunDedup(prev: Progress, r: Run, n: string, seen: seq<string>, log: seq<Request>, taken: seq<string>)
    requires prev.parsed == seen + Fresh(taken, seen)
    requires LiveChannels(prev.fetched) == LiveChannels(log) + Fresh(taken, seen)
    requires n !in prev.parsed && LiveChannels(r.fetched) == [n]
    ensures var added := Fresh(taken + [n], seen);
      r.status == Finished ==>
        prev.parsed + [n] == seen + added && LiveChannels(prev.fetched + r.fetched) == LiveChannels(log) + added
  {
    var unseen := Fresh(taken, seen);
    assert n !in seen && n !in unseen by {
      assert forall x :: x in seen || x in unseen ==> x in prev.parsed;
    }
    FreshSnoc(taken, n, seen);
    assert prev.parsed + [n] == seen + (unseen + [n]);
    LiveChannelsConcat(prev.fetched, r.fetched);
    assert LiveChannels(prev.fetched + r.fetched) == LiveChannels(log) + (unseen + [n]);
  }

  lemma FreshSnoc(numbers: seq<string>, x: string, seen: seq<string>)
    ensures Fresh(numbers + [x], seen) ==
      if x in seen || x in Fresh(numbers, seen) then Fresh(numbers, seen) else Fresh(numbers, seen) + [x]
  {
    assert (numbers + [x])[..|numbers|] == numbers;
  }

  /**
   * With favourites only, every channel number a completed lineup records is
   * that of a favourite; a channel passed over is not recorded, so a later
   * favourite with the same number is still taken.
   */
  lemma FavoritesRecorded(
    pages: map<Request, Response>, auth: string, lineup: seq<LineupChannel>, clock: Clock, fuel: nat, start: Progress)
    requires start.status == Finished
    ensures var r := LineupRun(pages, auth, lineup, clock, fuel, true, start);
      r.status == Finished ==>
        forall x :: x in r.parsed && x !in start.parsed ==>
          exists i :: 0 <= i < |lineup| && lineup[i].guideNumber == x && lineup[i].favorite
  {
    var r := LineupRun(pages, auth, lineup, clock, fuel, true, start);
    LineupDedup(pages, auth, lineup, clock, fuel, true, start);
    FreshFacts(Taken(lineup, true), start.parsed);
    TakenMembers(lineup, true);
  }

  /** Once the run has stopped, the rest of the lineup changes nothing. */
  lemma {:induction false} LineupSticky(
    pages: map<Request, Response>, auth: string, lineup: seq<LineupChannel>, clock: Clock, fuel: nat,
    favoritesOnly: bool, start: Progress, n: nat)
    requires n <= |lineup|
    requires LineupRun(pages, auth, lineup[..n], clock, fuel, favoritesOnly, start).status != Finished
    ensures LineupRun(pages, auth, lineup, clock, fuel, favoritesOnly, start)
      == LineupRun(pages, auth, lineup[..n], clock, fuel, favoritesOnly, start)
    decreases |lineup| - n
  {
    if n < |lineup| {
      assert lineup[..n + 1][..n] == lineup[..n];
      LineupSticky(pages, auth, lineup, clock, fuel, favoritesOnly, start, n + 1);
    } else {
      assert lineup[..n] == lineup;
    }
  }

  /** `for channel in lineup`, over the document and the guide API. */
  method LineupGuide(
    root: Document, api: GuideApi, clock: Clock, auth: string, lineup: seq<LineupChannel>, fuel: nat,
    favoritesOnly: bool, parsed: seq<string>)
    returns (parsedOut: seq<string>, status: Status)
    modifies root, api
    ensures var r := LineupRun(api.pages, auth, lineup, clock, fuel, favoritesOnly,
                               Progress(parsed, old(root.children), old(api.log), Finished));
      parsedOut == r.parsed && root.children == r.elements && api.log == r.fetched && status == r.status
  {
    ghost var start := Progress(parsed, root.children, api.log, Finished);
    parsedOut, status := parsed, Finished;
    for i := 0 to |lineup|
      invariant var r := LineupRun(api.pages, auth, lineup[..i], clock, fuel, favoritesOnly, start);
        parsedOut == r.parsed && root.children == r.elements && api.log == r.fetched && status == r.status == Finished
    {
      parsedOut, status := LineupStep(root, api, clock, auth, lineup, i, fuel, favoritesOnly, parsedOut, start);
      if status != Finished {
        LineupSticky(api.pages, auth, lineup, clock, fuel, favoritesOnly, start, i + 1);
        return;
      }
    }
    assert lineup[..|lineup|] == lineup;
  }

  method LineupStep(
    root: Document, api: GuideApi, clock: Clock, auth: string, lineup: seq<LineupChannel>, i: nat, fuel: nat,
    favoritesOnly: bool, parsed: seq<string>, ghost start: Progress)
    returns (parsedOut: seq<string>, status: Status)
    requires i < |lineup|
    requires var r := LineupRun(api.pages, auth, lineup[..i], clock, fuel, favoritesOnly, start);
      parsed == r.parsed && root.children == r.elements && api.log == r.fetched && r.status == Finished
    modifies root, api
    ensures var r := LineupRun(api.pages, auth, lineup[..i + 1], clock, fuel, favoritesOnly, start);
      parsedOut == r.parsed && root.children == r.elements && api.log == r.fetched && status == r.status
  {
    assert lineup[..i + 1][..i] == lineup[..i];
    var channel := lineup[i];
    var channelFavorite := channel.favorite;
    if channel.guideNumber in parsed || !(!favoritesOnly || channelFavorite) {
      return parsed, Finished;
    }
    status := ChannelGuide(root, api, clock, auth, channel.guideNumber, fuel);
    parsedOut := if status == Finished then parsed + [channel.guideNumber] else parsed;
  }

  // ---------------------------------------------------------------------
  // The device loop

  /**
   * One pass of the device loop, given the DeviceAuth each discover URL
   * answers with (None when the answer lacks it) and the lineup each lineup
   * URL answers with (None for JSON null): a device without DeviceID, or
   * with a null lineup, is passed over.
   */
  function DeviceStep(
    pages: map<Request, Response>, auths: map<string, Option<string>>, lineups: map<string, Option<seq<LineupChannel>>>,
    clock: Clock, fuel: nat, favoritesOnly: bool, prev: Progress, device: Device): Progress
  {
    if device.deviceId.None? then prev
    else if device.discoverUrl !in auths then prev.(status := Failed(TransportError))
    else if auths[device.discoverUrl].None? then prev.(status := Failed(KeyError))
    else if device.lineupUrl !in lineups then prev.(status := Failed(TransportError))
    else
      match lineups[device.lineupUrl]
      case None => prev
      case Some(lineup) => LineupRun(pages, auths[device.discoverUrl].value, lineup, clock, fuel, favoritesOnly, prev)
  }

  /** The device loop from `start`; the first failure stops the run. */
  function DevicesRun(
    pages: map<Request, Response>, auths: map<string, Option<string>>, lineups: map<string, Option<seq<LineupChannel>>>,
    devices: seq<Device>, clock: Clock, fuel: nat, favoritesOnly: bool, start: Progress): Progress
    decreases |devices|
  {
    if devices == [] then start
    else
      var prev := DevicesRun(pages, auths, lineups, devices[..|devices| - 1], clock, fuel, favoritesOnly, start);
      if prev.status != Finished then prev
      else DeviceStep(pages, auths, lineups, clock, fuel, favoritesOnly, prev, devices[|devices| - 1])
  }

  /**
   * From `before` to `after`, parsed_channels only grew and stayed free of
   * repetitions, and the live first pages asked for in between are exactly
   * the channel numbers it gained, in order.
   */
  predicate Gained(before: Progress, after: Progress) {
    |before.parsed| <= |after.parsed| && after.parsed[..|before.parsed|] == before.parsed
    && LiveChannels(after.fetched) == LiveChannels(before.fetched) + after.parsed[|before.parsed|..]
    && Distinct(after.parsed)
  }

  lemma GainedTrans(a: Progress, b: Progress, c: Progress)
    requires Gained(a, b) && Gained(b, c)
    ensures Gained(a, c)
  {
    var x, y := b.parsed[|a.parsed|..], c.parsed[|b.parsed|..];
    assert c.parsed == b.parsed + y;
    assert b.parsed == a.parsed + x;
    assert c.parsed == a.parsed + (x + y);
  }

  /** A completed lineup gains exactly its fresh taken channel numbers. */
  lemma LineupGained(
    pages: map<Request, Response>, auth: string, lineup: seq<LineupChannel>, clock: Clock, fuel: nat,
    favoritesOnly: bool, start: Progress)
    requires start.status == Finished && Distinct(start.parsed)
    ensures var r := LineupRun(pages, auth, lineup, clock, fuel, favoritesOnly, start);
      r.status == Finished ==> Gained(start, r)
  {
    var r := LineupRun(pages, auth, lineup, clock, fuel, favoritesOnly, start);
    LineupDedup(pages, auth, lineup, clock, fuel, favoritesOnly, start);
    FreshDistinct(Taken(lineup, favoritesOnly), start.parsed);
    if r.status == Finished {
      assert r.parsed[..|start.parsed|] == start.parsed;
      assert r.parsed[|start.parsed|..] == Fresh(Taken(lineup, favoritesOnly), start.parsed);
    }
  }

  /**
   * Across all devices no channel is fetched live twice, however many tuners
   * carry it: the live first pages asked for are exactly the channel numbers
   * parsed_channels gained, which stays free of repetitions.
   */
  lemma {:induction false} DevicesDedup(
    pages: map<Request, Response>, auths: map<string, Option<string>>, lineups: map<string, Option<seq<LineupChannel>>>,
    devices: seq<Device>, clock: Clock, fuel: nat, favoritesOnly: bool, start: Progress)
    requires start.status == Finished && Distinct(start.parsed)
    ensures var g := DevicesRun(pages, auths, lineups, devices, clock, fuel, favoritesOnly, start);
      g.status == Finished ==> Gained(start, g)
    decreases |devices|
  {
    if devices == [] {
      assert start.parsed[..|start.parsed|] == start.parsed && start.parsed[|start.parsed|..] == [];
    } else {
      var init, device := devices[..|devices| - 1], devices[|devices| - 1];
      var prev := DevicesRun(pages, auths, lineups, init, clock, fuel, favoritesOnly, start);
      DevicesDedup(pages, auths, lineups, init, clock, fuel, favoritesOnly, start);
      if prev.status == Finished && device.deviceId.Some? && device.discoverUrl in auths
         && auths[device.discoverUrl].Some? && device.lineupUrl in lineups && lineups[device.lineupUrl].Some?
      {
        var auth, lineup := auths[device.discoverUrl].value, lineups[device.lineupUrl].value;
        var r := LineupRun(pages, auth, lineup, clock, fuel, favoritesOnly, prev);
        LineupGained(pages, auth, lineup, clock, fuel, favoritesOnly, prev);
        if r.status == Finished {
          GainedTrans(start, prev, r);
        }
      }
    }
  }

  /** A device whose lineup document is JSON null is passed over: nothing changes. */
  lemma NullLineupSkipped(
    pages: map<Request, Response>, auths: map<string, Option<string>>, lineups: map<string, Option<seq<LineupChannel>>>,
    clock: Clock, fuel: nat, favoritesOnly: bool, prev: Progress, device: Device)
    requires device.discoverUrl in auths && auths[device.discoverUrl].Some?
    requires device.lineupUrl in lineups && lineups[device.lineupUrl].None?
    ensures DeviceStep(pages, auths, lineups, clock, fuel, favoritesOnly, prev, device) == prev
  {
  }

  /** Once the run has stopped, the remaining devices change nothing. */
  lemma {:induction false} DevicesSticky(
    pages: map<Request, Response>, auths: map<string, Option<string>>, lineups: map<string, Option<seq<LineupChannel>>>,
    devices: seq<Device>, clock: Clock, fuel: nat, favoritesOnly: bool, start: Progress, n: nat)
    requires n <= |devices|
    requires DevicesRun(pages, auths, lineups, devices[..n], clock, fuel, favoritesOnly, start).status != Finished
    ensures DevicesRun(pages, auths, lineups, devices, clock, fuel, favoritesOnly, start)
      == DevicesRun(pages, auths, lineups, devices[..n], clock, fuel, favoritesOnly, start)
    decreases |devices| - n
  {
    if n < |devices| {
      assert devices[..n + 1][..n] == devices[..n];
      DevicesSticky(pages, auths, lineups, devices, clock, fuel, favoritesOnly, start, n + 1);
    } else {
      assert devices[..n] == devices;
    }
  }

  /**
   * generate_xmltv: the discover request, then the device loop over a fresh
   * "tv" document, which is written, possibly empty, when the run
   * completes. The discover request sits outside any `try`, so when it
   * raises the program ends with that exception and writes nothing; a JSON
   * null answer (`Ok(None)`) is the "no devices" case.
   */
  method GenerateXmltv(
    api: GuideApi, auths: map<string, Option<string>>, lineups: map<string, Option<seq<LineupChannel>>>,
    discovery: Result<Option<seq<Device>>>, clock: Clock, fuel: nat, favoritesOnly: bool)
    returns (document: Option<Element>, status: Status)
    modifies api
    ensures discovery.Err? ==> document.None? && status == Failed(discovery.fault) && api.log == old(api.log)
    ensures discovery == Ok(None) ==> document.None? && status == Finished && api.log == old(api.log)
    ensures discovery.Ok? && discovery.value.Some? ==>
      var g := DevicesRun(api.pages, auths, lineups, discovery.value.value, clock, fuel, favoritesOnly,
                          Progress([], [], old(api.log), Finished));
      status == g.status && api.log == g.fetched
      && document == (if status == Finished then Some(Element("tv", [], None, g.elements)) else None)
  {
    if discovery.Err? {
      return None, Failed(discovery.fault);
    }
    if discovery.value.None? {
      return None, Finished;
    }
    var all := discovery.value.value;
    var root := new Document();
    ghost var start := Progress([], [], api.log, Finished);
    var parsed := [];
    status := Finished;
    for i := 0 to |all|
      invariant fresh(root)
      invariant var g := DevicesRun(api.pages, auths, lineups, all[..i], clock, fuel, favoritesOnly, start);
        parsed == g.parsed && root.children == g.elements && api.log == g.fetched && status == g.status == Finished
    {
      parsed, status := DeviceGuide(root, api, clock, auths, lineups, all, i, fuel, favoritesOnly, parsed, start);
      if status != Finished {
        DevicesSticky(api.pages, auths, lineups, all, clock, fuel, favoritesOnly, start, i + 1);
        return None, status;
      }
    }
    assert all[..|all|] == all;
    document := Some(root.Root());
  }

  /** One pass of the device loop, over the document and the guide API. */
  method DeviceGuide(
    root: Document, api: GuideApi, clock: Clock, auths: map<string, Option<string>>,
    lineups: map<string, Option<seq<LineupChannel>>>, devices: seq<Device>, i: nat, fuel: nat, favoritesOnly: bool,
    parsed: seq<string>, ghost start: Progress)
    returns (parsedOut: seq<string>, status: Status)
    requires i < |devices|
    requires var g := DevicesRun(api.pages, auths, lineups, devices[..i], clock, fuel, favoritesOnly, start);
      parsed == g.parsed && root.children == g.elements && api.log == g.fetched && g.status == Finished
    modifies root, api
    ensures var g := DevicesRun(api.pages, auths, lineups, devices[..i + 1], clock, fuel, favoritesOnly, start);
      parsedOut == g.parsed && root.children == g.elements && api.log == g.fetched && status == g.status
  {
    assert devices[..i + 1][..i] == devices[..i];
    var device := devices[i];
    if device.deviceId.None? {
      return parsed, Finished;
    }
    if device.discoverUrl !in auths {
      return parsed, Failed(TransportError);
    }
    var deviceAuth := auths[device.discoverUrl];
    if deviceAuth.None? {
      return parsed, Failed(KeyError);
    }
    if device.lineupUrl !in lineups {
      return parsed, Failed(TransportError);
    }
    var lineup := lineups[device.lineupUrl];
    if lineup.None? {
      return parsed, Finished;
    }
    parsedOut, status := LineupGuide(root, api, clock, deviceAuth.value, lineup.value, fuel, favoritesOnly, parsed);
  }
}
