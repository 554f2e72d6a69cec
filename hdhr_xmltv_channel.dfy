/**
 * process_channel of the oldest converter (hdhr-xmltv.py): the channel
 * element, the programs of the channel's initial guide, then at most 24
 * further guide requests, each starting at the raw EndTime of the last
 * program processed. Every program of every object of a response is
 * processed; any exception during those requests ends them quietly and
 * keeps everything appended so far.
 */
module HdhrXmltvChannel {
  import opened Wrappers
  import opened Xml
  import opened Clock
  import opened Hdhr
  import opened Xmltv
  import opened HdhrXmltvProgram
  import Middle = Hdhr2XmlProgram
  import Walk = Hdhr2XmlXmltv
  import Guide = Hdhr2IptvGuide
  import IptvXmltv = Hdhr2IptvXmltv

  /** The number of further guide requests process_channel makes at most. */
  const Requests: nat := 24

  // ---------------------------------------------------------------------
  // The channel element

  /** display-name elements for the guide name, the guide number and the affiliate when there is one. */
  function ChannelNames(info: ChannelInfo): seq<Element> {
    [DisplayName(info.guideName), DisplayName(info.guideNumber)]
    + (if info.affiliate.Some? then [DisplayName(info.affiliate.value)] else [])
  }

  /** The channel element: id is the guide name, then the display names and the icon when there is an image. */
  function ChannelElement(info: ChannelInfo): Element {
    Element(
      "channel",
      [("id", info.guideName)],
      None,
      ChannelNames(info) + (if info.imageUrl.Some? then [Icon(info.imageUrl.value)] else []))
  }

  /**
   * The channel is identified by its guide name; the display names come as
   * name, number, then the affiliate when there is one, and an icon appears
   * exactly when the channel has an image.
   */
  lemma ChannelShape(info: ChannelInfo)
    ensures var e := ChannelElement(info);
      e.attributes == [("id", info.guideName)]
      && Select(e.children, "display-name") ==
        [DisplayName(info.guideName), DisplayName(info.guideNumber)]
        + (if info.affiliate.Some? then [DisplayName(info.affiliate.value)] else [])
      && Select(e.children, "icon") == (if info.imageUrl.Some? then [Icon(info.imageUrl.value)] else [])
  {
    var names := ChannelNames(info);
    var icon := if info.imageUrl.Some? then [Icon(info.imageUrl.value)] else [];
    assert forall i :: 0 <= i < |names| ==> names[i].tag == "display-name";
    assert forall i :: 0 <= i < |icon| ==> icon[i].tag == "icon";
    Middle.NamesThenIcon(names, icon);
  }

  /** The first part of process_channel: appends the channel element. */
  method AppendChannel(root: Document, info: ChannelInfo) returns (e: Element)
    modifies root
    ensures e == ChannelElement(info)
    ensures root.children == old(root.children) + [e]
  {
    var children := [DisplayName(info.guideName)];
    children := children + [DisplayName(info.guideNumber)];
    if info.affiliate.Some? {
      children := children + [DisplayName(info.affiliate.value)];
    }
    if info.imageUrl.Some? {
      children := children + [Icon(info.imageUrl.value)];
    }
    e := Element("channel", [("id", info.guideName)], None, children);
    root.Append(e);
  }

  // ---------------------------------------------------------------------
  // One guide

  /** What process_program gives for each program of a guide, in order. */
  function Outcomes(guide: seq<Program>, guideName: string, clock: Clock): (r: seq<Middle.Parsed>)
    ensures |r| == |guide|
    ensures forall i :: 0 <= i < |guide| ==> r[i] == Programme(guide[i], guideName, clock)
  {
    seq(|guide|, i requires 0 <= i < |guide| => Programme(guide[i], guideName, clock))
  }

  /** What processing a guide appends, and the exception that stops it. */
  function Convert(guide: seq<Program>, guideName: string, clock: Clock): Guide.Converted {
    Walk.Collect(Outcomes(guide, guideName, clock))
  }

  /** maxTime after processing a guide that raised nothing: the last program's EndTime, or as it was. */
  function After(guide: seq<Program>, maxTime: int): int {
    if guide == [] then maxTime else LastEnd(guide)
  }

  lemma AfterConcat(a: seq<Program>, b: seq<Program>, maxTime: int)
    ensures After(a + b, maxTime) == After(b, After(a, maxTime))
  {
    if b == [] {
      assert a + b == a;
    }
  }

  /** `for program in guide: maxTime = process_program(...)` */
  method ProcessGuide(root: Document, guide: seq<Program>, guideName: string, clock: Clock, maxTime: int)
    returns (newMax: int, fault: Option<Fault>)
    modifies root
    ensures root.children == old(root.children) + Convert(guide, guideName, clock).elements
    ensures fault == Convert(guide, guideName, clock).fault
    ensures fault.None? ==> newMax == After(guide, maxTime)
  {
    ghost var outcomes := Outcomes(guide, guideName, clock);
    ghost var base := root.children;
    newMax := maxTime;
    for i := 0 to |guide|
      invariant root.children == base + Walk.Collect(outcomes[..i]).elements
      invariant Walk.Collect(outcomes[..i]).fault.None?
      invariant newMax == After(guide[..i], maxTime)
    {
      var r := ProcessAt(root, guide, i, guideName, clock, outcomes, base);
      if r.Err? {
        Walk.CollectSticky(outcomes, i + 1);
        return newMax, Some(r.fault);
      }
      newMax := r.value;
    }
    assert outcomes[..|guide|] == outcomes;
    assert guide[..|guide|] == guide;
    fault := None;
  }

  /** One pass of the guide loop: process_program on program i, after i programs went through. */
  method ProcessAt(
    root: Document, guide: seq<Program>, i: nat, guideName: string, clock: Clock,
    ghost outcomes: seq<Middle.Parsed>, ghost base: seq<Element>) returns (r: Result<int>)
    requires i < |guide| && i < |outcomes| && outcomes[i] == Programme(guide[i], guideName, clock)
    requires Walk.Collect(outcomes[..i]).fault.None?
    requires root.children == base + Walk.Collect(outcomes[..i]).elements
    modifies root
    ensures root.children == base + Walk.Collect(outcomes[..i + 1]).elements
    ensures Walk.Collect(outcomes[..i + 1]).fault == if r.Err? then Some(r.fault) else None
    ensures r.Ok? ==> r.value == LastEnd(guide[..i + 1])
  {
    Walk.CollectSnoc(outcomes, i);
    assert guide[..i + 1][i] == guide[i];
    r := ProcessProgram(root, guide[i], guideName, clock);
  }

  /** Every page `convert` converts becomes programmes of the guide name only, as process_program makes them. */
  ghost predicate Converts(convert: seq<Program> -> Guide.Converted, guideName: string, clock: Clock) {
    forall guide {:trigger Convert(guide, guideName, clock)} :: convert(guide) == Convert(guide, guideName, clock)
  }

  /** The oldest converter's guide conversion: process_program over every program. */
  function Converter(guideName: string, clock: Clock): seq<Program> -> Guide.Converted {
    guide => Convert(guide, guideName, clock)
  }

  lemma ConverterConverts(guideName: string, clock: Clock)
    ensures Converts(Converter(guideName, clock), guideName, clock)
  {
  }

  /** Converting any guide yields programmes labelled with the guide name only. */
  lemma ConverterLabels(guideName: string, clock: Clock)
    ensures Walk.Labels(Converter(guideName, clock), guideName)
  {
    forall guide, i | 0 <= i < |Converter(guideName, clock)(guide).elements|
      ensures IptvXmltv.OfChannel(Converter(guideName, clock)(guide).elements[i], guideName)
    {
      var outcomes := Outcomes(guide, guideName, clock);
      Walk.CollectPrefix(outcomes);
      assert Converter(guideName, clock)(guide).elements[i] == outcomes[i].element;
    }
  }

  // ---------------------------------------------------------------------
  // One response

  /** What processing the objects of one response appends, maxTime afterwards, and the exception that stops it. */
  datatype Pass = Pass(elements: seq<Element>, maxTime: int, fault: Option<Fault>)

  /**
   * `for chan in chanData: for program in chan["Guide"]`: the empty object
   * raises KeyError, a channel has its whole guide processed.
   */
  function PassOver(objects: seq<GuideObject>, convert: seq<Program> -> Guide.Converted, maxTime: int): Pass
    decreases |objects|
  {
    if objects == [] then Pass([], maxTime, None)
    else
      var init := PassOver(objects[..|objects| - 1], convert, maxTime);
      if init.fault.Some? then init
      else
        match objects[|objects| - 1]
        case Blank => Pass(init.elements, init.maxTime, Some(KeyError))
        case Listing(_, guide) =>
          var c := convert(guide);
          Pass(init.elements + c.elements, After(guide, init.maxTime), c.fault)
  }

  /** Every program of a response, object after object. */
  function Programs(objects: seq<GuideObject>): seq<Program>
    decreases |objects|
  {
    if objects == [] then []
    else
      var last := objects[|objects| - 1];
      Programs(objects[..|objects| - 1]) + (if last.Listing? then last.guide else [])
  }

  /**
   * A response processed without an exception holds no empty object, and
   * leaves maxTime at the raw EndTime of its very last program, or as it
   * was when it holds no program.
   */
  lemma {:induction false} PassMaxTime(objects: seq<GuideObject>, convert: seq<Program> -> Guide.Converted, maxTime: int)
    requires PassOver(objects, convert, maxTime).fault.None?
    ensures PassOver(objects, convert, maxTime).maxTime == After(Programs(objects), maxTime)
    ensures forall i :: 0 <= i < |objects| ==> objects[i].Listing?
    decreases |objects|
  {
    if objects != [] {
      var init := objects[..|objects| - 1];
      var last := objects[|objects| - 1];
      PassMaxTime(init, convert, maxTime);
      AfterConcat(Programs(init), if last.Listing? then last.guide else [], maxTime);
      assert forall i :: 0 <= i < |init| ==> init[i] == objects[i];
    }
  }

  /** Every element is a programme of the guide name. */
  ghost predicate Labelled(elements: seq<Element>, guideName: string) {
    forall i :: 0 <= i < |elements| ==> IptvXmltv.OfChannel(elements[i], guideName)
  }

  lemma LabelledConcat(a: seq<Element>, b: seq<Element>, guideName: string)
    requires Labelled(a, guideName) && Labelled(b, guideName)
    ensures Labelled(a + b, guideName)
  {
    forall i | 0 <= i < |a + b|
      ensures IptvXmltv.OfChannel((a + b)[i], guideName)
    {
      if i >= |a| {
        assert (a + b)[i] == b[i - |a|];
      }
    }
  }

  /** Every element a response adds is a programme of the guide name, when every guide converts to such. */
  lemma {:induction false} PassLabels(objects: seq<GuideObject>, convert: seq<Program> -> Guide.Converted, maxTime: int, guideName: string)
    requires Walk.Labels(convert, guideName)
    ensures Labelled(PassOver(objects, convert, maxTime).elements, guideName)
    decreases |objects|
  {
    if objects != [] {
      var init := PassOver(objects[..|objects| - 1], convert, maxTime);
      PassLabels(objects[..|objects| - 1], convert, maxTime, guideName);
      var last := objects[|objects| - 1];
      if init.fault.None? && last.Listing? {
        var c := convert(last.guide);
        assert Labelled(c.elements, guideName);
        LabelledConcat(init.elements, c.elements, guideName);
      }
    }
  }

  lemma PassSnoc(objects: seq<GuideObject>, convert: seq<Program> -> Guide.Converted, maxTime: int, i: nat)
    requires i < |objects|
    ensures var init := PassOver(objects[..i], convert, maxTime);
      PassOver(objects[..i + 1], convert, maxTime) ==
        if init.fault.Some? then init
        else match objects[i]
          case Blank => Pass(init.elements, init.maxTime, Some(KeyError))
          case Listing(_, guide) =>
            Pass(init.elements + convert(guide).elements, After(guide, init.maxTime), convert(guide).fault)
  {
    assert objects[..i + 1][..i] == objects[..i];
  }

  /** Once a prefix has raised, the objects after it change nothing. */
  lemma {:induction false} PassSticky(objects: seq<GuideObject>, convert: seq<Program> -> Guide.Converted, maxTime: int, n: nat)
    requires n <= |objects|
    requires PassOver(objects[..n], convert, maxTime).fault.Some?
    ensures PassOver(objects, convert, maxTime) == PassOver(objects[..n], convert, maxTime)
    decreases |objects| - n
  {
    if n < |objects| {
      assert objects[..n + 1][..n] == objects[..n];
      PassSticky(objects, convert, maxTime, n + 1);
    } else {
      assert objects[..n] == objects;
    }
  }

  /** The loops over a response's objects and their programs. */
  method ProcessObjects(
    root: Document, objects: seq<GuideObject>, guideName: string, clock: Clock, maxTime: int,
    ghost convert: seq<Program> -> Guide.Converted)
    returns (newMax: int, fault: Option<Fault>)
    requires Converts(convert, guideName, clock)
    modifies root
    ensures var s := PassOver(objects, convert, maxTime);
      root.children == old(root.children) + s.elements && fault == s.fault && (fault.None? ==> newMax == s.maxTime)
  {
    ghost var base := root.children;
    newMax := maxTime;
    for i := 0 to |objects|
      invariant var s := PassOver(objects[..i], convert, maxTime);
        root.children == base + s.elements && s.fault.None? && newMax == s.maxTime
    {
      PassSnoc(objects, convert, maxTime, i);
      if objects[i].Blank? {
        PassSticky(objects, convert, maxTime, i + 1);
        return newMax, Some(KeyError);
      }
      ghost var before := root.children;
      assert convert(objects[i].guide) == Convert(objects[i].guide, guideName, clock);
      var guideFault;
      newMax, guideFault := ProcessGuide(root, objects[i].guide, guideName, clock, newMax);
      Guide.Regroup(base, PassOver(objects[..i], convert, maxTime).elements, convert(objects[i].guide).elements);
      if guideFault.Some? {
        PassSticky(objects, convert, maxTime, i + 1);
        return newMax, guideFault;
      }
    }
    assert objects[..|objects|] == objects;
    fault := None;
  }

  // ---------------------------------------------------------------------
  // The further requests

  /** What one further request gives: an unanswered request raises, JSON null raises TypeError on iteration. */
  function Step(result: Result<Response>, convert: seq<Program> -> Guide.Converted, maxTime: int): Pass {
    match result
    case Err(f) => Pass([], maxTime, Some(f))
    case Ok(Null) => Pass([], maxTime, Some(TypeError))
    case Ok(Items(objects)) => PassOver(objects, convert, maxTime)
  }

  /** The further request for maxTime and what processing its response gives. */
  function Next(pages: map<Request, Response>, convert: seq<Program> -> Guide.Converted, auth: string, number: string, maxTime: int): Pass {
    Step(Fetch(pages, Request(auth, number, Some(maxTime))), convert, maxTime)
  }

  /** Everything the further requests did. */
  datatype Extension = Extension(
    starts: seq<int>,           // the Start of every request, in order
    responses: seq<Response>,   // the response to each of them that arrived
    elements: seq<Element>,     // the programme elements appended
    fetched: seq<Request>,      // the requests sent
    stop: Option<Fault>)        // the exception that ended them, None after all of them

  /**
   * `while counter < 24`, from a counter and a maxTime: request the guide
   * starting at maxTime, process every program of the response, count,
   * and go on; an exception ends the loop.
   */
  function Extend(
    pages: map<Request, Response>, convert: seq<Program> -> Guide.Converted, auth: string, number: string,
    maxTime: int, counter: nat): Extension
    decreases Requests - counter
  {
    if counter >= Requests then Extension([], [], [], [], None)
    else
      var request := Request(auth, number, Some(maxTime));
      var result := Fetch(pages, request);
      var s := Step(result, convert, maxTime);
      var answered := if result.Ok? then [result.value] else [];
      if s.fault.Some? then Extension([maxTime], answered, s.elements, [request], s.fault)
      else
        var rest := Extend(pages, convert, auth, number, s.maxTime, counter + 1);
        Extension([maxTime] + rest.starts, answered + rest.responses, s.elements + rest.elements,
                  [request] + rest.fetched, rest.stop)
  }

  /** A request that goes through: it, its response and what it appended, then the rest. */
  lemma ExtendNext(
    pages: map<Request, Response>, convert: seq<Program> -> Guide.Converted, auth: string, number: string,
    maxTime: int, counter: nat)
    requires counter < Requests && Next(pages, convert, auth, number, maxTime).fault.None?
    ensures var x := Extend(pages, convert, auth, number, maxTime, counter);
      var request := Request(auth, number, Some(maxTime));
      var s := Next(pages, convert, auth, number, maxTime);
      var rest := Extend(pages, convert, auth, number, s.maxTime, counter + 1);
      Fetch(pages, request).Ok? && Fetch(pages, request).value.Items?
      && x.starts == [maxTime] + rest.starts && x.responses == [Fetch(pages, request).value] + rest.responses
      && x.elements == s.elements + rest.elements && x.fetched == [request] + rest.fetched && x.stop == rest.stop
  {
  }

  /** The loop ends at this request: after the last of them, or on an exception. */
  lemma ExtendStop(
    pages: map<Request, Response>, convert: seq<Program> -> Guide.Converted, auth: string, number: string,
    maxTime: int, counter: nat)
    requires !(counter < Requests && Next(pages, convert, auth, number, maxTime).fault.None?)
    ensures var x := Extend(pages, convert, auth, number, maxTime, counter);
      var s := Next(pages, convert, auth, number, maxTime);
      (counter >= Requests ==> x == Extension([], [], [], [], None))
      && (counter < Requests ==>
            x.starts == [maxTime] && x.fetched == [Request(auth, number, Some(maxTime))]
            && |x.responses| <= 1 && x.elements == s.elements && x.stop == s.fault && x.stop.Some?)
  {
  }

  /**
   * At most 24 requests from a fresh counter, one Start per request; without
   * an exception all of them are made.
   */
  lemma {:induction false} ExtendBound(
    pages: map<Request, Response>, convert: seq<Program> -> Guide.Converted, auth: string, number: string,
    maxTime: int, counter: nat)
    ensures var x := Extend(pages, convert, auth, number, maxTime, counter);
      var left := if counter < Requests then Requests - counter else 0;
      |x.fetched| == |x.starts| && |x.responses| <= |x.starts| <= left
      && (x.stop.None? ==> |x.fetched| == left)
      && (x.stop.Some? ==> |x.fetched| >= 1)
    decreases Requests - counter
  {
    if counter < Requests && Next(pages, convert, auth, number, maxTime).fault.None? {
      ExtendNext(pages, convert, auth, number, maxTime, counter);
      ExtendBound(pages, convert, auth, number, Next(pages, convert, auth, number, maxTime).maxTime, counter + 1);
    } else {
      ExtendStop(pages, convert, auth, number, maxTime, counter);
    }
  }

  /**
   * The first request starts at the given maxTime; each request is for the
   * channel's number with its Start, and each later Start is where the
   * response before it left maxTime: the raw EndTime of its last program.
   */
  lemma {:induction false} ExtendStarts(
    pages: map<Request, Response>, convert: seq<Program> -> Guide.Converted, auth: string, number: string,
    maxTime: int, counter: nat)
    ensures var x := Extend(pages, convert, auth, number, maxTime, counter);
      (|x.starts| > 0 ==> x.starts[0] == maxTime)
      && (forall k :: 0 <= k < |x.starts| && k < |x.fetched| ==> x.fetched[k] == Request(auth, number, Some(x.starts[k])))
      && (forall k :: 0 <= k < |x.starts| - 1 && k < |x.responses| ==>
            x.responses[k].Items? && x.starts[k + 1] == After(Programs(x.responses[k].objects), x.starts[k]))
    decreases Requests - counter
  {
    var x := Extend(pages, convert, auth, number, maxTime, counter);
    var s := Next(pages, convert, auth, number, maxTime);
    if counter < Requests && s.fault.None? {
      var rest := Extend(pages, convert, auth, number, s.maxTime, counter + 1);
      var response := Fetch(pages, Request(auth, number, Some(maxTime))).value;
      ExtendNext(pages, convert, auth, number, maxTime, counter);
      ExtendStarts(pages, convert, auth, number, s.maxTime, counter + 1);
      ExtendBound(pages, convert, auth, number, s.maxTime, counter + 1);
      PassMaxTime(response.objects, convert, maxTime);
      StartsCons(x, rest, auth, number, maxTime, After(Programs(response.objects), maxTime), response);
    } else {
      ExtendStop(pages, convert, auth, number, maxTime, counter);
    }
  }

  lemma StartsCons(x: Extension, rest: Extension, auth: string, number: string, maxTime: int, next: int, response: Response)
    requires x.starts == [maxTime] + rest.starts && x.responses == [response] + rest.responses
    requires x.fetched == [Request(auth, number, Some(maxTime))] + rest.fetched
    requires response.Items? && next == After(Programs(response.objects), maxTime)
    requires |rest.starts| > 0 ==> rest.starts[0] == next
    requires forall k :: 0 <= k < |rest.starts| && k < |rest.fetched| ==> rest.fetched[k] == Request(auth, number, Some(rest.starts[k]))
    requires forall k :: 0 <= k < |rest.starts| - 1 && k < |rest.responses| ==>
      rest.responses[k].Items? && rest.starts[k + 1] == After(Programs(rest.responses[k].objects), rest.starts[k])
    ensures forall k :: 0 <= k < |x.starts| && k < |x.fetched| ==> x.fetched[k] == Request(auth, number, Some(x.starts[k]))
    ensures forall k :: 0 <= k < |x.starts| - 1 && k < |x.responses| ==>
      x.responses[k].Items? && x.starts[k + 1] == After(Programs(x.responses[k].objects), x.starts[k])
  {
    forall k | 1 <= k < |x.starts| && k < |x.fetched|
      ensures x.fetched[k] == Request(auth, number, Some(x.starts[k]))
    {
      assert x.fetched[k] == rest.fetched[k - 1] && x.starts[k] == rest.starts[k - 1];
    }
    forall k | 1 <= k < |x.starts| - 1 && k < |x.responses|
      ensures x.responses[k].Items? && x.starts[k + 1] == After(Programs(x.responses[k].objects), x.starts[k])
    {
      assert x.responses[k] == rest.responses[k - 1] && x.starts[k] == rest.starts[k - 1];
      assert x.starts[k + 1] == rest.starts[k];
    }
  }

  /** The loop stops early only on an exception, the one the last request's response raised. */
  lemma {:induction false} ExtendCause(
    pages: map<Request, Response>, convert: seq<Program> -> Guide.Converted, auth: string, number: string,
    maxTime: int, counter: nat)
    ensures var x := Extend(pages, convert, auth, number, maxTime, counter);
      x.stop.Some? ==>
        |x.starts| >= 1 && x.stop == Next(pages, convert, auth, number, x.starts[|x.starts| - 1]).fault
    decreases Requests - counter
  {
    var s := Next(pages, convert, auth, number, maxTime);
    if counter < Requests && s.fault.None? {
      ExtendNext(pages, convert, auth, number, maxTime, counter);
      ExtendCause(pages, convert, auth, number, s.maxTime, counter + 1);
    } else {
      ExtendStop(pages, convert, auth, number, maxTime, counter);
    }
  }

  /** Everything the requests append is a programme of the guide name, when every guide converts to such. */
  lemma {:induction false} ExtendProgrammes(
    pages: map<Request, Response>, convert: seq<Program> -> Guide.Converted, auth: string, number: string,
    maxTime: int, counter: nat, guideName: string)
    requires Walk.Labels(convert, guideName)
    ensures Labelled(Extend(pages, convert, auth, number, maxTime, counter).elements, guideName)
    decreases Requests - counter
  {
    var s := Next(pages, convert, auth, number, maxTime);
    var result := Fetch(pages, Request(auth, number, Some(maxTime)));
    if result.Ok? && result.value.Items? {
      PassLabels(result.value.objects, convert, maxTime, guideName);
    }
    if counter < Requests && s.fault.None? {
      ExtendNext(pages, convert, auth, number, maxTime, counter);
      ExtendProgrammes(pages, convert, auth, number, s.maxTime, counter + 1, guideName);
      LabelledConcat(s.elements, Extend(pages, convert, auth, number, s.maxTime, counter + 1).elements, guideName);
    } else {
      ExtendStop(pages, convert, auth, number, maxTime, counter);
    }
  }

  /** The `try: while counter < 24` loop, over the document and the guide API; returns the exception that ended it. */
  method ExtendedFetch(
    root: Document, api: GuideApi, clock: Clock, auth: string, number: string, guideName: string, maxTime: int,
    ghost convert: seq<Program> -> Guide.Converted)
    returns (stop: Option<Fault>)
    requires Converts(convert, guideName, clock)
    modifies root, api
    ensures var x := Extend(api.pages, convert, auth, number, maxTime, 0);
      stop == x.stop && root.children == old(root.children) + x.elements && api.log == old(api.log) + x.fetched
  {
    ghost var whole := Extend(api.pages, convert, auth, number, maxTime, 0);
    var time := maxTime;
    var counter := 0;
    while counter < Requests
      invariant counter <= Requests
      // what is written and fetched so far, followed by the rest of the loop, is the whole loop
      invariant var x := Extend(api.pages, convert, auth, number, time, counter);
        old(root.children) + whole.elements == root.children + x.elements
        && old(api.log) + whole.fetched == api.log + x.fetched && whole.stop == x.stop
      decreases Requests - counter
    {
      ghost var children, log := root.children, api.log;
      var next, fault, elements, fetched := FetchStep(root, api, clock, auth, number, guideName, time, counter, convert);
      if fault.Some? {
        return fault;
      }
      ghost var rest := Extend(api.pages, convert, auth, number, next, counter + 1);
      Guide.Regroup(children, elements, rest.elements);
      Guide.Regroup(log, fetched, rest.fetched);
      time, counter := next, counter + 1;
    }
    stop := None;
  }

  /**
   * One pass of the loop: the request, then every program of every object of
   * the response; either the exception that ends the loop or the next maxTime.
   */
  method FetchStep(
    root: Document, api: GuideApi, clock: Clock, auth: string, number: string, guideName: string,
    maxTime: int, counter: nat, ghost convert: seq<Program> -> Guide.Converted)
    returns (next: int, fault: Option<Fault>, ghost elements: seq<Element>, ghost fetched: seq<Request>)
    requires counter < Requests && Converts(convert, guideName, clock)
    modifies root, api
    ensures root.children == old(root.children) + elements && api.log == old(api.log) + fetched
    ensures var x := Extend(api.pages, convert, auth, number, maxTime, counter);
      if fault.Some? then
        fault == x.stop && elements == x.elements && fetched == x.fetched
      else
        var rest := Extend(api.pages, convert, auth, number, next, counter + 1);
        x.elements == elements + rest.elements && x.fetched == fetched + rest.fetched && x.stop == rest.stop
  {
    var request := Request(auth, number, Some(maxTime));
    var chanData := api.Get(request);
    fetched := [request];
    if chanData.Err? {
      return maxTime, Some(chanData.fault), [], fetched;
    }
    if chanData.value.Null? {
      return maxTime, Some(TypeError), [], fetched;
    }
    next, fault := ProcessObjects(root, chanData.value.objects, guideName, clock, maxTime, convert);
    elements := PassOver(chanData.value.objects, convert, maxTime).elements;
  }

  // ---------------------------------------------------------------------
  // process_channel

  /**
   * What process_channel leaves behind: the elements appended, the further
   * requests made, the exception of an initial program (which propagates)
   * and the one that ended the further requests (which is swallowed).
   */
  datatype Processed = Processed(elements: seq<Element>, fetched: seq<Request>, raised: Option<Fault>, stop: Option<Fault>)

  /**
   * process_channel for a channel object of the initial guide: the channel
   * element, its programs, then the further requests from one second after
   * the last of them (from 1 when it has none).
   */
  function ProcessedChannel(pages: map<Request, Response>, auth: string, info: ChannelInfo, guide: seq<Program>, clock: Clock): Processed {
    var initial := Convert(guide, info.guideName, clock);
    if initial.fault.Some? then Processed([ChannelElement(info)] + initial.elements, [], initial.fault, None)
    else
      var x := Extend(pages, Converter(info.guideName, clock), auth, info.guideNumber, LastEnd(guide) + 1, 0);
      Processed([ChannelElement(info)] + initial.elements + x.elements, x.fetched, None, x.stop)
  }

  /**
   * A channel makes at most 24 requests, all for its number with a Start,
   * the first one second after the end of the last initial program; only
   * an exception in an initial program escapes, and then nothing is requested.
   */
  lemma ChannelRequests(pages: map<Request, Response>, auth: string, info: ChannelInfo, guide: seq<Program>, clock: Clock)
    ensures var r := ProcessedChannel(pages, auth, info, guide, clock);
      |r.fetched| <= Requests
      && (r.raised.Some? <==> Convert(guide, info.guideName, clock).fault.Some?)
      && (r.raised.Some? ==> r.fetched == [])
      && (|r.fetched| > 0 ==> r.fetched[0] == Request(auth, info.guideNumber, Some(LastEnd(guide) + 1)))
      && (forall i :: 0 <= i < |r.fetched| ==>
            r.fetched[i].auth == auth && r.fetched[i].channel == info.guideNumber && r.fetched[i].start.Some?)
  {
    var convert := Converter(info.guideName, clock);
    ExtendBound(pages, convert, auth, info.guideNumber, LastEnd(guide) + 1, 0);
    ExtendStarts(pages, convert, auth, info.guideNumber, LastEnd(guide) + 1, 0);
  }

  /** The channel element comes first and everything after it is a programme labelled with the guide name. */
  lemma ChannelElements(pages: map<Request, Response>, auth: string, info: ChannelInfo, guide: seq<Program>, clock: Clock)
    ensures var r := ProcessedChannel(pages, auth, info, guide, clock);
      |r.elements| >= 1 && r.elements[0] == ChannelElement(info)
      && (forall i :: 1 <= i < |r.elements| ==> IptvXmltv.OfChannel(r.elements[i], info.guideName))
  {
    var initial := Convert(guide, info.guideName, clock);
    ConvertLabelled(guide, info.guideName, clock);
    if initial.fault.Some? {
      HeadThenLabelled(ChannelElement(info), initial.elements, info.guideName);
    } else {
      var x := Extend(pages, Converter(info.guideName, clock), auth, info.guideNumber, LastEnd(guide) + 1, 0);
      ExtendLabelled(pages, auth, info.guideNumber, info.guideName, clock, LastEnd(guide) + 1);
      LabelledConcat(initial.elements, x.elements, info.guideName);
      HeadThenLabelled(ChannelElement(info), initial.elements + x.elements, info.guideName);
      assert [ChannelElement(info)] + initial.elements + x.elements == [ChannelElement(info)] + (initial.elements + x.elements);
    }
  }

  /** The programs of the initial guide become programmes labelled with the guide name. */
  lemma ConvertLabelled(guide: seq<Program>, guideName: string, clock: Clock)
    ensures Labelled(Convert(guide, guideName, clock).elements, guideName)
  {
    ConverterLabels(guideName, clock);
    assert Converter(guideName, clock)(guide) == Convert(guide, guideName, clock);
  }

  /** The further requests of a channel append programmes labelled with the guide name. */
  lemma ExtendLabelled(pages: map<Request, Response>, auth: string, number: string, guideName: string, clock: Clock, start: int)
    ensures Labelled(Extend(pages, Converter(guideName, clock), auth, number, start, 0).elements, guideName)
  {
    ConverterLabels(guideName, clock);
    ExtendProgrammes(pages, Converter(guideName, clock), auth, number, start, 0, guideName);
  }

  /** One element ahead of labelled programmes. */
  lemma HeadThenLabelled(head: Element, tail: seq<Element>, guideName: string)
    requires Labelled(tail, guideName)
    ensures var all := [head] + tail;
      all[0] == head && forall i :: 1 <= i < |all| ==> IptvXmltv.OfChannel(all[i], guideName)
  {
    var all := [head] + tail;
    assert forall i :: 1 <= i < |all| ==> all[i] == tail[i - 1];
  }

  /** process_channel over the document and the guide API: returns the exception that escapes, and the one swallowed. */
  method ProcessChannel(root: Document, api: GuideApi, clock: Clock, auth: string, info: ChannelInfo, guide: seq<Program>)
    returns (raised: Option<Fault>, stop: Option<Fault>)
    modifies root, api
    ensures var r := ProcessedChannel(api.pages, auth, info, guide, clock);
      raised == r.raised && stop == r.stop
      && root.children == old(root.children) + r.elements && api.log == old(api.log) + r.fetched
  {
    var element := AppendChannel(root, info);
    ghost var withChannel := root.children;
    var maxTime, fault := ProcessGuide(root, guide, info.guideName, clock, 0);
    if fault.Some? {
      return fault, None;
    }
    assert After(guide, 0) == LastEnd(guide);
    ghost var initial := Convert(guide, info.guideName, clock).elements;
    maxTime := maxTime + 1;
    ConverterConverts(info.guideName, clock);
    stop := ExtendedFetch(root, api, clock, auth, info.guideNumber, info.guideName, maxTime, Converter(info.guideName, clock));
    raised := None;
    ghost var x := Extend(api.pages, Converter(info.guideName, clock), auth, info.guideNumber, maxTime, 0);
    Guide.Regroup(old(root.children), [element], initial);
    Guide.Regroup(old(root.children) + [element], initial, x.elements);
  }
}
