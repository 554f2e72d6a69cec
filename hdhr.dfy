/**
 * What the three converters share: the JSON the HDHomeRun cloud API returns
 * (lineup entries, guide pages and their programs) and the guide API itself,
 * reduced to a fixed table of responses plus a log of the requests made.
 */
module Hdhr {
  import opened Wrappers
  import opened Text

  /** One entry of a channel's "Guide" array. Title, StartTime and EndTime are always read. */
  datatype Program = Program(
    title: string,
    startTime: int,
    endTime: int,
    episodeTitle: Option<string>,
    episodeNumber: Option<string>,   // "S01E02"
    synopsis: Option<string>,
    originalAirdate: Option<int>,    // a timestamp
    imageUrl: Option<string>,
    filter: Option<seq<string>>      // category tags such as "Movies", "News"
  )

  /** The channel fields of a guide object. */
  datatype ChannelInfo = ChannelInfo(
    guideNumber: string,
    guideName: string,
    affiliate: Option<string>,
    imageUrl: Option<string>
  )

  /**
   * One element of a guide response: either the empty object {} (the only
   * falsy object, and one without a "Guide" key) or a channel with its programs.
   */
  datatype GuideObject = Blank | Listing(info: ChannelInfo, guide: seq<Program>)

  /** A decoded guide.php response: JSON null or an array. */
  datatype Response = Null | Items(objects: seq<GuideObject>)

  /** next(iter(response or []), None) */
  function First(r: Response): Option<GuideObject> {
    if r.Items? && |r.objects| > 0 then Some(r.objects[0]) else None
  }

  /** A guide.php request: DeviceAuth, Channel and the optional Start. */
  datatype Request = Request(auth: string, channel: string, start: Option<int>)

  /** The outcome of one request against a table of responses; no entry means the transport failed. */
  function Fetch(pages: map<Request, Response>, req: Request): Result<Response> {
    if req in pages then Ok(pages[req]) else Err(TransportError)
  }

  /** The remote guide API: a fixed table of responses and the log of requests sent to it. */
  class GuideApi {
    const pages: map<Request, Response>
    var log: seq<Request>

    constructor (pages: map<Request, Response>)
      ensures this.pages == pages && log == []
    {
      this.pages := pages;
      log := [];
    }

    method Get(req: Request) returns (r: Result<Response>)
      modifies this
      ensures log == old(log) + [req]
      ensures r == Fetch(pages, req)
    {
      log := log + [req];
      r := Fetch(pages, req);
    }
  }

  /** The requests of a log made without a Start, i.e. the first page of a channel. */
  function LiveChannels(log: seq<Request>): seq<string>
    decreases |log|
  {
    if log == [] then []
    else
      var last := log[|log| - 1];
      LiveChannels(log[..|log| - 1]) + (if last.start.None? then [last.channel] else [])
  }

  lemma {:induction false} LiveChannelsConcat(a: seq<Request>, b: seq<Request>)
    ensures LiveChannels(a + b) == LiveChannels(a) + LiveChannels(b)
    decreases |b|
  {
    if b == [] {
      assert a + b == a;
    } else {
      LiveChannelsConcat(a, b[..|b| - 1]);
      assert (a + b)[..|a + b| - 1] == a + b[..|b| - 1];
      assert (a + b)[|a + b| - 1] == b[|b| - 1];
    }
  }

  /** `last_end_time` after `for program in guide: last_end_time = program["EndTime"]`, from 0. */
  function LastEnd(guide: seq<Program>): int {
    if guide == [] then 0 else guide[|guide| - 1].endTime
  }

  /** The "Filter" list, or no tags when the key is absent. */
  function Filters(p: Program): seq<string> {
    if p.filter.Some? then p.filter.value else []
  }

  /** str(category).lower() == "movies" */
  predicate IsMovieTag(tag: string) {
    Lower(tag) == "movies"
  }

  predicate HasMovieTag(tags: seq<string>) {
    exists i :: 0 <= i < |tags| && IsMovieTag(tags[i])
  }

  /** One entry of a device's lineup.json. */
  datatype LineupChannel = LineupChannel(
    guideNumber: string,
    guideName: string,
    url: string,
    favorite: bool,   // a truthy "Favorite"
    hd: bool          // a truthy "HD"
  )

  /** One entry of the discovery list; storage devices carry no DeviceID. */
  datatype Device = Device(
    deviceId: Option<string>,
    discoverUrl: string,
    lineupUrl: string,
    deviceAuth: string
  )

  /** No value occurs twice. */
  predicate Distinct(s: seq<string>) {
    forall i, j :: 0 <= i < j < |s| ==> s[i] != s[j]
  }

  /**
   * The values a loop guarded by `n not in seen`, followed by `seen.append(n)`,
   * processes: those not seen before, each once, first occurrence first.
   */
  function Fresh(numbers: seq<string>, seen: seq<string>): seq<string>
    decreases |numbers|
  {
    if numbers == [] then []
    else
      var init := Fresh(numbers[..|numbers| - 1], seen);
      var n := numbers[|numbers| - 1];
      if n in seen || n in init then init else init + [n]
  }

  /** Fresh keeps exactly the unseen values of its input, each once. */
  lemma {:induction false} FreshFacts(numbers: seq<string>, seen: seq<string>)
    ensures forall x :: x in Fresh(numbers, seen) <==> x in numbers && x !in seen
    ensures Distinct(Fresh(numbers, seen))
    decreases |numbers|
  {
    if numbers != [] {
      FreshFacts(numbers[..|numbers| - 1], seen);
      assert numbers == numbers[..|numbers| - 1] + [numbers[|numbers| - 1]];
    }
  }

  /** Appending the fresh values to the seen ones keeps them distinct. */
  lemma FreshDistinct(numbers: seq<string>, seen: seq<string>)
    requires Distinct(seen)
    ensures Distinct(seen + Fresh(numbers, seen))
  {
    var f := Fresh(numbers, seen);
    FreshFacts(numbers, seen);
    forall i, j | 0 <= i < j < |seen + f|
      ensures (seen + f)[i] != (seen + f)[j]
    {
      if j >= |seen| && i < |seen| {
        assert (seen + f)[j] == f[j - |seen|];
        assert (seen + f)[j] in f;
      }
    }
  }
}
