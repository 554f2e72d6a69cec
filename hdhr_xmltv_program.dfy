/**
 * The oldest converter (hdhr-xmltv.py): the UTC offset text, the fake
 * episode numbers made from the current local time, in_list, and one guide
 * program becoming one XMLTV `programme` element. Compared with the later
 * converters the episode number is split at 'E' rather than parsed as
 * numbers, there are no novelty markers, a program with filter tags but no
 * episode number and no movie tag gets a made-up episode, and the filter
 * categories are lower-cased.
 */
module HdhrXmltvProgram {
  import opened Wrappers
  import opened Text
  import opened Xml
  import opened Clock
  import opened Hdhr
  import opened Xmltv
  import Iptv = Hdhr2IptvProgram
  import Middle = Hdhr2XmlProgram

  // ---------------------------------------------------------------------
  // get_utc_offset_str

  /**
   * The sign of the offset, then the hours and minutes of its magnitude as
   * gmtime and "%H:%M" write them: the hours wrap at a day.
   */
  function UtcOffset(seconds: int): string {
    var magnitude := if seconds < 0 then -seconds else seconds;
    (if seconds < 0 then "-" else "+") + Pad(magnitude / 3600 % 24, 2) + ":" + Pad(magnitude / 60 % 60, 2)
  }

  /**
   * Six characters: '-' exactly for an offset behind UTC and '+' otherwise,
   * two digits of hours, ':', two digits of minutes.
   */
  lemma OffsetShape(seconds: int)
    ensures var r := UtcOffset(seconds);
      var magnitude := if seconds < 0 then -seconds else seconds;
      |r| == 6 && r[0] == (if seconds < 0 then '-' else '+') && r[3] == ':'
      && AllDigits(r[1..3]) && Value(r[1..3]) == magnitude / 3600 % 24
      && AllDigits(r[4..]) && Value(r[4..]) == magnitude / 60 % 60
  {
    var magnitude := if seconds < 0 then -seconds else seconds;
    var hours, minutes := Pad(magnitude / 3600 % 24, 2), Pad(magnitude / 60 % 60, 2);
    TwoDigits(magnitude / 3600 % 24);
    TwoDigits(magnitude / 60 % 60);
    var r := UtcOffset(seconds);
    assert r == (if seconds < 0 then "-" else "+") + hours + ":" + minutes;
    assert r[1..3] == hours && r[4..] == minutes;
  }

  /** The offset in seconds a "+HH:MM" or "-HH:MM" text stands for. */
  function ReadOffset(r: string): Option<int> {
    if |r| == 6 && (r[0] == '+' || r[0] == '-') && r[3] == ':' && AllDigits(r[1..3]) && AllDigits(r[4..]) then
      var magnitude := Value(r[1..3]) * 3600 + Value(r[4..]) * 60;
      Some(if r[0] == '-' then -magnitude else magnitude)
    else None
  }

  /** A whole number of minutes less than a day away from UTC is written exactly. */
  lemma OffsetRoundTrip(seconds: int)
    requires -86400 < seconds < 86400 && seconds % 60 == 0
    ensures ReadOffset(UtcOffset(seconds)) == Some(seconds)
  {
    OffsetShape(seconds);
    var magnitude := if seconds < 0 then -seconds else seconds;
    var q := magnitude / 60;
    assert magnitude == 60 * q;
    assert magnitude / 3600 == q / 60;
    assert q == 60 * (q / 60) + q % 60;
    assert magnitude / 3600 % 24 == magnitude / 3600;
    assert (magnitude / 3600 % 24) * 3600 + (magnitude / 60 % 60) * 60 == magnitude;
  }

  /** The offset with its ':' removed, as process_program writes it after each stamp. */
  function CompactOffset(seconds: int): string {
    Remove(UtcOffset(seconds), ':')
  }

  /** Removing the ':' leaves the sign, the hours and the minutes: five characters. */
  lemma CompactShape(seconds: int)
    ensures var r := UtcOffset(seconds);
      |r| == 6 && CompactOffset(seconds) == r[..3] + r[4..] && |CompactOffset(seconds)| == 5
  {
    OffsetShape(seconds);
    var r := UtcOffset(seconds);
    var head, tail := r[..3], r[4..];
    assert forall i :: 0 <= i < |head| ==> head[i] != ':';
    assert forall i :: 0 <= i < |tail| ==> tail[i] != ':';
    assert r == head + [':'] + tail;
    RemoveAround(head, tail, ':');
  }

  /** Removing the one separator between two texts free of it joins them. */
  lemma RemoveAround(head: string, tail: string, c: char)
    requires forall i :: 0 <= i < |head| ==> head[i] != c
    requires forall i :: 0 <= i < |tail| ==> tail[i] != c
    ensures Remove(head + [c] + tail, c) == head + tail
  {
    var front := head + [c];
    assert c !in head && c !in tail;
    RemoveFree(head, c);
    RemoveFree(tail, c);
    RemoveSnoc(head, c, c);
    assert Remove(front, c) == head;
    RemoveConcat(front, tail, c);
  }

  /** A start or stop attribute: the local "%Y%m%d%H%M%S" time, a space and the compact offset. */
  function Stamp(t: int, clock: Clock): string {
    clock.localStamp(t) + " " + CompactOffset(clock.utcOffset)
  }

  // ---------------------------------------------------------------------
  // date_time_to_episode and date_time_to_episode_friendly

  /** "%Y" of the current local time. */
  function FakeSeason(now: LocalTime): string {
    Pad(now.date.year, 4)
  }

  /** "%m%d%H" of the current local time. */
  function FakeEpisodeText(now: LocalTime): string {
    Pad(now.date.month, 2) + Pad(now.date.day, 2) + Pad(now.hour, 2)
  }

  /** date_time_to_episode: "YYYY . MMDDHH . 0/1". */
  function DateTimeToEpisode(now: LocalTime): string {
    FakeSeason(now) + " . " + FakeEpisodeText(now) + " . 0/1"
  }

  /** date_time_to_episode_friendly: "SYYYYEMMDDHH". */
  function DateTimeToEpisodeFriendly(now: LocalTime): string {
    "S" + FakeSeason(now) + "E" + FakeEpisodeText(now)
  }

  /**
   * The fake season reads back as the year, and the fake episode is six
   * digits reading back as month, day and hour run together.
   */
  lemma FakeDigits(now: LocalTime)
    requires 0 <= now.hour < 24
    ensures ParseInt(FakeSeason(now)) == Some(now.date.year) && |FakeSeason(now)| >= 4
    ensures var e := FakeEpisodeText(now);
      |e| == 6 && AllDigits(e) && Value(e) == now.date.month * 10000 + now.date.day * 100 + now.hour
  {
    ParsePad(now.date.year, 4);
    var m, d, h := Pad(now.date.month, 2), Pad(now.date.day, 2), Pad(now.hour, 2);
    TwoDigits(now.date.month);
    TwoDigits(now.date.day);
    TwoDigits(now.hour);
    ValueTwoMore(m, d);
    ValueTwoMore(m + d, h);
  }

  /**
   * The two fake texts describe the same episode: the xmltv_ns text
   * process_program would derive from the friendly one is the fake xmltv_ns
   * text.
   */
  lemma FakeAgrees(now: LocalTime)
    ensures XmltvNs(DateTimeToEpisodeFriendly(now)) == Some(DateTimeToEpisode(now))
  {
    var s, e := FakeSeason(now), FakeEpisodeText(now);
    ParsePad(now.date.year, 4);
    ParsePad(now.date.month, 2);
    ParsePad(now.date.day, 2);
    ParsePad(now.hour, 2);
    NumericFree(s, 'E');
    NumericFree(s, 'S');
    NumericFree(Pad(now.date.month, 2), 'E');
    NumericFree(Pad(now.date.day, 2), 'E');
    NumericFree(Pad(now.hour, 2), 'E');
    assert 'E' !in e;
    RemoveFree(s, 'S');
    XmltvNsOfCode(s, e);
  }

  /** A text of digits and minus signs holds no other character. */
  lemma NumericFree(s: string, c: char)
    requires Numeric(s) && !IsDigit(c) && c != '-'
    ensures c !in s
  {
    assert forall i :: 0 <= i < |s| ==> s[i] != c;
  }

  // ---------------------------------------------------------------------
  // in_list

  /** list.count(value) */
  function Count<T(==)>(l: seq<T>, value: T): nat
    decreases |l|
  {
    if l == [] then 0 else Count(l[..|l| - 1], value) + (if l[|l| - 1] == value then 1 else 0)
  }

  /** in_list: the value occurs at least once. */
  predicate InList<T(==)>(l: seq<T>, value: T) {
    Count(l, value) > 0
  }

  /** in_list is list membership. */
  lemma {:induction false} InListMember<T>(l: seq<T>, value: T)
    ensures InList(l, value) <==> value in l
    decreases |l|
  {
    if l != [] {
      var init := l[..|l| - 1];
      InListMember(init, value);
      assert l == init + [l[|l| - 1]];
    }
  }

  // ---------------------------------------------------------------------
  // The episode number

  /**
   * The xmltv_ns text made from an EpisodeNumber: the piece before the first
   * 'E' with every 'S' removed, and the piece after it up to any further 'E'.
   * None stands for the IndexError of a number without 'E'.
   */
  function XmltvNs(code: string): Option<string> {
    var parts := Split(code, 'E');
    if |parts| < 2 then None else Some(Remove(parts[0], 'S') + " . " + parts[1] + " . 0/1")
  }

  /** Only an EpisodeNumber without an 'E' fails. */
  lemma XmltvNsNone(code: string)
    ensures XmltvNs(code).None? <==> 'E' !in code
  {
    if 'E' in code {
      var i :| 0 <= i < |code| && code[i] == 'E';
      var a, b := code[..i], code[i + 1..];
      assert code == a + ['E'] + b;
      SplitAt(a, b, 'E');
    } else {
      SplitWhole(code, 'E');
    }
  }

  /** The season is everything before the first 'E' less its 'S's; the episode the text up to the next 'E'. */
  lemma XmltvNsSplit(a: string, rest: string)
    requires 'E' !in a
    ensures XmltvNs(a + "E" + rest) == Some(Remove(a, 'S') + " . " + Split(rest, 'E')[0] + " . 0/1")
  {
    SplitAt(a, rest, 'E');
    SplitWhole(a, 'E');
  }

  /** "S<s>E<e>" with no 'E' in s or e gives s without its 'S's and e. */
  lemma XmltvNsOfCode(s: string, e: string)
    requires 'E' !in s && 'E' !in e
    ensures XmltvNs("S" + s + "E" + e) == Some(Remove(s, 'S') + " . " + e + " . 0/1")
  {
    XmltvNsSplit("S" + s, e);
    SplitWhole(e, 'E');
    RemoveLeading(s);
  }

  /** A second 'E' cuts the episode short: "S<s>E<e>E<more>" gives the same text as "S<s>E<e>". */
  lemma XmltvNsSecondE(s: string, e: string, more: string)
    requires 'E' !in s && 'E' !in e
    ensures XmltvNs("S" + s + "E" + e + "E" + more) == Some(Remove(s, 'S') + " . " + e + " . 0/1")
  {
    assert "S" + s + "E" + e + "E" + more == ("S" + s) + "E" + (e + "E" + more);
    XmltvNsSplit("S" + s, e + "E" + more);
    SplitAt(e, more, 'E');
    SplitWhole(e, 'E');
    RemoveLeading(s);
  }

  /** The leading 'S' of an EpisodeNumber is removed with the others. */
  lemma RemoveLeading(s: string)
    ensures Remove("S" + s, 'S') == Remove(s, 'S')
  {
    RemoveConcat("S", s, 'S');
    assert "S"[..0] == [];
    assert Remove("S", 'S') == [];
  }

  // ---------------------------------------------------------------------
  // The parts of a programme

  /** An EpisodeNumber that splits at 'E'. */
  predicate HasCode(p: Program) {
    p.episodeNumber.Some? && XmltvNs(p.episodeNumber.value).Some?
  }

  /** An EpisodeNumber without 'E': process_program raises after writing its onscreen number. */
  predicate Faulty(p: Program) {
    p.episodeNumber.Some? && XmltvNs(p.episodeNumber.value).None?
  }

  /** The onscreen number, then the xmltv_ns number, then the "series" category. */
  function EpisodePart(p: Program): seq<Element> {
    if HasCode(p) then
      var code := p.episodeNumber.value;
      [EpisodeNum("onscreen", code), EpisodeNum("xmltv_ns", XmltvNs(code).value), Category("series")]
    else []
  }

  function PreviouslyShownAt(start: string): Element {
    Element("previously-shown", [("start", start)], None, [])
  }

  /** previously-shown for a positive OriginalAirdate, dated a day after it. */
  function Aired(p: Program, clock: Clock): seq<Element> {
    if p.originalAirdate.Some? && p.originalAirdate.value > 0 then
      [PreviouslyShownAt(Stamp(p.originalAirdate.value + 86400, clock))]
    else []
  }

  /** A program with filter tags, none of them a movie tag, and no EpisodeNumber gets a made-up episode. */
  predicate Synthetic(p: Program) {
    p.filter.Some? && !HasMovieTag(p.filter.value) && p.episodeNumber.None?
  }

  /** The "series" category and the fake xmltv_ns and onscreen numbers of the current hour. */
  function FakeEpisode(now: LocalTime): seq<Element> {
    [Category("series"), EpisodeNum("xmltv_ns", DateTimeToEpisode(now)), EpisodeNum("onscreen", DateTimeToEpisodeFriendly(now))]
  }

  /** Every text lower-cased. */
  function Lowered(tags: seq<string>): (r: seq<string>)
    ensures |r| == |tags| && forall i :: 0 <= i < |tags| ==> r[i] == Lower(tags[i])
  {
    seq(|tags|, i requires 0 <= i < |tags| => Lower(tags[i]))
  }

  /** The made-up episode when there is one, then every filter tag lower-cased as a category. */
  function FilterPart(p: Program, clock: Clock): seq<Element> {
    (if Synthetic(p) then FakeEpisode(clock.now) else []) + CategoryElements(Lowered(Filters(p)))
  }

  function ProgrammeChildren(p: Program, clock: Clock): seq<Element> {
    Iptv.Heading(p) + EpisodePart(p) + Aired(p, clock) + Iptv.Media(p) + FilterPart(p, clock)
  }

  function ProgrammeAttributes(p: Program, guideName: string, clock: Clock): seq<Attribute> {
    [("channel", guideName), ("start", Stamp(p.startTime, clock)), ("stop", Stamp(p.endTime, clock))]
  }

  /**
   * The element process_program appends, named after the channel's
   * GuideName. An EpisodeNumber without 'E' leaves a programme holding the
   * heading and the onscreen number behind, and raises IndexError.
   */
  function Programme(p: Program, guideName: string, clock: Clock): (r: Middle.Parsed)
    ensures r.element.tag == "programme" && r.element.attributes == ProgrammeAttributes(p, guideName, clock)
    ensures r.fault.Some? <==> p.episodeNumber.Some? && 'E' !in p.episodeNumber.value
    ensures r.fault.Some? ==>
      r.fault == Some(IndexError)
      && r.element.children == Iptv.Heading(p) + [EpisodeNum("onscreen", p.episodeNumber.value)]
  {
    var attributes := ProgrammeAttributes(p, guideName, clock);
    XmltvNsNone(if p.episodeNumber.Some? then p.episodeNumber.value else "");
    if Faulty(p) then
      var children := Iptv.Heading(p) + [EpisodeNum("onscreen", p.episodeNumber.value)];
      Middle.Parsed(Element("programme", attributes, None, children), Some(IndexError))
    else
      Middle.Parsed(Element("programme", attributes, None, ProgrammeChildren(p, clock)), None)
  }

  // ---------------------------------------------------------------------
  // process_program

  /** process_program: appends the programme element and returns EndTime, or raises after appending it. */
  method ProcessProgram(root: Document, p: Program, guideName: string, clock: Clock) returns (r: Result<int>)
    modifies root
    ensures root.children == old(root.children) + [Programme(p, guideName, clock).element]
    ensures r == match Programme(p, guideName, clock).fault
      case None => Ok(p.endTime)
      case Some(f) => Err(f)
  {
    var offset := Remove(UtcOffset(clock.utcOffset), ':');
    var attributes := [
      ("channel", guideName),
      ("start", clock.localStamp(p.startTime) + " " + offset),
      ("stop", clock.localStamp(p.endTime) + " " + offset)];
    var children := Iptv.HeadingElements(p);
    var episode, fault, addedEpisode := EpisodeElements(p);
    children := children + episode;
    if fault.Some? {
      root.Append(Element("programme", attributes, None, children));
      return Err(fault.value);
    }
    ghost var heading := children;
    if p.originalAirdate.Some? && p.originalAirdate.value > 0 {
      children := children + [PreviouslyShownAt(clock.localStamp(p.originalAirdate.value + 86400) + " " + offset)];
    }
    assert children == heading + Aired(p, clock);
    ghost var upper := children;
    if p.imageUrl.Some? {
      children := children + [Icon(p.imageUrl.value)];
    }
    children := children + [Audio, Subtitles];
    assert children == upper + Iptv.Media(p);
    var filtered := FilterElements(p, clock, addedEpisode);
    children := children + filtered;
    root.Append(Element("programme", attributes, None, children));
    r := Ok(p.endTime);
  }

  /**
   * The EpisodeNumber block: the onscreen number, then, when the number
   * splits at 'E', the xmltv_ns number and the "series" category; the flag
   * says an episode was added.
   */
  method EpisodeElements(p: Program) returns (elements: seq<Element>, fault: Option<Fault>, addedEpisode: bool)
    ensures Faulty(p) ==> elements == [EpisodeNum("onscreen", p.episodeNumber.value)] && fault == Some(IndexError)
    ensures !Faulty(p) ==> elements == EpisodePart(p) && fault.None? && addedEpisode == p.episodeNumber.Some?
  {
    elements, fault, addedEpisode := [], None, false;
    if p.episodeNumber.Some? {
      var code := p.episodeNumber.value;
      elements := elements + [EpisodeNum("onscreen", code)];
      var parts := Split(code, 'E');
      if |parts| < 2 {
        return elements, Some(IndexError), false;
      }
      var season := Remove(parts[0], 'S');
      var episode := parts[1];
      elements := elements + [EpisodeNum("xmltv_ns", season + " . " + episode + " . 0/1")];
      elements := elements + [Category("series")];
      addedEpisode := true;
    }
  }

  /** The Filter block: the made-up episode when no movie tag and no episode was found, then the lower-cased tags. */
  method FilterElements(p: Program, clock: Clock, addedEpisode: bool) returns (elements: seq<Element>)
    requires addedEpisode == p.episodeNumber.Some?
    ensures elements == FilterPart(p, clock)
  {
    elements := [];
    if p.filter.Some? {
      var tags := p.filter.value;
      var foundMovieCategory := FindMovie(tags);
      if !foundMovieCategory && !addedEpisode {
        elements := elements + [Category("series")];
        elements := elements + [EpisodeNum("xmltv_ns", DateTimeToEpisode(clock.now))];
        elements := elements + [EpisodeNum("onscreen", DateTimeToEpisodeFriendly(clock.now))];
      }
      var categories := LowerCategories(tags);
      elements := elements + categories;
    } else {
      assert CategoryElements(Lowered(Filters(p))) == [];
    }
  }

  /** The search for a movie tag, which stops at the first one. */
  method FindMovie(tags: seq<string>) returns (found: bool)
    ensures found == HasMovieTag(tags)
  {
    found := false;
    var i := 0;
    while i < |tags|
      invariant 0 <= i <= |tags|
      invariant forall j :: 0 <= j < i ==> !IsMovieTag(tags[j])
    {
      if Lower(tags[i]) == "movies" {
        assert IsMovieTag(tags[i]);
        found := true;
        break;
      }
      i := i + 1;
    }
  }

  /** One lower-cased category per filter tag, in order. */
  method LowerCategories(tags: seq<string>) returns (elements: seq<Element>)
    ensures elements == CategoryElements(Lowered(tags))
  {
    elements := [];
    for i := 0 to |tags|
      invariant elements == CategoryElements(Lowered(tags[..i]))
    {
      LoweredStep(tags, i);
      elements := elements + [Category(Lower(tags[i]))];
    }
    assert tags[..|tags|] == tags;
  }

  lemma LoweredStep(tags: seq<string>, i: nat)
    requires i < |tags|
    ensures CategoryElements(Lowered(tags[..i + 1])) == CategoryElements(Lowered(tags[..i])) + [Category(Lower(tags[i]))]
  {
    assert Lowered(tags[..i + 1]) == Lowered(tags[..i]) + [Lower(tags[i])];
    CategoryElementsConcat(Lowered(tags[..i]), [Lower(tags[i])]);
  }

  // ---------------------------------------------------------------------
  // What a programme holds

  /** The sub-elements of a programme that did not raise. */
  lemma ChildrenOf(p: Program, guideName: string, clock: Clock)
    requires Programme(p, guideName, clock).fault.None?
    ensures Programme(p, guideName, clock).element.children == ProgrammeChildren(p, clock)
  {
  }

  /**
   * The episode-num elements of a programme: for an EpisodeNumber, the
   * verbatim onscreen number and the xmltv_ns text split from it; for a
   * made-up episode, the fake xmltv_ns and onscreen numbers. Never both.
   */
  lemma ProgrammeEpisodeNums(p: Program, guideName: string, clock: Clock)
    requires Programme(p, guideName, clock).fault.None?
    ensures Select(Programme(p, guideName, clock).element.children, "episode-num") ==
      (if p.episodeNumber.Some? then
         [EpisodeNum("onscreen", p.episodeNumber.value), EpisodeNum("xmltv_ns", XmltvNs(p.episodeNumber.value).value)]
       else [])
      + (if Synthetic(p) then
           [EpisodeNum("xmltv_ns", DateTimeToEpisode(clock.now)), EpisodeNum("onscreen", DateTimeToEpisodeFriendly(clock.now))]
         else [])
    ensures !(p.episodeNumber.Some? && Synthetic(p))
  {
    ChildrenOf(p, guideName, clock);
    XmltvNsNone(if p.episodeNumber.Some? then p.episodeNumber.value else "");
    EpisodeNumsSelected(p, clock);
  }

  lemma EpisodeNumsSelected(p: Program, clock: Clock)
    requires !Faulty(p)
    ensures Select(ProgrammeChildren(p, clock), "episode-num") ==
      (if p.episodeNumber.Some? then
         [EpisodeNum("onscreen", p.episodeNumber.value), EpisodeNum("xmltv_ns", XmltvNs(p.episodeNumber.value).value)]
       else [])
      + (if Synthetic(p) then
           [EpisodeNum("xmltv_ns", DateTimeToEpisode(clock.now)), EpisodeNum("onscreen", DateTimeToEpisodeFriendly(clock.now))]
         else [])
  {
    var tag := "episode-num";
    Iptv.HeadingNone(p, tag);
    Iptv.MediaNone(p, tag);
    SelectNone(Aired(p, clock), tag);
    if HasCode(p) {
      EpisodePartSelect(p);
    }
    FilterPartNums(p, clock);
    Middle.SelectSecondFifth(Iptv.Heading(p), EpisodePart(p), Aired(p, clock), Iptv.Media(p), FilterPart(p, clock), tag);
  }

  /** What the EpisodeNumber block holds, selected by tag. */
  lemma EpisodePartSelect(p: Program)
    requires HasCode(p)
    ensures Select(EpisodePart(p), "episode-num") ==
      [EpisodeNum("onscreen", p.episodeNumber.value), EpisodeNum("xmltv_ns", XmltvNs(p.episodeNumber.value).value)]
    ensures Select(EpisodePart(p), "category") == [Category("series")]
  {
    var code := p.episodeNumber.value;
    var nums := [EpisodeNum("onscreen", code), EpisodeNum("xmltv_ns", XmltvNs(code).value)];
    assert EpisodePart(p) == nums + [Category("series")];
    SelectConcat(nums, [Category("series")], "episode-num");
    SelectAll(nums, "episode-num");
    SelectNone([Category("series")], "episode-num");
    SelectConcat(nums, [Category("series")], "category");
    SelectNone(nums, "category");
    SelectAll([Category("series")], "category");
  }

  lemma FilterPartNums(p: Program, clock: Clock)
    ensures Select(FilterPart(p, clock), "episode-num") ==
      if Synthetic(p) then
        [EpisodeNum("xmltv_ns", DateTimeToEpisode(clock.now)), EpisodeNum("onscreen", DateTimeToEpisodeFriendly(clock.now))]
      else []
  {
    FakeThenCategories(DateTimeToEpisode(clock.now), DateTimeToEpisodeFriendly(clock.now), Lowered(Filters(p)), Synthetic(p));
  }

  /** The made-up episode followed by categories, selected by tag. */
  lemma FakeThenCategories(xmltv: string, onscreen: string, texts: seq<string>, synthetic: bool)
    ensures var fake := [Category("series"), EpisodeNum("xmltv_ns", xmltv), EpisodeNum("onscreen", onscreen)];
      var part := (if synthetic then fake else []) + CategoryElements(texts);
      Select(part, "episode-num") ==
        (if synthetic then [EpisodeNum("xmltv_ns", xmltv), EpisodeNum("onscreen", onscreen)] else [])
      && Select(part, "category") == (if synthetic then [Category("series")] else []) + CategoryElements(texts)
      && forall tag :: tag != "episode-num" && tag != "category" ==> Select(part, tag) == []
  {
    var fake := [Category("series"), EpisodeNum("xmltv_ns", xmltv), EpisodeNum("onscreen", onscreen)];
    var part := if synthetic then fake else [];
    var categories := CategoryElements(texts);
    CategoryElementsSelected(texts);
    FakeSelected(xmltv, onscreen);
    SelectConcat(part, categories, "episode-num");
    SelectConcat(part, categories, "category");
    forall tag | tag != "episode-num" && tag != "category"
      ensures Select(part + categories, tag) == []
    {
      SelectConcat(part, categories, tag);
    }
  }

  /** The made-up episode selected by tag. */
  lemma FakeSelected(xmltv: string, onscreen: string)
    ensures var fake := [Category("series"), EpisodeNum("xmltv_ns", xmltv), EpisodeNum("onscreen", onscreen)];
      Select(fake, "episode-num") == [EpisodeNum("xmltv_ns", xmltv), EpisodeNum("onscreen", onscreen)]
      && Select(fake, "category") == [Category("series")]
      && forall tag :: tag != "episode-num" && tag != "category" ==> Select(fake, tag) == []
  {
    OneThenTwo(Category("series"), EpisodeNum("xmltv_ns", xmltv), EpisodeNum("onscreen", onscreen));
  }

  /** An element with one tag followed by two with another, selected by tag. */
  lemma OneThenTwo(x: Element, y: Element, z: Element)
    requires x.tag != y.tag && y.tag == z.tag
    ensures Select([x, y, z], y.tag) == [y, z] && Select([x, y, z], x.tag) == [x]
    ensures forall tag :: tag != x.tag && tag != y.tag ==> Select([x, y, z], tag) == []
  {
    forall tag
      ensures Select([x, y, z], tag) ==
        (if x.tag == tag then [x] else []) + (if y.tag == tag then [y] else []) + (if z.tag == tag then [z] else [])
    {
      SelectThree(x, y, z, tag);
    }
  }

  lemma SelectThree(x: Element, y: Element, z: Element, tag: string)
    ensures Select([x, y, z], tag) ==
      (if x.tag == tag then [x] else []) + (if y.tag == tag then [y] else []) + (if z.tag == tag then [z] else [])
  {
    assert [x][..0] == [];
    assert Select([x], tag) == if x.tag == tag then [x] else [];
    assert [x, y][..1] == [x];
    assert Select([x, y], tag) == Select([x], tag) + if y.tag == tag then [y] else [];
    assert [x, y, z][..2] == [x, y];
    assert Select([x, y, z], tag) == Select([x, y], tag) + if z.tag == tag then [z] else [];
  }

  /** Category elements are all selected as categories and as nothing else. */
  lemma CategoryElementsSelected(texts: seq<string>)
    ensures Select(CategoryElements(texts), "category") == CategoryElements(texts)
    ensures forall tag :: tag != "category" ==> Select(CategoryElements(texts), tag) == []
  {
    SelectAll(CategoryElements(texts), "category");
    forall tag | tag != "category"
      ensures Select(CategoryElements(texts), tag) == []
    {
      SelectNone(CategoryElements(texts), tag);
    }
  }

  /** Outside its episode-num and category elements the Filter block holds nothing. */
  lemma FilterPartNone(p: Program, clock: Clock, tag: string)
    requires tag != "episode-num" && tag != "category"
    ensures Select(FilterPart(p, clock), tag) == []
  {
    FakeThenCategories(DateTimeToEpisode(clock.now), DateTimeToEpisodeFriendly(clock.now), Lowered(Filters(p)), Synthetic(p));
  }

  /** Outside its episode-num and category elements the EpisodeNumber block holds nothing. */
  lemma EpisodePartNone(p: Program, tag: string)
    requires tag != "episode-num" && tag != "category"
    ensures Select(EpisodePart(p), tag) == []
  {
    SelectNone(EpisodePart(p), tag);
  }

  /**
   * The category elements of a programme: a single "series" when it has an
   * EpisodeNumber or a made-up episode, then every filter tag lower-cased,
   * in order.
   */
  lemma ProgrammeCategories(p: Program, guideName: string, clock: Clock)
    requires Programme(p, guideName, clock).fault.None?
    ensures Select(Programme(p, guideName, clock).element.children, "category") ==
      CategoryElements((if p.episodeNumber.Some? || Synthetic(p) then ["series"] else []) + Lowered(Filters(p)))
  {
    ChildrenOf(p, guideName, clock);
    XmltvNsNone(if p.episodeNumber.Some? then p.episodeNumber.value else "");
    CategoriesSelected(p, clock);
  }

  lemma CategoriesSelected(p: Program, clock: Clock)
    requires !Faulty(p)
    ensures Select(ProgrammeChildren(p, clock), "category") ==
      CategoryElements((if p.episodeNumber.Some? || Synthetic(p) then ["series"] else []) + Lowered(Filters(p)))
  {
    var tag := "category";
    Iptv.HeadingNone(p, tag);
    Iptv.MediaNone(p, tag);
    SelectNone(Aired(p, clock), tag);
    EpisodePartCategories(p);
    FakeThenCategories(DateTimeToEpisode(clock.now), DateTimeToEpisodeFriendly(clock.now), Lowered(Filters(p)), Synthetic(p));
    Middle.SelectSecondFifth(Iptv.Heading(p), EpisodePart(p), Aired(p, clock), Iptv.Media(p), FilterPart(p, clock), tag);
    SingleSeries(p.episodeNumber.Some?, Synthetic(p), Lowered(Filters(p)));
  }

  lemma EpisodePartCategories(p: Program)
    requires !Faulty(p)
    ensures Select(EpisodePart(p), "category") == if p.episodeNumber.Some? then [Category("series")] else []
  {
    if HasCode(p) {
      EpisodePartSelect(p);
    }
  }

  /** A "series" from the EpisodeNumber or one from a made-up episode, never both, ahead of the categories. */
  lemma SingleSeries(fromCode: bool, synthetic: bool, texts: seq<string>)
    requires !(fromCode && synthetic)
    ensures (if fromCode then [Category("series")] else []) + ((if synthetic then [Category("series")] else []) + CategoryElements(texts))
      == CategoryElements((if fromCode || synthetic then ["series"] else []) + texts)
  {
    if fromCode || synthetic {
      SeriesFirst(texts);
    } else {
      assert [] + texts == texts;
    }
  }

  lemma SeriesFirst(texts: seq<string>)
    ensures CategoryElements(["series"] + texts) == [Category("series")] + CategoryElements(texts)
  {
    CategoryElementsConcat(["series"], texts);
    var one := CategoryElements(["series"]);
    assert |one| == 1 && one[0] == Category("series");
    assert one == [Category("series")];
  }

  /**
   * previously-shown appears exactly for a positive OriginalAirdate, its
   * start a day after the air date in local time with the compact offset.
   */
  lemma ProgrammePreviouslyShown(p: Program, guideName: string, clock: Clock)
    requires Programme(p, guideName, clock).fault.None?
    ensures Select(Programme(p, guideName, clock).element.children, "previously-shown") ==
      if p.originalAirdate.Some? && p.originalAirdate.value > 0 then
        [Element("previously-shown",
                 [("start", clock.localStamp(p.originalAirdate.value + 86400) + " " + CompactOffset(clock.utcOffset))],
                 None, [])]
      else []
  {
    ChildrenOf(p, guideName, clock);
    AiredSelected(p, clock);
  }

  lemma AiredSelected(p: Program, clock: Clock)
    ensures Select(ProgrammeChildren(p, clock), "previously-shown") == Aired(p, clock)
  {
    var tag := "previously-shown";
    Iptv.HeadingNone(p, tag);
    Iptv.MediaNone(p, tag);
    EpisodePartNone(p, tag);
    FilterPartNone(p, clock, tag);
    SelectAll(Aired(p, clock), tag);
    SelectThird(Iptv.Heading(p), EpisodePart(p), Aired(p, clock), Iptv.Media(p), FilterPart(p, clock), tag);
  }

  /** Only the third part holds elements with the tag. */
  lemma SelectThird(h: seq<Element>, e: seq<Element>, a: seq<Element>, m: seq<Element>, f: seq<Element>, tag: string)
    requires Select(h, tag) == [] && Select(e, tag) == [] && Select(m, tag) == [] && Select(f, tag) == []
    ensures Select(h + e + a + m + f, tag) == Select(a, tag)
  {
    Iptv.SelectParts(h, e, a, m, f, tag);
  }

  /** Whatever the program, a programme that did not raise starts with its title and carries credits, audio and subtitles once each. */
  lemma ProgrammeFixed(p: Program, guideName: string, clock: Clock)
    requires Programme(p, guideName, clock).fault.None?
    ensures var children := Programme(p, guideName, clock).element.children;
      |children| > 0 && children[0] == Title(p.title)
      && Select(children, "credits") == [Credits] && Select(children, "audio") == [Audio]
      && Select(children, "subtitles") == [Subtitles]
  {
    ChildrenOf(p, guideName, clock);
    FixedSelected(p, clock, "credits");
    FixedSelected(p, clock, "audio");
    FixedSelected(p, clock, "subtitles");
  }

  lemma FixedSelected(p: Program, clock: Clock, tag: string)
    requires tag in {"credits", "audio", "subtitles"}
    ensures Select(ProgrammeChildren(p, clock), tag) ==
      if tag == "credits" then [Credits] else if tag == "audio" then [Audio] else [Subtitles]
  {
    EpisodePartNone(p, tag);
    SelectNone(Aired(p, clock), tag);
    FilterPartNone(p, clock, tag);
    HeadingFixed(p, tag);
    MediaFixed(p, tag);
    SelectFirstFourth(Iptv.Heading(p), EpisodePart(p), Aired(p, clock), Iptv.Media(p), FilterPart(p, clock), tag);
  }

  /** Only the heading and the media hold elements with the tag. */
  lemma SelectFirstFourth(h: seq<Element>, e: seq<Element>, a: seq<Element>, m: seq<Element>, f: seq<Element>, tag: string)
    requires Select(e, tag) == [] && Select(a, tag) == [] && Select(f, tag) == []
    ensures Select(h + e + a + m + f, tag) == Select(h, tag) + Select(m, tag)
  {
    Iptv.SelectParts(h, e, a, m, f, tag);
  }

  lemma HeadingFixed(p: Program, tag: string)
    requires tag in {"credits", "audio", "subtitles"}
    ensures Select(Iptv.Heading(p), tag) == if tag == "credits" then [Credits] else []
  {
    var titles := [Title(p.title)]
      + (if p.episodeTitle.Some? then [SubTitle(p.episodeTitle.value)] else [])
      + (if p.synopsis.Some? then [Desc(p.synopsis.value)] else []);
    assert Iptv.Heading(p) == titles + [Credits];
    SelectConcat(titles, [Credits], tag);
    SelectNone(titles, tag);
  }

  lemma MediaFixed(p: Program, tag: string)
    requires tag in {"credits", "audio", "subtitles"}
    ensures Select(Iptv.Media(p), tag) ==
      if tag == "audio" then [Audio] else if tag == "subtitles" then [Subtitles] else []
  {
    var icon := if p.imageUrl.Some? then [Icon(p.imageUrl.value)] else [];
    assert Iptv.Media(p) == icon + ([Audio] + [Subtitles]);
    SelectConcat(icon, [Audio] + [Subtitles], tag);
    SelectNone(icon, tag);
    SelectConcat([Audio], [Subtitles], tag);
  }
}
