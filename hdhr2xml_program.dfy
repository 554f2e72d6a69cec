/**
 * The middle converter (hdhr2xml.py): one guide program becomes one XMLTV
 * `programme` element, one channel one `channel` element. Compared with the
 * current converter the episode numbers are copied or written unpadded, the
 * "Series" category comes before the filter categories, and every program
 * that is not a movie gets a novelty marker and its original air date.
 */
module Hdhr2XmlProgram {
  import opened Wrappers
  import opened Text
  import opened Xml
  import opened Clock
  import opened Hdhr
  import opened Xmltv
  import Iptv = Hdhr2IptvProgram

  // ---------------------------------------------------------------------
  // The parts of a programme

  /** "(s-1).(e-1).": season and episode less one, written by str() without padding. */
  function XmltvNs(season: int, episode: int): string {
    Str(season - 1) + "." + Str(episode - 1) + "."
  }

  /** The three episode-num elements of an episode number whose season and episode parsed. */
  function CodeNums(code: string, season: int, episode: int): seq<Element> {
    [ EpisodeNum("xmltv_ns", XmltvNs(season, episode)),
      EpisodeNum("onscreen", code),
      EpisodeNum("SxxExx", code) ]
  }

  /** The season and episode of the program's EpisodeNumber, when it has one that parses. */
  predicate HasCode(p: Program) {
    p.episodeNumber.Some? && Iptv.EpisodeCode(p.episodeNumber.value).Ok?
  }

  /** What an EpisodeNumber adds: its episode-num elements, then a "Series" category. */
  function EpisodePart(p: Program): seq<Element> {
    if HasCode(p) then
      var code := p.episodeNumber.value;
      var numbers := Iptv.EpisodeCode(code).value;
      CodeNums(code, numbers.0, numbers.1) + [Category("Series")]
    else []
  }

  /**
   * A program that is not a movie is new unless its OriginalAirdate falls on
   * a UTC date strictly before the local date it starts on.
   */
  predicate IsNew(p: Program, clock: Clock) {
    p.originalAirdate.None? || !Before(clock.utcDate(p.originalAirdate.value), clock.localDate(p.startTime))
  }

  /** The episode-num holding the air date: that of OriginalAirdate, or today's. */
  function AirDateNum(p: Program, clock: Clock): Element {
    EpisodeNum("original_air_date", IsoFormat(Iptv.AirDate(p, clock)))
  }

  /** The novelty markers and the air date of a program that is not a movie. */
  function NoveltyPart(p: Program, clock: Clock): seq<Element> {
    if Iptv.IsMovie(p) then [] else Iptv.Novelty(IsNew(p, clock)) + [AirDateNum(p, clock)]
  }

  /** The categories of the filter tags, each followed by "Movie" when it is a movie tag. */
  function FilterPart(p: Program): seq<Element> {
    CategoryElements(Iptv.Expand(Filters(p)))
  }

  function ProgrammeChildren(p: Program, clock: Clock): seq<Element> {
    Iptv.Heading(p) + EpisodePart(p) + Iptv.Media(p) + FilterPart(p) + NoveltyPart(p, clock)
  }

  function ProgrammeAttributes(p: Program, channel: string, clock: Clock): seq<Attribute> {
    [("channel", channel), ("start", clock.xmltvStamp(p.startTime)), ("stop", clock.xmltvStamp(p.endTime))]
  }

  /** What parse_program leaves behind: it always appends its element, and a fault means it raised part-way. */
  datatype Parsed = Parsed(element: Element, fault: Option<Fault>)

  /**
   * The element parse_program appends. The element is attached to the tree
   * before the EpisodeNumber is read, so a malformed one leaves a programme
   * holding only title, sub-title, desc and credits behind, and raises.
   */
  function Programme(p: Program, channel: string, clock: Clock): (r: Parsed)
    ensures r.element.tag == "programme" && r.element.attributes == ProgrammeAttributes(p, channel, clock)
    ensures r.fault.Some? <==> p.episodeNumber.Some? && Iptv.EpisodeCode(p.episodeNumber.value).Err?
    ensures r.fault.Some? ==>
      r.fault.value == Iptv.EpisodeCode(p.episodeNumber.value).fault && r.element.children == Iptv.Heading(p)
  {
    var attributes := ProgrammeAttributes(p, channel, clock);
    if p.episodeNumber.Some? && Iptv.EpisodeCode(p.episodeNumber.value).Err? then
      Parsed(Element("programme", attributes, None, Iptv.Heading(p)), Some(Iptv.EpisodeCode(p.episodeNumber.value).fault))
    else
      Parsed(Element("programme", attributes, None, ProgrammeChildren(p, clock)), None)
  }

  // ---------------------------------------------------------------------
  // parse_program

  /** parse_program: appends the programme element and returns EndTime, or raises after appending it. */
  method ParseProgram(root: Document, p: Program, channel: string, clock: Clock) returns (r: Result<int>)
    modifies root
    ensures root.children == old(root.children) + [Programme(p, channel, clock).element]
    ensures r == match Programme(p, channel, clock).fault
      case None => Ok(p.endTime)
      case Some(f) => Err(f)
  {
    var attributes := ProgrammeAttributes(p, channel, clock);
    var children := Iptv.HeadingElements(p);
    var code := EpisodeElements(p);
    if code.Err? {
      root.Append(Element("programme", attributes, None, children));
      return Err(code.fault);
    }
    children := children + code.value;
    ghost var upper := children;
    if p.imageUrl.Some? {
      children := children + [Icon(p.imageUrl.value)];
    }
    children := children + [Audio, Subtitles];
    assert children == upper + Iptv.Media(p);
    var categories, isMovie := FilterCategories(p);
    children := children + categories;
    var novelty := NoveltyElements(p, clock, isMovie);
    children := children + novelty;
    root.Append(Element("programme", attributes, None, children));
    r := Ok(p.endTime);
  }

  /** The EpisodeNumber block: the season and episode parse, then the elements it adds. */
  method EpisodeElements(p: Program) returns (r: Result<seq<Element>>)
    ensures p.episodeNumber.Some? && Iptv.EpisodeCode(p.episodeNumber.value).Err? ==>
      r == Err(Iptv.EpisodeCode(p.episodeNumber.value).fault)
    ensures !(p.episodeNumber.Some? && Iptv.EpisodeCode(p.episodeNumber.value).Err?) ==> r == Ok(EpisodePart(p))
  {
    if p.episodeNumber.None? {
      assert !HasCode(p);
      return Ok([]);
    }
    var code := p.episodeNumber.value;
    var numbers := Iptv.EpisodeCode(code);
    if numbers.Err? {
      return Err(numbers.fault);
    }
    assert HasCode(p);
    var elements := CodeElements(code, numbers.value.0, numbers.value.1);
    r := Ok(elements);
  }

  /** The elements of an EpisodeNumber whose season and episode parsed. */
  method CodeElements(code: string, season: int, episode: int) returns (elements: seq<Element>)
    ensures elements == CodeNums(code, season, episode) + [Category("Series")]
  {
    var seasonText := Str(season - 1);
    var episodeText := Str(episode - 1);
    elements := [EpisodeNum("xmltv_ns", seasonText + "." + episodeText + ".")];
    elements := elements + [EpisodeNum("onscreen", code)];
    elements := elements + [EpisodeNum("SxxExx", code)];
    elements := elements + [Category("Series")];
  }

  /** The Filter loop: a category per tag, "Movie" after each movie tag, and the is_movie flag. */
  method FilterCategories(p: Program) returns (elements: seq<Element>, isMovie: bool)
    ensures elements == FilterPart(p)
    ensures isMovie == Iptv.IsMovie(p)
  {
    elements, isMovie := [], false;
    if p.filter.Some? {
      var tags := p.filter.value;
      for i := 0 to |tags|
        invariant elements == CategoryElements(Iptv.Expand(tags[..i]))
        invariant isMovie == HasMovieTag(tags[..i])
      {
        FilterStep(tags, i);
        MovieTagStep(tags, i);
        elements := elements + [Category(tags[i])];
        if Lower(tags[i]) == "movies" {
          elements := elements + [Category("Movie")];
          isMovie := true;
        }
      }
      assert tags[..|tags|] == tags;
    }
  }

  /** What one filter tag adds to the categories and to the is_movie flag. */
  lemma FilterStep(tags: seq<string>, i: nat)
    requires i < |tags|
    ensures CategoryElements(Iptv.Expand(tags[..i + 1])) == CategoryElements(Iptv.Expand(tags[..i]))
      + if IsMovieTag(tags[i]) then [Category(tags[i]), Category("Movie")] else [Category(tags[i])]
  {
    Iptv.ExpandPrefix(tags, i);
    CategoryElementsConcat(Iptv.Expand(tags[..i]), Iptv.TagCategories(tags[i]));
    TagElements(tags[i]);
  }

  lemma TagElements(t: string)
    ensures CategoryElements(Iptv.TagCategories(t)) ==
      if IsMovieTag(t) then [Category(t), Category("Movie")] else [Category(t)]
  {
    var added := CategoryElements(Iptv.TagCategories(t));
    if IsMovieTag(t) {
      assert |added| == 2 && added[0] == Category(t) && added[1] == Category("Movie");
    } else {
      assert |added| == 1 && added[0] == Category(t);
    }
  }

  lemma MovieTagStep(tags: seq<string>, i: nat)
    requires i < |tags|
    ensures HasMovieTag(tags[..i + 1]) == (HasMovieTag(tags[..i]) || IsMovieTag(tags[i]))
  {
    var a, b := tags[..i], tags[..i + 1];
    assert b[i] == tags[i];
    if HasMovieTag(a) {
      var j :| 0 <= j < |a| && IsMovieTag(a[j]);
      assert b[j] == a[j];
    }
    if HasMovieTag(b) && !IsMovieTag(tags[i]) {
      var j :| 0 <= j < |b| && IsMovieTag(b[j]);
      assert a[j] == b[j];
    }
  }

  /** The `if not is_movie` block: the novelty markers, then the air date. */
  method NoveltyElements(p: Program, clock: Clock, isMovie: bool) returns (elements: seq<Element>)
    requires isMovie == Iptv.IsMovie(p)
    ensures elements == NoveltyPart(p, clock)
  {
    elements := [];
    if !isMovie {
      if p.originalAirdate.Some? {
        var originalAirDate := clock.utcDate(p.originalAirdate.value);
        var currentAirDate := clock.localDate(p.startTime);
        if Before(originalAirDate, currentAirDate) {
          elements := elements + [PreviouslyShown, PreviouslyAired];
        } else {
          elements := elements + [New];
        }
        elements := elements + [EpisodeNum("original_air_date", IsoFormat(originalAirDate))];
      } else {
        elements := elements + [New];
        elements := elements + [EpisodeNum("original_air_date", IsoFormat(clock.today))];
      }
    }
  }

  // ---------------------------------------------------------------------
  // What a programme holds

  /**
   * The episode-num elements of a programme: for an EpisodeNumber, the
   * unpadded xmltv_ns text and the EpisodeNumber verbatim as onscreen and
   * SxxExx; then, unless it is a movie, the original_air_date.
   */
  lemma ProgrammeEpisodeNums(p: Program, channel: string, clock: Clock)
    requires Programme(p, channel, clock).fault.None?
    ensures Select(Programme(p, channel, clock).element.children, "episode-num") ==
      (if p.episodeNumber.Some? then
         CodeNums(p.episodeNumber.value,
                  Iptv.EpisodeCode(p.episodeNumber.value).value.0, Iptv.EpisodeCode(p.episodeNumber.value).value.1)
       else [])
      + (if Iptv.IsMovie(p) then [] else [AirDateNum(p, clock)])
  {
    ChildrenOf(p, channel, clock);
    EpisodeNumsSelected(p, clock);
  }

  lemma EpisodeNumsSelected(p: Program, clock: Clock)
    requires !(p.episodeNumber.Some? && Iptv.EpisodeCode(p.episodeNumber.value).Err?)
    ensures Select(ProgrammeChildren(p, clock), "episode-num") ==
      (if p.episodeNumber.Some? then
         CodeNums(p.episodeNumber.value,
                  Iptv.EpisodeCode(p.episodeNumber.value).value.0, Iptv.EpisodeCode(p.episodeNumber.value).value.1)
       else [])
      + (if Iptv.IsMovie(p) then [] else [AirDateNum(p, clock)])
  {
    var tag := "episode-num";
    Iptv.HeadingNone(p, tag);
    Iptv.MediaNone(p, tag);
    SelectNone(FilterPart(p), tag);
    EpisodePartNums(p);
    NoveltyPartNums(p, clock);
    SelectSecondFifth(Iptv.Heading(p), EpisodePart(p), Iptv.Media(p), FilterPart(p), NoveltyPart(p, clock), tag);
  }

  lemma EpisodePartNums(p: Program)
    ensures Select(EpisodePart(p), "episode-num") ==
      if HasCode(p) then
        CodeNums(p.episodeNumber.value,
                 Iptv.EpisodeCode(p.episodeNumber.value).value.0, Iptv.EpisodeCode(p.episodeNumber.value).value.1)
      else []
  {
    if HasCode(p) {
      var numbers := Iptv.EpisodeCode(p.episodeNumber.value).value;
      CodeSelect(p.episodeNumber.value, numbers.0, numbers.1);
    }
  }

  /** The episode-num elements and the category an EpisodeNumber adds, each selected on its own. */
  lemma CodeSelect(code: string, season: int, episode: int)
    ensures Select(CodeNums(code, season, episode) + [Category("Series")], "episode-num") == CodeNums(code, season, episode)
    ensures Select(CodeNums(code, season, episode) + [Category("Series")], "category") == [Category("Series")]
  {
    var nums := CodeNums(code, season, episode);
    SelectConcat(nums, [Category("Series")], "episode-num");
    SelectAll(nums, "episode-num");
    SelectNone([Category("Series")], "episode-num");
    SelectConcat(nums, [Category("Series")], "category");
    SelectNone(nums, "category");
    SelectAll([Category("Series")], "category");
  }

  lemma NoveltyPartNums(p: Program, clock: Clock)
    ensures Select(NoveltyPart(p, clock), "episode-num") == if Iptv.IsMovie(p) then [] else [AirDateNum(p, clock)]
  {
    if !Iptv.IsMovie(p) {
      var novelty := Iptv.Novelty(IsNew(p, clock));
      SelectConcat(novelty, [AirDateNum(p, clock)], "episode-num");
      SelectNone(novelty, "episode-num");
      SelectAll([AirDateNum(p, clock)], "episode-num");
    }
  }

  /**
   * The category elements of a programme: "Series" first when it has an
   * EpisodeNumber, then every filter tag verbatim, each movie tag followed
   * by "Movie".
   */
  lemma ProgrammeCategories(p: Program, channel: string, clock: Clock)
    requires Programme(p, channel, clock).fault.None?
    ensures Select(Programme(p, channel, clock).element.children, "category") ==
      CategoryElements((if p.episodeNumber.Some? then ["Series"] else []) + Iptv.Expand(Filters(p)))
  {
    ChildrenOf(p, channel, clock);
    CategoriesSelected(p, clock);
  }

  lemma CategoriesSelected(p: Program, clock: Clock)
    requires !(p.episodeNumber.Some? && Iptv.EpisodeCode(p.episodeNumber.value).Err?)
    ensures Select(ProgrammeChildren(p, clock), "category") ==
      CategoryElements((if p.episodeNumber.Some? then ["Series"] else []) + Iptv.Expand(Filters(p)))
  {
    var tag := "category";
    Iptv.HeadingNone(p, tag);
    Iptv.MediaNone(p, tag);
    SelectNone(NoveltyPart(p, clock), tag);
    EpisodePartCategories(p);
    SelectAll(FilterPart(p), tag);
    SelectSecondFourth(Iptv.Heading(p), EpisodePart(p), Iptv.Media(p), FilterPart(p), NoveltyPart(p, clock), tag);
    CategoryElementsConcat(if p.episodeNumber.Some? then ["Series"] else [], Iptv.Expand(Filters(p)));
  }

  lemma EpisodePartCategories(p: Program)
    ensures Select(EpisodePart(p), "category") == if HasCode(p) then [Category("Series")] else []
  {
    if HasCode(p) {
      var numbers := Iptv.EpisodeCode(p.episodeNumber.value).value;
      CodeSelect(p.episodeNumber.value, numbers.0, numbers.1);
    }
  }

  /** The novelty markers of a programme: none for a movie, those of Novelty otherwise. */
  lemma ProgrammeNovelty(p: Program, channel: string, clock: Clock, tag: string)
    requires Programme(p, channel, clock).fault.None?
    requires tag in {"new", "previously-shown", "previously-aired"}
    ensures Select(Programme(p, channel, clock).element.children, tag) ==
      if Iptv.IsMovie(p) then [] else Select(Iptv.Novelty(IsNew(p, clock)), tag)
  {
    ChildrenOf(p, channel, clock);
    NoveltySelected(p, clock, tag);
  }

  lemma NoveltySelected(p: Program, clock: Clock, tag: string)
    requires tag in {"new", "previously-shown", "previously-aired"}
    ensures Select(ProgrammeChildren(p, clock), tag) ==
      if Iptv.IsMovie(p) then [] else Select(Iptv.Novelty(IsNew(p, clock)), tag)
  {
    Iptv.HeadingNone(p, tag);
    Iptv.MediaNone(p, tag);
    EpisodePartNone(p, tag);
    FilterPartNone(p, tag);
    NoveltyPartMarkers(p, clock, tag);
    Iptv.SelectFifth(Iptv.Heading(p), EpisodePart(p), Iptv.Media(p), FilterPart(p), NoveltyPart(p, clock), tag);
  }

  lemma NoveltyPartMarkers(p: Program, clock: Clock, tag: string)
    requires tag in {"new", "previously-shown", "previously-aired"}
    ensures Select(NoveltyPart(p, clock), tag) ==
      if Iptv.IsMovie(p) then [] else Select(Iptv.Novelty(IsNew(p, clock)), tag)
  {
    if !Iptv.IsMovie(p) {
      var novelty := Iptv.Novelty(IsNew(p, clock));
      SelectConcat(novelty, [AirDateNum(p, clock)], tag);
      SelectNone([AirDateNum(p, clock)], tag);
    }
  }

  lemma EpisodePartNone(p: Program, tag: string)
    requires tag != "episode-num" && tag != "category"
    ensures Select(EpisodePart(p), tag) == []
  {
    SelectNone(EpisodePart(p), tag);
  }

  lemma FilterPartNone(p: Program, tag: string)
    requires tag != "category"
    ensures Select(FilterPart(p), tag) == []
  {
    SelectNone(FilterPart(p), tag);
  }

  /** The sub-elements of a programme that parsed. */
  lemma ChildrenOf(p: Program, channel: string, clock: Clock)
    requires Programme(p, channel, clock).fault.None?
    ensures Programme(p, channel, clock).element.children == ProgrammeChildren(p, clock)
  {
  }

  /**
   * A program that is not a movie is marked either new or previously shown
   * and aired, never both; the rerun markers appear exactly when it has an
   * OriginalAirdate whose UTC date is strictly before its local start date.
   */
  lemma RerunExactly(p: Program, channel: string, clock: Clock)
    requires Programme(p, channel, clock).fault.None?
    ensures var children := Programme(p, channel, clock).element.children;
      var rerun := !Iptv.IsMovie(p) && p.originalAirdate.Some?
        && Before(clock.utcDate(p.originalAirdate.value), clock.localDate(p.startTime));
      (Select(children, "previously-shown") == (if rerun then [PreviouslyShown] else []))
      && (Select(children, "previously-aired") == (if rerun then [PreviouslyAired] else []))
      && (Select(children, "new") == (if !Iptv.IsMovie(p) && !rerun then [New] else []))
  {
    ProgrammeNovelty(p, channel, clock, "previously-shown");
    ProgrammeNovelty(p, channel, clock, "previously-aired");
    ProgrammeNovelty(p, channel, clock, "new");
    Rerun(p, clock);
    var novelty := if Iptv.IsMovie(p) then [] else Iptv.Novelty(IsNew(p, clock));
    Iptv.NoveltySelect(IsNew(p, clock));
    if Iptv.IsMovie(p) {
      assert Select(novelty, "new") == [];
    }
  }

  /**
   * The novelty markers of a program that is not a movie: the two rerun
   * markers exactly when it first aired strictly before its start date, new
   * otherwise; a movie gets none.
   */
  lemma Rerun(p: Program, clock: Clock)
    ensures var rerun := !Iptv.IsMovie(p) && p.originalAirdate.Some?
        && Before(clock.utcDate(p.originalAirdate.value), clock.localDate(p.startTime));
      var novelty := if Iptv.IsMovie(p) then [] else Iptv.Novelty(IsNew(p, clock));
      (Select(novelty, "previously-shown") == (if rerun then [PreviouslyShown] else []))
      && (Select(novelty, "previously-aired") == (if rerun then [PreviouslyAired] else []))
      && (Select(novelty, "new") == (if !Iptv.IsMovie(p) && !rerun then [New] else []))
  {
    var isNew := IsNew(p, clock);
    Iptv.NoveltySelect(isNew);
    if Iptv.IsMovie(p) {
      assert Select([], "new") == [];
    } else if isNew {
      assert Iptv.Novelty(isNew) == [New];
    } else {
      assert Iptv.Novelty(isNew) == [PreviouslyShown, PreviouslyAired];
    }
  }

  /** Without an OriginalAirdate a program that is not a movie is new, dated today. */
  lemma UnairedIsNew(p: Program, channel: string, clock: Clock)
    requires Programme(p, channel, clock).fault.None? && !Iptv.IsMovie(p) && p.originalAirdate.None?
    ensures var children := Programme(p, channel, clock).element.children;
      Select(children, "new") == [New] && Select(children, "previously-shown") == []
      && Select(children, "episode-num")[|Select(children, "episode-num")| - 1]
         == EpisodeNum("original_air_date", IsoFormat(clock.today))
  {
    RerunExactly(p, channel, clock);
    ProgrammeEpisodeNums(p, channel, clock);
  }

  /** The xmltv_ns text splits at '.' into season - 1, episode - 1 and an empty piece. */
  lemma XmltvNsRoundTrip(season: int, episode: int)
    ensures var parts := Split(XmltvNs(season, episode), '.');
      |parts| == 3 && ParseInt(parts[0]) == Some(season - 1)
      && ParseInt(parts[1]) == Some(episode - 1) && parts[2] == ""
  {
    var a, b := Str(season - 1), Str(episode - 1);
    ParseStr(season - 1);
    ParseStr(episode - 1);
    assert '.' !in a by {
      assert forall i :: 0 <= i < |a| ==> a[i] != '.';
    }
    assert '.' !in b by {
      assert forall i :: 0 <= i < |b| ==> b[i] != '.';
    }
    Iptv.SplitTwo(a, b, '.');
    assert XmltvNs(season, episode) == a + ['.'] + b + ['.'];
  }

  /**
   * Unlike the current converter's, the xmltv_ns text is not padded to two
   * digits: for seasons and episodes from 1 to 10 each number is one digit
   * here and that digit preceded by '0' there.
   */
  lemma XmltvNsUnpadded(season: int, episode: int)
    requires 1 <= season <= 10 && 1 <= episode <= 10
    ensures var s, e := DigitChar(season - 1), DigitChar(episode - 1);
      XmltvNs(season, episode) == [s, '.', e, '.']
      && Iptv.XmltvNs(season, episode) == ['0', s, '.', '0', e, '.']
  {
    OneDigit(season - 1);
    OneDigit(episode - 1);
  }

  /** A number below ten is written as its one digit, and padded to two with a '0'. */
  lemma OneDigit(n: nat)
    requires n < 10
    ensures Str(n) == [DigitChar(n)] && Pad(n, 2) == ['0', DigitChar(n)]
  {
    assert ZeroPad([DigitChar(n)], 2) == ZeroPad(['0', DigitChar(n)], 2);
  }

  /** Only the episode and novelty parts hold elements with the tag. */
  lemma SelectSecondFifth(h: seq<Element>, e: seq<Element>, m: seq<Element>, c: seq<Element>, n: seq<Element>, tag: string)
    requires Select(h, tag) == [] && Select(m, tag) == [] && Select(c, tag) == []
    ensures Select(h + e + m + c + n, tag) == Select(e, tag) + Select(n, tag)
  {
    Iptv.SelectParts(h, e, m, c, n, tag);
  }

  /** Only the episode and filter parts hold elements with the tag. */
  lemma SelectSecondFourth(h: seq<Element>, e: seq<Element>, m: seq<Element>, c: seq<Element>, n: seq<Element>, tag: string)
    requires Select(h, tag) == [] && Select(m, tag) == [] && Select(n, tag) == []
    ensures Select(h + e + m + c + n, tag) == Select(e, tag) + Select(c, tag)
  {
    Iptv.SelectParts(h, e, m, c, n, tag);
  }

  // ---------------------------------------------------------------------
  // The channel element

  /** display-name elements for the guide number, the guide name and the affiliate when there is one. */
  function ChannelNames(info: ChannelInfo): seq<Element> {
    [DisplayName(info.guideNumber), DisplayName(info.guideName)]
    + (if info.affiliate.Some? then [DisplayName(info.affiliate.value)] else [])
  }

  /** The channel element: id is the guide number, then the display names and the icon when there is an image. */
  function ChannelElement(info: ChannelInfo): Element {
    Element(
      "channel",
      [("id", info.guideNumber)],
      None,
      ChannelNames(info) + (if info.imageUrl.Some? then [Icon(info.imageUrl.value)] else []))
  }

  /**
   * The display names come as number, name, then the affiliate when there is
   * one, and an icon appears exactly when the channel has an image.
   */
  lemma ChannelShape(info: ChannelInfo)
    ensures var e := ChannelElement(info);
      e.attributes == [("id", info.guideNumber)]
      && Select(e.children, "display-name") ==
        [DisplayName(info.guideNumber), DisplayName(info.guideName)]
        + (if info.affiliate.Some? then [DisplayName(info.affiliate.value)] else [])
      && Select(e.children, "icon") == (if info.imageUrl.Some? then [Icon(info.imageUrl.value)] else [])
  {
    ChannelNamesSelected(info);
    ChannelIconSelected(info);
  }

  lemma ChannelNamesSelected(info: ChannelInfo)
    ensures Select(ChannelElement(info).children, "display-name") == ChannelNames(info)
  {
    var names := ChannelNames(info);
    var icon := if info.imageUrl.Some? then [Icon(info.imageUrl.value)] else [];
    assert forall i :: 0 <= i < |names| ==> names[i].tag == "display-name";
    assert forall i :: 0 <= i < |icon| ==> icon[i].tag == "icon";
    NamesThenIcon(names, icon);
  }

  lemma ChannelIconSelected(info: ChannelInfo)
    ensures Select(ChannelElement(info).children, "icon") == (if info.imageUrl.Some? then [Icon(info.imageUrl.value)] else [])
  {
    var names := ChannelNames(info);
    var icon := if info.imageUrl.Some? then [Icon(info.imageUrl.value)] else [];
    assert forall i :: 0 <= i < |names| ==> names[i].tag == "display-name";
    assert forall i :: 0 <= i < |icon| ==> icon[i].tag == "icon";
    NamesThenIcon(names, icon);
  }

  /** Display names followed by icons: each selection is its own part. */
  lemma NamesThenIcon(names: seq<Element>, icon: seq<Element>)
    requires forall i :: 0 <= i < |names| ==> names[i].tag == "display-name"
    requires forall i :: 0 <= i < |icon| ==> icon[i].tag == "icon"
    ensures Select(names + icon, "display-name") == names && Select(names + icon, "icon") == icon
  {
    SelectConcat(names, icon, "display-name");
    SelectAll(names, "display-name");
    SelectNone(icon, "display-name");
    SelectConcat(names, icon, "icon");
    SelectNone(names, "icon");
    SelectAll(icon, "icon");
  }

  /** parse_channel: appends the channel element. */
  method ParseChannel(root: Document, info: ChannelInfo) returns (e: Element)
    modifies root
    ensures e == ChannelElement(info)
    ensures root.children == old(root.children) + [e]
  {
    var children := [DisplayName(info.guideNumber)];
    children := children + [DisplayName(info.guideName)];
    if info.affiliate.Some? {
      children := children + [DisplayName(info.affiliate.value)];
    }
    if info.imageUrl.Some? {
      children := children + [Icon(info.imageUrl.value)];
    }
    e := Element("channel", [("id", info.guideNumber)], None, children);
    root.Append(e);
  }
}
