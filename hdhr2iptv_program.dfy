/**
 * The current converter (hdhr2iptv.py): one guide program becomes one XMLTV
 * `programme` element, one channel becomes one `channel` element.
 */
module Hdhr2IptvProgram {
  import opened Wrappers
  import opened Text
  import opened Xml
  import opened Clock
  import opened Hdhr
  import opened Xmltv

  // ---------------------------------------------------------------------
  // Categories

  /** What one filter tag contributes: the tag, then "Movie" when it is a movie tag. */
  function TagCategories(tag: string): seq<string> {
    if IsMovieTag(tag) then [tag, "Movie"] else [tag]
  }

  /** The categories contributed by a list of filter tags, in order. */
  function Expand(tags: seq<string>): seq<string>
    decreases |tags|
  {
    if tags == [] then [] else Expand(tags[..|tags| - 1]) + TagCategories(tags[|tags| - 1])
  }

  /** The categories of a program: its expanded filter tags, then "Series" for an episode number. */
  function Categories(p: Program): seq<string> {
    Expand(Filters(p)) + (if p.episodeNumber.Some? then ["Series"] else [])
  }

  predicate IsMovie(p: Program) {
    HasMovieTag(Filters(p))
  }

  /** An episode: not a movie, and it has an episode title or an episode number. */
  predicate IsEpisode(p: Program) {
    !IsMovie(p) && (p.episodeTitle.Some? || p.episodeNumber.Some?)
  }

  /** Removes each "Movie" that directly follows a movie tag: the inverse of Expand. */
  function Strip(categories: seq<string>): seq<string>
    decreases |categories|
  {
    if |categories| < 2 then categories
    else if IsMovieTag(categories[0]) && categories[1] == "Movie" then [categories[0]] + Strip(categories[2..])
    else [categories[0]] + Strip(categories[1..])
  }

  lemma ExpandPrefix(tags: seq<string>, i: nat)
    requires i < |tags|
    ensures Expand(tags[..i + 1]) == Expand(tags[..i]) + TagCategories(tags[i])
  {
    assert tags[..i + 1][..i] == tags[..i];
  }

  lemma {:induction false} ExpandConcat(a: seq<string>, b: seq<string>)
    ensures Expand(a + b) == Expand(a) + Expand(b)
    decreases |b|
  {
    if b == [] {
      assert a + b == a;
    } else {
      ExpandConcat(a, b[..|b| - 1]);
      assert (a + b)[..|a + b| - 1] == a + b[..|b| - 1];
      assert (a + b)[|a + b| - 1] == b[|b| - 1];
    }
  }

  /**
   * Every filter tag appears among the categories verbatim and in order, and
   * the only other entries are the "Movie" after each movie tag.
   */
  lemma {:induction false} StripExpand(tags: seq<string>)
    ensures Strip(Expand(tags)) == tags
    decreases |tags|
  {
    if tags != [] {
      var t, rest := tags[0], tags[1..];
      ExpandConcat([t], rest);
      assert [t] + rest == tags;
      assert Expand([t]) == TagCategories(t) by {
        assert [t][..0] == [];
      }
      StripExpand(rest);
      var e := Expand(rest);
      if IsMovieTag(t) {
        assert ([t, "Movie"] + e)[2..] == e;
      } else if e != [] {
        assert ([t] + e)[1..] == e;
      }
    }
  }

  /**
   * "Movie" is among the categories exactly when some filter tag is a movie
   * tag or is itself "Movie", since every tag is kept verbatim.
   */
  lemma {:induction false} ExpandMovie(tags: seq<string>)
    ensures "Movie" in Expand(tags) <==> HasMovieTag(tags) || "Movie" in tags
    decreases |tags|
  {
    if tags != [] {
      var init := tags[..|tags| - 1];
      ExpandMovie(init);
      LastApart(tags);
      if HasMovieTag(tags) && !IsMovieTag(tags[|tags| - 1]) {
        var i :| 0 <= i < |tags| && IsMovieTag(tags[i]);
        assert init[i] == tags[i];
      }
      if HasMovieTag(init) {
        var i :| 0 <= i < |init| && IsMovieTag(init[i]);
        assert tags[i] == init[i];
      }
    }
  }

  /** The category loop together with the is_movie flag it sets. */
  method CollectCategories(p: Program) returns (categories: seq<string>, isMovie: bool)
    ensures categories == Categories(p)
    ensures isMovie == IsMovie(p)
  {
    categories := [];
    isMovie := false;
    if p.filter.Some? {
      var tags := p.filter.value;
      for i := 0 to |tags|
        invariant categories == Expand(tags[..i])
        invariant isMovie == HasMovieTag(tags[..i])
      {
        ExpandPrefix(tags, i);
        categories := categories + [tags[i]];
        if Lower(tags[i]) == "movies" {
          isMovie := true;
          categories := categories + ["Movie"];
          assert tags[..i + 1][i] == tags[i];
        } else {
          assert forall j :: 0 <= j < i ==> tags[..i + 1][j] == tags[..i][j];
          assert tags[..i + 1][i] == tags[i];
        }
      }
      assert tags[..|tags|] == tags;
    }
    if p.episodeNumber.Some? {
      categories := categories + ["Series"];
    }
  }

  // ---------------------------------------------------------------------
  // Season and episode

  /**
   * The season and episode of an "S<season>E<episode>" code: the text between
   * the first and second 'S' split at 'E', pieces 0 and 1 read with int().
   */
  function EpisodeCode(code: string): Result<(int, int)> {
    var bySeason := Split(code, 'S');
    if |bySeason| < 2 then Err(IndexError)
    else
      var parts := Split(bySeason[1], 'E');
      match ParseInt(parts[0])
      case None => Err(ValueError)
      case Some(season) =>
        if |parts| < 2 then Err(IndexError)
        else
          match ParseInt(parts[1])
          case None => Err(ValueError)
          case Some(episode) => Ok((season, episode))
  }

  /** The air date: the UTC date of OriginalAirdate, else today. */
  function AirDate(p: Program, clock: Clock): CalendarDate {
    if p.originalAirdate.Some? then clock.utcDate(p.originalAirdate.value) else clock.today
  }

  /** is_new: the program first aired on or after the local date it starts. */
  predicate IsNew(p: Program, clock: Clock) {
    p.originalAirdate.Some? && !Before(clock.utcDate(p.originalAirdate.value), clock.localDate(p.startTime))
  }

  /** The season and episode from EpisodeNumber, or made up from the air date as (year, MMDD). */
  function SeasonEpisode(p: Program, clock: Clock): Result<(int, int)> {
    if p.episodeNumber.Some? then EpisodeCode(p.episodeNumber.value)
    else
      var d := AirDate(p, clock);
      Ok((d.year, d.month * 100 + d.day))
  }

  /** f"S{season:02}E{episode:02}", the onscreen and SxxExx texts. */
  function Onscreen(season: int, episode: int): string {
    "S" + Pad(season, 2) + "E" + Pad(episode, 2)
  }

  /** f"{(season - 1):02}.{(episode - 1):02}.", the zero-based xmltv_ns text. */
  function XmltvNs(season: int, episode: int): string {
    Pad(season - 1, 2) + "." + Pad(episode - 1, 2) + "."
  }

  /** A code S<a>E<b> yields int(a) and int(b), and a failure of either is a ValueError. */
  lemma EpisodeCodeOf(a: string, b: string)
    requires 'S' !in a && 'E' !in a && 'S' !in b && 'E' !in b
    ensures EpisodeCode("S" + a + "E" + b) ==
      match (ParseInt(a), ParseInt(b))
      case (Some(season), Some(episode)) => Ok((season, episode))
      case _ => Err(ValueError)
  {
    SplitSeason(a, b);
    SplitEpisode(a, b);
  }

  lemma SplitSeason(a: string, b: string)
    requires 'S' !in a && 'S' !in b
    ensures Split("S" + a + "E" + b, 'S') == ["", a + "E" + b]
  {
    var rest := a + "E" + b;
    assert 'S' !in rest;
    SeasonShape(a, b);
    SplitAt([], rest, 'S');
    SplitWhole(rest, 'S');
    assert Split([], 'S') == [""];
  }

  lemma SeasonShape(a: string, b: string)
    ensures "S" + a + "E" + b == [] + ['S'] + (a + "E" + b)
  {
  }

  lemma SplitEpisode(a: string, b: string)
    requires 'E' !in a && 'E' !in b
    ensures Split(a + "E" + b, 'E') == [a, b]
  {
    SplitAt(a, b, 'E');
    SplitWhole(a, 'E');
    SplitWhole(b, 'E');
    assert a + ['E'] + b == a + "E" + b;
  }

  /** A code without an 'S' has no season part. */
  lemma EpisodeCodeNoSeason(code: string)
    requires 'S' !in code
    ensures EpisodeCode(code) == Err(IndexError)
  {
    SplitWhole(code, 'S');
  }

  /** The onscreen text parses back to the season and episode it was written from. */
  lemma OnscreenRoundTrip(season: int, episode: int)
    ensures EpisodeCode(Onscreen(season, episode)) == Ok((season, episode))
  {
    var a, b := Pad(season, 2), Pad(episode, 2);
    ParsePad(season, 2);
    ParsePad(episode, 2);
    assert 'S' !in a && 'E' !in a by {
      assert forall i :: 0 <= i < |a| ==> a[i] != 'S' && a[i] != 'E';
    }
    assert 'S' !in b && 'E' !in b by {
      assert forall i :: 0 <= i < |b| ==> b[i] != 'S' && b[i] != 'E';
    }
    EpisodeCodeOf(a, b);
  }

  /** The xmltv_ns text has three '.'-separated parts: season - 1, episode - 1, nothing. */
  lemma XmltvNsRoundTrip(season: int, episode: int)
    ensures var parts := Split(XmltvNs(season, episode), '.');
      |parts| == 3 && ParseInt(parts[0]) == Some(season - 1)
      && ParseInt(parts[1]) == Some(episode - 1) && parts[2] == ""
  {
    var a, b := Pad(season - 1, 2), Pad(episode - 1, 2);
    ParsePad(season - 1, 2);
    ParsePad(episode - 1, 2);
    assert '.' !in a by {
      assert forall i :: 0 <= i < |a| ==> a[i] != '.';
    }
    assert '.' !in b by {
      assert forall i :: 0 <= i < |b| ==> b[i] != '.';
    }
    SplitTwo(a, b, '.');
    assert XmltvNs(season, episode) == a + ['.'] + b + ['.'];
  }

  /** Two separator-free pieces, each followed by the separator, split into the two and an empty piece. */
  lemma SplitTwo(a: string, b: string, sep: char)
    requires sep !in a && sep !in b
    ensures Split(a + [sep] + b + [sep], sep) == [a, b, ""]
  {
    TwoShape(a, b, sep);
    SplitAt(b, [], sep);
    SplitWhole(b, sep);
    SplitAt(a, b + [sep], sep);
    SplitWhole(a, sep);
    assert Split([], sep) == [""];
  }

  lemma TwoShape(a: string, b: string, sep: char)
    ensures b + [sep] + [] == b + [sep]
    ensures a + [sep] + (b + [sep]) == a + [sep] + b + [sep]
  {
  }

  /** Without an episode number the episode is the month and day read back as one number. */
  lemma SyntheticEpisode(d: CalendarDate)
    ensures ParseInt(Pad(d.month, 2) + Pad(d.day, 2)) == Some(d.month * 100 + d.day)
  {
    var m, dd := Pad(d.month, 2), Pad(d.day, 2);
    TwoDigits(d.month);
    TwoDigits(d.day);
    ValueTwoMore(m, dd);
    var s := m + dd;
    assert |s| == 4 && IsDigit(s[0]);
  }

  // ---------------------------------------------------------------------
  // The programme element

  /** The four episode-num elements of an episode. */
  function EpisodeNums(season: int, episode: int, airDate: CalendarDate): seq<Element> {
    [ EpisodeNum("xmltv_ns", XmltvNs(season, episode)),
      EpisodeNum("onscreen", Onscreen(season, episode)),
      EpisodeNum("SxxExx", Onscreen(season, episode)),
      EpisodeNum("original-air-date", IsoFormat(airDate)) ]
  }

  /** new for a new episode, previously-shown and previously-aired for a rerun. */
  function Novelty(isNew: bool): seq<Element> {
    if isNew then [New] else [PreviouslyShown, PreviouslyAired]
  }

  /** title, sub-title, desc and credits. */
  function Heading(p: Program): seq<Element> {
    [Title(p.title)]
    + (if p.episodeTitle.Some? then [SubTitle(p.episodeTitle.value)] else [])
    + (if p.synopsis.Some? then [Desc(p.synopsis.value)] else [])
    + [Credits]
  }

  function EpisodePart(p: Program, season: int, episode: int, clock: Clock): seq<Element> {
    if IsEpisode(p) then EpisodeNums(season, episode, AirDate(p, clock)) else []
  }

  /** icon, audio and subtitles. */
  function Media(p: Program): seq<Element> {
    (if p.imageUrl.Some? then [Icon(p.imageUrl.value)] else []) + [Audio, Subtitles]
  }

  function NoveltyPart(p: Program, clock: Clock): seq<Element> {
    if IsEpisode(p) then Novelty(IsNew(p, clock)) else []
  }

  function ProgrammeChildren(p: Program, season: int, episode: int, clock: Clock): seq<Element> {
    Heading(p) + EpisodePart(p, season, episode, clock) + Media(p)
    + CategoryElements(Categories(p)) + NoveltyPart(p, clock)
  }

  /**
   * The programme element for a program on a channel; a malformed EpisodeNumber
   * fails the conversion, for movies too.
   */
  function Programme(p: Program, channel: string, clock: Clock): (r: Result<Element>)
    ensures r.Err? <==> p.episodeNumber.Some? && EpisodeCode(p.episodeNumber.value).Err?
  {
    match SeasonEpisode(p, clock)
    case Err(fault) => Err(fault)
    case Ok((season, episode)) =>
      Ok(Element(
        "programme",
        [("channel", channel), ("start", clock.xmltvStamp(p.startTime)), ("stop", clock.xmltvStamp(p.endTime))],
        None,
        ProgrammeChildren(p, season, episode, clock)))
  }

  /** parse_program: appends the programme element and returns the program's end time. */
  method ParseProgram(root: Document, p: Program, channel: string, clock: Clock) returns (r: Result<int>)
    modifies root
    ensures Programme(p, channel, clock).Ok? ==>
      r == Ok(p.endTime) && root.children == old(root.children) + [Programme(p, channel, clock).value]
    ensures Programme(p, channel, clock).Err? ==>
      r == Err(Programme(p, channel, clock).fault) && root.children == old(root.children)
  {
    var categories, isMovie := CollectCategories(p);
    var isEpisode := !isMovie && (p.episodeTitle.Some? || p.episodeNumber.Some?);

    var isNew := false;
    var airDate := clock.today;
    if p.originalAirdate.Some? {
      airDate := clock.utcDate(p.originalAirdate.value);
      var currentAirDate := clock.localDate(p.startTime);
      isNew := !Before(airDate, currentAirDate);
    }

    var season, episode := airDate.year, airDate.month * 100 + airDate.day;
    if p.episodeNumber.Some? {
      var code := EpisodeCode(p.episodeNumber.value);
      if code.Err? {
        return Err(code.fault);
      }
      season, episode := code.value.0, code.value.1;
    }
    assert SeasonEpisode(p, clock) == Ok((season, episode));
    ProgrammeOf(p, channel, clock, season, episode);
    AppendProgramme(root, p, channel, clock, season, episode, categories, isEpisode, isNew, airDate);
    r := Ok(p.endTime);
  }

  /**
   * The element-building half of parse_program, once the categories, the
   * flags and the season and episode are known. The sub-elements are
   * collected first and the programme appended whole: nothing reads the tree
   * in between.
   */
  method AppendProgramme(
    root: Document, p: Program, channel: string, clock: Clock, season: int, episode: int,
    categories: seq<string>, isEpisode: bool, isNew: bool, airDate: CalendarDate)
    requires categories == Categories(p) && isEpisode == IsEpisode(p)
    requires isNew == IsNew(p, clock) && airDate == AirDate(p, clock)
    modifies root
    ensures root.children == old(root.children) + [Element(
      "programme",
      [("channel", channel), ("start", clock.xmltvStamp(p.startTime)), ("stop", clock.xmltvStamp(p.endTime))],
      None,
      ProgrammeChildren(p, season, episode, clock))]
  {
    var children := ProgrammeHead(p, clock, season, episode, isEpisode, airDate);
    ghost var beforeCategories := children;
    for i := 0 to |categories|
      invariant children == beforeCategories + CategoryElements(categories[..i])
    {
      assert categories[..i + 1][..i] == categories[..i];
      children := children + [Category(categories[i])];
    }
    assert categories[..|categories|] == categories;
    if isEpisode {
      if isNew {
        children := children + [New];
      } else {
        children := children + [PreviouslyShown, PreviouslyAired];
      }
    }
    assert children == ProgrammeChildren(p, season, episode, clock);
    root.Append(Element(
      "programme",
      [("channel", channel), ("start", clock.xmltvStamp(p.startTime)), ("stop", clock.xmltvStamp(p.endTime))],
      None,
      children));
  }

  /** The sub-elements parse_program adds before the categories: heading, episode numbers, media. */
  method ProgrammeHead(p: Program, clock: Clock, season: int, episode: int, isEpisode: bool, airDate: CalendarDate)
    returns (children: seq<Element>)
    requires isEpisode == IsEpisode(p) && airDate == AirDate(p, clock)
    ensures children == Heading(p) + EpisodePart(p, season, episode, clock) + Media(p)
  {
    children := HeadingElements(p);
    ghost var heading := children;
    if isEpisode {
      children := children + [EpisodeNum("xmltv_ns", XmltvNs(season, episode))];
      children := children + [EpisodeNum("onscreen", Onscreen(season, episode))];
      children := children + [EpisodeNum("SxxExx", Onscreen(season, episode))];
      children := children + [EpisodeNum("original-air-date", IsoFormat(airDate))];
    }
    assert children == heading + EpisodePart(p, season, episode, clock);
    ghost var upper := children;
    if p.imageUrl.Some? {
      children := children + [Icon(p.imageUrl.value)];
    }
    children := children + [Audio, Subtitles];
    assert children == upper + Media(p);
  }

  /** title, sub-title when there is an episode title, desc when there is a synopsis, credits. */
  method HeadingElements(p: Program) returns (children: seq<Element>)
    ensures children == Heading(p)
  {
    children := [Title(p.title)];
    if p.episodeTitle.Some? {
      children := children + [SubTitle(p.episodeTitle.value)];
    }
    if p.synopsis.Some? {
      children := children + [Desc(p.synopsis.value)];
    }
    children := children + [Credits];
  }

  lemma HeadingTags(p: Program, tag: string)
    requires tag !in {"title", "sub-title", "desc", "credits"}
    ensures forall i :: 0 <= i < |Heading(p)| ==> Heading(p)[i].tag != tag
  {
  }

  lemma MediaTags(p: Program, tag: string)
    requires tag !in {"icon", "audio", "subtitles"}
    ensures forall i :: 0 <= i < |Media(p)| ==> Media(p)[i].tag != tag
  {
  }

  /** The programme of a program whose season and episode are known. */
  lemma ProgrammeOf(p: Program, channel: string, clock: Clock, season: int, episode: int)
    requires SeasonEpisode(p, clock) == Ok((season, episode))
    ensures Programme(p, channel, clock) == Ok(Element(
      "programme",
      [("channel", channel), ("start", clock.xmltvStamp(p.startTime)), ("stop", clock.xmltvStamp(p.endTime))],
      None,
      ProgrammeChildren(p, season, episode, clock)))
  {
  }

  /** Every programme starts with its title and carries credits, audio and subtitles. */
  lemma ProgrammeFrame(p: Program, channel: string, clock: Clock)
    requires Programme(p, channel, clock).Ok?
    ensures var e := Programme(p, channel, clock).value;
      e.tag == "programme" && |e.children| > 0 && e.children[0] == Title(p.title)
      && Credits in e.children && Audio in e.children && Subtitles in e.children
      && e.attributes == [("channel", channel), ("start", clock.xmltvStamp(p.startTime)), ("stop", clock.xmltvStamp(p.endTime))]
  {
    var season, episode := SeasonEpisode(p, clock).value.0, SeasonEpisode(p, clock).value.1;
    ProgrammeOf(p, channel, clock, season, episode);
    ChildrenSplit(p, season, episode, clock);
    assert Heading(p)[0] == Title(p.title) && Credits in Heading(p);
    assert Audio in Media(p) && Subtitles in Media(p);
  }

  lemma ChildrenSplit(p: Program, season: int, episode: int, clock: Clock)
    ensures ProgrammeChildren(p, season, episode, clock)
      == Heading(p) + (EpisodePart(p, season, episode, clock) + Media(p) + CategoryElements(Categories(p)) + NoveltyPart(p, clock))
  {
    FirstApart(Heading(p), EpisodePart(p, season, episode, clock), Media(p), CategoryElements(Categories(p)), NoveltyPart(p, clock));
  }

  lemma FirstApart(h: seq<Element>, e: seq<Element>, m: seq<Element>, c: seq<Element>, n: seq<Element>)
    ensures h + e + m + c + n == h + (e + m + c + n)
  {
  }

  /** The category elements of a programme are exactly its categories, in order. */
  lemma ProgrammeCategories(p: Program, channel: string, clock: Clock)
    requires Programme(p, channel, clock).Ok?
    ensures Select(Programme(p, channel, clock).value.children, "category") == CategoryElements(Categories(p))
  {
    var season, episode := SeasonEpisode(p, clock).value.0, SeasonEpisode(p, clock).value.1;
    ProgrammeOf(p, channel, clock, season, episode);
    CategoriesSelected(p, clock, season, episode);
  }

  lemma CategoriesSelected(p: Program, clock: Clock, season: int, episode: int)
    ensures Select(ProgrammeChildren(p, season, episode, clock), "category") == CategoryElements(Categories(p))
  {
    var tag := "category";
    HeadingNone(p, tag);
    EpisodePartNone(p, clock, season, episode, tag);
    MediaNone(p, tag);
    NoveltyPartNone(p, clock, tag);
    SelectFourth(Heading(p), EpisodePart(p, season, episode, clock), Media(p), CategoryElements(Categories(p)), NoveltyPart(p, clock), tag);
    CategoriesAll(p);
  }

  /** A movie, or a program with neither episode title nor number, gets no episode markers. */
  lemma NonEpisodeMarkers(p: Program, channel: string, clock: Clock)
    requires Programme(p, channel, clock).Ok? && !IsEpisode(p)
    ensures var children := Programme(p, channel, clock).value.children;
      Select(children, "episode-num") == [] && Select(children, "new") == []
      && Select(children, "previously-shown") == [] && Select(children, "previously-aired") == []
  {
    var season, episode := SeasonEpisode(p, clock).value.0, SeasonEpisode(p, clock).value.1;
    ProgrammeOf(p, channel, clock, season, episode);
    NonEpisodeTag(p, clock, season, episode, "episode-num");
    NonEpisodeTag(p, clock, season, episode, "new");
    NonEpisodeTag(p, clock, season, episode, "previously-shown");
    NonEpisodeTag(p, clock, season, episode, "previously-aired");
  }

  lemma NonEpisodeTag(p: Program, clock: Clock, season: int, episode: int, tag: string)
    requires !IsEpisode(p) && tag in {"episode-num", "new", "previously-shown", "previously-aired"}
    ensures Select(ProgrammeChildren(p, season, episode, clock), tag) == []
  {
    HeadingNone(p, tag);
    MediaNone(p, tag);
    CategoriesNone(p, tag);
    assert EpisodePart(p, season, episode, clock) == [] && NoveltyPart(p, clock) == [];
    assert Select([], tag) == [];
    SelectSecond(Heading(p), EpisodePart(p, season, episode, clock), Media(p), CategoryElements(Categories(p)), NoveltyPart(p, clock), tag);
  }

  /** An episode carries the four episode-num elements of its season and episode. */
  lemma EpisodeNumMarkers(p: Program, channel: string, clock: Clock)
    requires Programme(p, channel, clock).Ok? && IsEpisode(p)
    ensures Select(Programme(p, channel, clock).value.children, "episode-num")
      == EpisodeNums(SeasonEpisode(p, clock).value.0, SeasonEpisode(p, clock).value.1, AirDate(p, clock))
  {
    var season, episode := SeasonEpisode(p, clock).value.0, SeasonEpisode(p, clock).value.1;
    ProgrammeOf(p, channel, clock, season, episode);
    EpisodeNumsSelected(p, clock, season, episode);
  }

  /**
   * An episode is marked new when it is new and previously-shown and
   * previously-aired otherwise: its novelty elements are those of Novelty.
   */
  lemma NoveltyMarkers(p: Program, channel: string, clock: Clock, tag: string)
    requires Programme(p, channel, clock).Ok? && IsEpisode(p)
    requires tag in {"new", "previously-shown", "previously-aired"}
    ensures Select(Programme(p, channel, clock).value.children, tag) == Select(Novelty(IsNew(p, clock)), tag)
  {
    var season, episode := SeasonEpisode(p, clock).value.0, SeasonEpisode(p, clock).value.1;
    ProgrammeOf(p, channel, clock, season, episode);
    NoveltyMarker(p, clock, season, episode, tag);
  }

  /** What Novelty holds of each marker: new alone, or both rerun markers. */
  lemma NoveltySelect(isNew: bool)
    ensures Select(Novelty(isNew), "new") == (if isNew then [New] else [])
    ensures Select(Novelty(isNew), "previously-shown") == (if isNew then [] else [PreviouslyShown])
    ensures Select(Novelty(isNew), "previously-aired") == (if isNew then [] else [PreviouslyAired])
  {
  }

  lemma EpisodeNumsSelected(p: Program, clock: Clock, season: int, episode: int)
    ensures Select(ProgrammeChildren(p, season, episode, clock), "episode-num")
      == EpisodePart(p, season, episode, clock)
  {
    var tag := "episode-num";
    HeadingNone(p, tag);
    MediaNone(p, tag);
    CategoriesNone(p, tag);
    NoveltyPartNone(p, clock, tag);
    SelectSecond(Heading(p), EpisodePart(p, season, episode, clock), Media(p), CategoryElements(Categories(p)), NoveltyPart(p, clock), tag);
    EpisodePartAll(p, clock, season, episode);
  }

  lemma NoveltyMarker(p: Program, clock: Clock, season: int, episode: int, tag: string)
    requires IsEpisode(p) && tag in {"new", "previously-shown", "previously-aired"}
    ensures Select(ProgrammeChildren(p, season, episode, clock), tag) == Select(Novelty(IsNew(p, clock)), tag)
  {
    HeadingNone(p, tag);
    EpisodePartNone(p, clock, season, episode, tag);
    MediaNone(p, tag);
    CategoriesNone(p, tag);
    SelectFifth(Heading(p), EpisodePart(p, season, episode, clock), Media(p), CategoryElements(Categories(p)), NoveltyPart(p, clock), tag);
    assert NoveltyPart(p, clock) == Novelty(IsNew(p, clock));
  }

  lemma HeadingNone(p: Program, tag: string)
    requires tag !in {"title", "sub-title", "desc", "credits"}
    ensures Select(Heading(p), tag) == []
  {
    HeadingTags(p, tag);
    SelectNone(Heading(p), tag);
  }

  lemma MediaNone(p: Program, tag: string)
    requires tag !in {"icon", "audio", "subtitles"}
    ensures Select(Media(p), tag) == []
  {
    MediaTags(p, tag);
    SelectNone(Media(p), tag);
  }

  lemma EpisodePartAll(p: Program, clock: Clock, season: int, episode: int)
    ensures Select(EpisodePart(p, season, episode, clock), "episode-num") == EpisodePart(p, season, episode, clock)
  {
    SelectAll(EpisodePart(p, season, episode, clock), "episode-num");
  }

  lemma EpisodePartNone(p: Program, clock: Clock, season: int, episode: int, tag: string)
    requires tag != "episode-num"
    ensures Select(EpisodePart(p, season, episode, clock), tag) == []
  {
    SelectNone(EpisodePart(p, season, episode, clock), tag);
  }

  lemma NoveltyPartNone(p: Program, clock: Clock, tag: string)
    requires tag !in {"new", "previously-shown", "previously-aired"}
    ensures Select(NoveltyPart(p, clock), tag) == []
  {
    SelectNone(NoveltyPart(p, clock), tag);
  }

  lemma CategoriesAll(p: Program)
    ensures Select(CategoryElements(Categories(p)), "category") == CategoryElements(Categories(p))
  {
    SelectAll(CategoryElements(Categories(p)), "category");
  }

  lemma CategoriesNone(p: Program, tag: string)
    requires tag != "category"
    ensures Select(CategoryElements(Categories(p)), tag) == []
  {
    SelectNone(CategoryElements(Categories(p)), tag);
  }

  /** Selecting from the five parts of a programme's sub-elements. */
  lemma SelectParts(h: seq<Element>, e: seq<Element>, m: seq<Element>, c: seq<Element>, n: seq<Element>, tag: string)
    ensures Select(h + e + m + c + n, tag)
      == Select(h, tag) + Select(e, tag) + Select(m, tag) + Select(c, tag) + Select(n, tag)
  {
    SelectConcat(h + e + m + c, n, tag);
    SelectConcat(h + e + m, c, tag);
    SelectConcat(h + e, m, tag);
    SelectConcat(h, e, tag);
  }

  /** Only the episode part holds elements with the tag. */
  lemma SelectSecond(h: seq<Element>, e: seq<Element>, m: seq<Element>, c: seq<Element>, n: seq<Element>, tag: string)
    requires Select(h, tag) == [] && Select(m, tag) == [] && Select(c, tag) == [] && Select(n, tag) == []
    ensures Select(h + e + m + c + n, tag) == Select(e, tag)
  {
    SelectParts(h, e, m, c, n, tag);
  }

  /** Only the category part holds elements with the tag. */
  lemma SelectFourth(h: seq<Element>, e: seq<Element>, m: seq<Element>, c: seq<Element>, n: seq<Element>, tag: string)
    requires Select(h, tag) == [] && Select(e, tag) == [] && Select(m, tag) == [] && Select(n, tag) == []
    ensures Select(h + e + m + c + n, tag) == Select(c, tag)
  {
    SelectParts(h, e, m, c, n, tag);
  }

  /** Only the novelty part holds elements with the tag. */
  lemma SelectFifth(h: seq<Element>, e: seq<Element>, m: seq<Element>, c: seq<Element>, n: seq<Element>, tag: string)
    requires Select(h, tag) == [] && Select(e, tag) == [] && Select(m, tag) == [] && Select(c, tag) == []
    ensures Select(h + e + m + c + n, tag) == Select(n, tag)
  {
    SelectParts(h, e, m, c, n, tag);
  }

  // ---------------------------------------------------------------------
  // The channel element

  /**
   * The channel element: id is the guide number; display names are the
   * affiliate (when given), the lineup's name, the guide's name and the
   * guide number; then the icon when the guide has one.
   */
  function ChannelElement(lineup: LineupChannel, info: ChannelInfo): Element {
    Element(
      "channel",
      [("id", info.guideNumber)],
      None,
      ChannelNames(lineup, info) + (if info.imageUrl.Some? then [Icon(info.imageUrl.value)] else []))
  }

  function ChannelNames(lineup: LineupChannel, info: ChannelInfo): seq<Element> {
    (if info.affiliate.Some? then [DisplayName(info.affiliate.value)] else [])
    + [DisplayName(lineup.guideName), DisplayName(info.guideName), DisplayName(info.guideNumber)]
  }

  /** The display names come in the documented order and an icon appears exactly when the guide has an image. */
  lemma ChannelShape(lineup: LineupChannel, info: ChannelInfo)
    ensures var e := ChannelElement(lineup, info);
      Select(e.children, "display-name") ==
        (if info.affiliate.Some? then [DisplayName(info.affiliate.value)] else [])
        + [DisplayName(lineup.guideName), DisplayName(info.guideName), DisplayName(info.guideNumber)]
      && Select(e.children, "icon") == (if info.imageUrl.Some? then [Icon(info.imageUrl.value)] else [])
  {
    ChannelNamesSelected(lineup, info);
    ChannelIconSelected(lineup, info);
  }

  lemma ChannelNamesSelected(lineup: LineupChannel, info: ChannelInfo)
    ensures Select(ChannelElement(lineup, info).children, "display-name") == ChannelNames(lineup, info)
  {
    var names := ChannelNames(lineup, info);
    var icon := if info.imageUrl.Some? then [Icon(info.imageUrl.value)] else [];
    assert ChannelElement(lineup, info).children == names + icon;
    SelectConcat(names, icon, "display-name");
    SelectAll(names, "display-name");
    SelectNone(icon, "display-name");
  }

  lemma ChannelIconSelected(lineup: LineupChannel, info: ChannelInfo)
    ensures Select(ChannelElement(lineup, info).children, "icon")
      == (if info.imageUrl.Some? then [Icon(info.imageUrl.value)] else [])
  {
    var names := ChannelNames(lineup, info);
    var icon := if info.imageUrl.Some? then [Icon(info.imageUrl.value)] else [];
    assert ChannelElement(lineup, info).children == names + icon;
    SelectConcat(names, icon, "icon");
    SelectNone(names, "icon");
    SelectAll(icon, "icon");
  }

  /** parse_channel: appends the channel element. */
  method ParseChannel(root: Document, lineup: LineupChannel, info: ChannelInfo) returns (e: Element)
    modifies root
    ensures e == ChannelElement(lineup, info)
    ensures root.children == old(root.children) + [e]
  {
    var children := [];
    if info.affiliate.Some? {
      children := children + [DisplayName(info.affiliate.value)];
    }
    children := children + [DisplayName(lineup.guideName)];
    children := children + [DisplayName(info.guideName)];
    children := children + [DisplayName(info.guideNumber)];
    if info.imageUrl.Some? {
      children := children + [Icon(info.imageUrl.value)];
    }
    e := Element("channel", [("id", info.guideNumber)], None, children);
    root.Append(e);
  }
}
