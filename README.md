# hdhr2iptv in Dafny

A model of the three generations of the HDHomeRun-to-XMLTV converter in this
repository, and proofs about them:

- `hdhr2iptv.py`, the current converter: guide programs become XMLTV
  `programme` elements, lineup channels become `channel` elements and M3U
  playlist entries, and guide pages come through an on-disk cache;
- `hdhr2xml.py`, the middle one, with its favourites filter and its walk over
  guide pages without a cache;
- `hdhr-xmltv.py`, the oldest one, with its UTC offset text, its made-up
  episode numbers, `in_list` and its channel processing capped at 24 further
  guide requests.

The HDHomeRun cloud API is a fixed table from requests (DeviceAuth, Channel,
optional Start) to decoded responses, held by a `GuideApi` object that logs
every request sent to it; a request missing from the table is a transport
failure. The XML tree is a `Document` object whose sequence of sub-elements
is appended to, each element a value of tag, attributes in the order they
were set, optional text and sub-elements. The clock (timestamp to local and
UTC date, the XMLTV stamp, today, the current local time and the UTC offset
in seconds) is a parameter. A Python exception is a `Fault` (TransportError,
KeyError, IndexError, ValueError, TypeError) carried in a `Result` or a
status.

Layout, one module per file:

| file | module | models |
|---|---|---|
| wrappers.dfy | Wrappers | Option, Fault, Result, Status |
| text.dfy | Text | ASCII `lower()`, `str(n)`, `f"{n:02}"`, `int()`, `split`, `join`, `replace(c, "")` |
| xml.dfy | Xml | ElementTree elements, selection by tag, the `tv` document |
| xmltv.dfy | Xmltv | the XMLTV elements the converters emit |
| clock.dfy | Clock | calendar dates and the clock |
| hdhr.dfy | Hdhr | programs, guide responses, requests, the guide API, lineups, devices |
| hdhr2iptv_program.dfy | Hdhr2IptvProgram | `parse_program`, `parse_channel` of the current converter |
| hdhr2iptv_cache.dfy | Hdhr2IptvCache | `get_cached_hdhr_channel_guide` |
| hdhr2iptv_playlist.dfy | Hdhr2IptvPlaylist | `generate_m3u` |
| hdhr2iptv_guide.dfy | Hdhr2IptvGuide | the page walk of `generate_xmltv` |
| hdhr2iptv_xmltv.dfy | Hdhr2IptvXmltv | the lineup and device loops of `generate_xmltv` |
| hdhr2xml_program.dfy | Hdhr2XmlProgram | `parse_program`, `parse_channel` of the middle converter |
| hdhr2xml_xmltv.dfy | Hdhr2XmlXmltv | `generate_xmltv` of the middle converter |
| hdhr_xmltv_program.dfy | HdhrXmltvProgram | `get_utc_offset_str`, `date_time_to_episode(_friendly)`, `in_list`, `process_program` |
| hdhr_xmltv_channel.dfy | HdhrXmltvChannel | `process_channel` |

Each loop of the source is a method with a `while` or `for` loop proved
against a recursive specification function: the method's postcondition says
that the document, the request log and the cache end up as the function
says, and the lemmas state what the source promises about that function.

Where the repository's prose and its code differ, the model follows the code:

- in the current and middle converters the next guide page starts one
  second after the EndTime of the *last* program of the page before it (at
  second one when that page is empty), not after the largest EndTime; the
  oldest converter adds that second only once, to the last EndTime of the
  initial guide (zero when it is empty), and then asks each time at the raw
  EndTime of the last program of the previous response, a response without
  programs leaving that Start unchanged;
- the current converter stops a channel's walk on a response without a
  first element or with an empty Guide; the middle one only on a response
  without a first element, and an empty Guide makes it ask again from Start 1;
  the oldest one makes at most 24 further requests and stops on any
  exception;
- the current converter's cache keeps a fetched page when its first element
  is a non-empty object, whether or not that object lists any program;
- filter tags become categories verbatim in the current and middle
  converters; only the oldest one lower-cases them;
- in the current converter a lineup document that is JSON null makes
  `generate_m3u` raise a TypeError before the `lineup is not None` test that
  was meant to skip it, so the run stops there.

## Model

| member | source | states |
|---|---|---|
| Hdhr.GuideApi.Get | hdhr2iptv.py:132-138 | a guide request is logged and answered from the response table, a missing entry being a transport failure |
| Hdhr.FreshFacts | hdhr2iptv.py:222-223 | the channel numbers a `not in parsed_channels` loop processes are exactly the unseen ones, each once |
| Hdhr.FreshDistinct | hdhr2iptv.py:270 | appending the processed numbers keeps `parsed_channels` free of repetitions |
| Hdhr.LiveChannelsConcat | hdhr2iptv.py:224-228 | the channels asked for live over two stretches of requests are those of the first stretch, then those of the second |
| Text.ParsePad | hdhr2iptv.py:41 | `int()` reads back any number written zero-padded by an f-string, which holds only digits and minus signs |
| Text.ParseStr | hdhr2xml.py:43-46 | `int(str(n)) == n` |
| Text.SplitFree | hdhr2iptv.py:43 | no piece of a `split` with a one-character separator holds the separator |
| Text.JoinSplit | hdhr2iptv.py:43-44 | joining the pieces of `split` with the separator gives the text back |
| Text.SplitJoin | hdhr2iptv.py:43-44 | pieces free of the separator survive a join followed by a split |
| Text.SplitAt | hdhr2iptv.py:43-44 | splitting at a separator splits the two sides independently |
| Text.RemoveFree | hdhr-xmltv.py:100 | `replace(c, "")` leaves no `c` and changes nothing in a text without one |
| Text.RemoveConcat | hdhr-xmltv.py:55 | removing a character from two joined texts removes it from each |
| Xml.Document.Append | hdhr2iptv.py:46 | `ET.SubElement` on the root makes the element the new last sub-element |
| Xml.SelectConcat | hdhr2iptv.py:57-102 | the elements of a tag in sub-elements built part by part are those of each part, in order |
| Hdhr2IptvProgram.StripExpand | hdhr2iptv.py:18-27 | every filter tag is among the categories verbatim and in order, the only other entries being the "Movie" after each movie tag |
| Hdhr2IptvProgram.ExpandMovie | hdhr2iptv.py:18-27 | "Movie" is a category exactly when some filter tag lower-cases to "movies" or is itself "Movie", every tag being kept verbatim |
| Hdhr2IptvProgram.ExpandConcat | hdhr2iptv.py:21-25 | the categories of two tag lists are those of the first, then those of the second |
| Hdhr2IptvProgram.CollectCategories | hdhr2iptv.py:18-27 | the category loop builds the categories (filter tags with "Movie" after movie tags, then "Series" for an EpisodeNumber) and the is_movie flag |
| Hdhr2IptvProgram.EpisodeCodeOf | hdhr2iptv.py:42-44 | `S<a>E<b>` gives season `int(a)` and episode `int(b)`, a failing `int()` being a ValueError |
| Hdhr2IptvProgram.EpisodeCodeNoSeason | hdhr2iptv.py:43 | an EpisodeNumber without 'S' raises IndexError |
| Hdhr2IptvProgram.OnscreenRoundTrip | hdhr2iptv.py:43-44 | the `S{season:02}E{episode:02}` text parses back to the season and episode it was written from |
| Hdhr2IptvProgram.XmltvNsRoundTrip | hdhr2iptv.py:71-73 | the xmltv_ns text splits at '.' into season - 1, episode - 1 and an empty piece |
| Hdhr2IptvProgram.SyntheticEpisode | hdhr2iptv.py:40-41 | without an EpisodeNumber the episode is month * 100 + day of the air date |
| Hdhr2IptvProgram.Programme | hdhr2iptv.py:14-105 | the conversion fails exactly for an EpisodeNumber whose season and episode do not parse, movies included |
| Hdhr2IptvProgram.ParseProgram | hdhr2iptv.py:14-105 | parse_program appends the programme and returns EndTime, or raises with the document unchanged |
| Hdhr2IptvProgram.AppendProgramme | hdhr2iptv.py:46-102 | once categories, flags, season and episode are known, the programme with its channel, start and stop and its sub-elements is appended |
| Hdhr2IptvProgram.ProgrammeHead | hdhr2iptv.py:57-89 | the sub-elements before the categories are heading, episode numbers, then media |
| Hdhr2IptvProgram.HeadingElements | hdhr2iptv.py:57-68 | title, sub-title for an episode title, desc for a synopsis, then the empty credits |
| Hdhr2IptvProgram.ProgrammeOf | hdhr2iptv.py:46-102 | a program whose season and episode are known converts to the programme of those |
| Hdhr2IptvProgram.ProgrammeFrame | hdhr2iptv.py:46-89 | every programme starts with its title, carries credits, audio and subtitles, and has channel, start and stop attributes in that order |
| Hdhr2IptvProgram.ProgrammeCategories | hdhr2iptv.py:91-92 | the category elements are exactly the categories, in order |
| Hdhr2IptvProgram.NonEpisodeMarkers | hdhr2iptv.py:70-102 | a program that is not an episode gets no episode-num, new, previously-shown or previously-aired |
| Hdhr2IptvProgram.EpisodeNumMarkers | hdhr2iptv.py:70-82 | an episode carries the xmltv_ns, onscreen, SxxExx and original-air-date numbers of its season, episode and air date |
| Hdhr2IptvProgram.NoveltyMarkers | hdhr2iptv.py:94-102 | an episode is marked new when it first aired on or after its start date, previously-shown and previously-aired otherwise |
| Hdhr2IptvProgram.NoveltySelect | hdhr2iptv.py:94-102 | new comes alone and the two rerun markers together, never both kinds |
| Hdhr2IptvProgram.ChannelShape | hdhr2iptv.py:108-129 | display names come as affiliate (when given), lineup name, guide name, guide number; an icon appears exactly when the guide has an image |
| Hdhr2IptvProgram.ParseChannel | hdhr2iptv.py:108-129 | parse_channel appends the channel element, identified by the guide number |
| Hdhr2IptvCache.CachedGuide | hdhr2iptv.py:141-162 | a hit returns the stored page without a request; a miss requests exactly this page; stored pages never change; the only new entry is this page, only when its first element is a non-empty object |
| Hdhr2IptvCache.GuideCache.GetOrFetch | hdhr2iptv.py:141-162 | the cache lookup over the cache object and the guide API does what CachedGuide says |
| Hdhr2IptvPlaylist.GenerateM3u | hdhr2iptv.py:165-191 | the playlist text is the CRLF-joined lines of the lineup; a null lineup raises TypeError |
| Hdhr2IptvPlaylist.AppendEntry | hdhr2iptv.py:168-184 | one pass adds the channel's #EXTINF line, group line and URL, the HD suffix written onto the favourites line in place |
| Hdhr2IptvPlaylist.GroupLineGroups | hdhr2iptv.py:178-183 | the group line lists Favorites then HD, separated by ';', and is absent for a channel in neither |
| Hdhr2IptvPlaylist.EntryAt | hdhr2iptv.py:168-184 | each channel's entry sits between those of the channels before and after it, in lineup order |
| Hdhr2IptvPlaylist.EntriesLength | hdhr2iptv.py:168-184 | two lines per channel plus one per channel with a group |
| Hdhr2IptvPlaylist.EntriesConcat | hdhr2iptv.py:168-184 | the entries of two lineups are those of the first, then those of the second |
| Hdhr2IptvPlaylist.PlaylistFrame | hdhr2iptv.py:167-191 | the text starts with #EXTM3U and, because of the empty last line, ends with CRLF |
| Hdhr2IptvGuide.CollectPrefix | hdhr2iptv.py:237-240 | a page appends each program's programme in order, up to the first program that raises, whose failure it reports |
| Hdhr2IptvGuide.ConvertPrefix | hdhr2iptv.py:237-240 | converting a page appends the programme of each program before the first failing one |
| Hdhr2IptvGuide.CollectSticky | hdhr2iptv.py:237-240 | after a program raises, the later programs of the page change nothing |
| Hdhr2IptvGuide.ParsePrograms | hdhr2iptv.py:235-240 | the page loop appends what converting the page appends and keeps the last program's EndTime |
| Hdhr2IptvGuide.Judge | hdhr2iptv.py:249-264 | a response continues the walk exactly when its first element has a non-empty Guide, finishes it exactly without a first element or with an empty Guide, and the empty object raises KeyError |
| Hdhr2IptvGuide.FollowShape | hdhr2iptv.py:234-264 | a walk converts the page in hand and asks for the next page of every page but the last |
| Hdhr2IptvGuide.FollowStarts | hdhr2iptv.py:242-248 | each follow-up request starts one second after the EndTime of the last program of the page before it |
| Hdhr2IptvGuide.FollowContinues | hdhr2iptv.py:249-259 | the walk goes on from a response only when its first element has a non-empty Guide, which is the next page |
| Hdhr2IptvGuide.FollowEnd | hdhr2iptv.py:253-264 | a walk finishes only on a response that ends it, the answer to its last request |
| Hdhr2IptvGuide.FollowCache | hdhr2iptv.py:243-248 | along a walk stored pages stay as they were and every new entry is a storable page |
| Hdhr2IptvGuide.FollowRequests | hdhr2iptv.py:243-248 | every request of a walk is for this channel and auth and carries a Start |
| Hdhr2IptvGuide.Paginate | hdhr2iptv.py:234-264 | the while loop changes document, request log and cache as the walk says and returns its status |
| Hdhr2IptvGuide.PageStep | hdhr2iptv.py:235-264 | one pass converts the page and either ends the walk or hands over the next page with one request fewer |
| Hdhr2IptvGuide.FetchNext | hdhr2iptv.py:242-264 | the request for the next page goes through the cache and its response is judged |
| Hdhr2IptvXmltv.ChannelRequests | hdhr2iptv.py:222-248 | a channel's first page is asked for live exactly once, every other request carries a Start, all with the device's auth and the channel's number |
| Hdhr2IptvXmltv.ChannelElements | hdhr2iptv.py:224-240 | a channel adds elements exactly when its live response has a channel object; the channel element comes first and all the rest are programmes of that channel |
| Hdhr2IptvXmltv.ChannelCache | hdhr2iptv.py:224-264 | stored pages survive a channel unchanged and every page it adds is storable |
| Hdhr2IptvXmltv.ProgrammeChannel | hdhr2iptv.py:46 | a programme is labelled with the channel number it is parsed for |
| Hdhr2IptvXmltv.ConvertChannel | hdhr2iptv.py:237-240 | a converted page holds programmes of its channel only |
| Hdhr2IptvXmltv.FollowProgrammes | hdhr2iptv.py:234-264 | every element a walk appends is a programme of its channel |
| Hdhr2IptvXmltv.ChannelGuide | hdhr2iptv.py:222-270 | the body of the lineup loop changes document, log and cache as the channel run says |
| Hdhr2IptvXmltv.LineupDedup | hdhr2iptv.py:221-273 | a completed lineup adds to parsed_channels exactly its numbers not parsed before, once each and in order, and asks live for exactly those |
| Hdhr2IptvXmltv.LineupSticky | hdhr2iptv.py:221-273 | once a channel raises, the rest of the lineup changes nothing |
| Hdhr2IptvXmltv.LineupCache | hdhr2iptv.py:221-273 | stored pages survive a lineup unchanged and every page it adds is storable |
| Hdhr2IptvXmltv.LineupGuide | hdhr2iptv.py:221-273 | the lineup loop changes parsed_channels, document, log and cache as the lineup run says |
| Hdhr2IptvXmltv.LineupStep | hdhr2iptv.py:221-273 | one pass of the lineup loop, a parsed channel being skipped |
| Hdhr2IptvXmltv.LineupGained | hdhr2iptv.py:221-273 | a completed lineup keeps parsed_channels distinct and gains exactly the channels asked for live |
| Hdhr2IptvXmltv.GainedTrans | hdhr2iptv.py:206-273 | what device after device gains adds up |
| Hdhr2IptvXmltv.DevicesDedup | hdhr2iptv.py:204-277 | across all devices no channel is fetched live twice, however many tuners carry it |
| Hdhr2IptvXmltv.DevicesCache | hdhr2iptv.py:204-277 | stored pages survive the whole run unchanged and every page it adds is storable |
| Hdhr2IptvXmltv.DevicesPlaylists | hdhr2iptv.py:206-217 | a completed run writes one playlist per device with a DeviceID, in device order |
| Hdhr2IptvXmltv.DevicesLineups | hdhr2iptv.py:215-219 | a completed run found a non-null lineup for every device with a DeviceID |
| Hdhr2IptvXmltv.DevicesStopped | hdhr2iptv.py:206-277 | a completed run completed every prefix of its devices, whatever its length |
| Hdhr2IptvXmltv.DevicesSticky | hdhr2iptv.py:206-277 | once the run has stopped the remaining devices change nothing |
| Hdhr2IptvXmltv.NullLineupStops | hdhr2iptv.py:215-219 | a null lineup stops the run with TypeError in generate_m3u, writing no playlist and fetching nothing |
| Hdhr2IptvXmltv.GenerateXmltv | hdhr2iptv.py:194-287 | a discovery that raised or returned libhdhr's falsy error value fetches nothing and writes no document; any other discovery, even of no tuner at all (a truthy generator), runs the device loop, and no tuner gives an empty `tv` document; the document is the `tv` element of the run's elements, written only when the run completes |
| Hdhr2IptvXmltv.DeviceGuide | hdhr2iptv.py:206-277 | one pass of the device loop, a device without DeviceID being passed over |
| Hdhr2XmlProgram.Programme | hdhr2xml.py:19-101 | the programme is appended before the EpisodeNumber is read: a malformed one raises and leaves title, sub-title, desc and credits behind |
| Hdhr2XmlProgram.ParseProgram | hdhr2xml.py:19-101 | parse_program always appends its programme and returns EndTime unless it raised |
| Hdhr2XmlProgram.EpisodeElements | hdhr2xml.py:41-56 | the EpisodeNumber block raises for a number that does not parse and otherwise adds its episode numbers and "Series" |
| Hdhr2XmlProgram.CodeElements | hdhr2xml.py:47-56 | an EpisodeNumber adds the unpadded xmltv_ns, the number verbatim as onscreen and SxxExx, then "Series" |
| Hdhr2XmlProgram.FilterCategories | hdhr2xml.py:65-72 | each filter tag becomes a category verbatim followed by "Movie" when it is a movie tag, and is_movie is set exactly when some tag is one |
| Hdhr2XmlProgram.FilterStep | hdhr2xml.py:67-72 | one filter tag adds its category and, for a movie tag, "Movie" after it |
| Hdhr2XmlProgram.MovieTagStep | hdhr2xml.py:69-72 | is_movie after one more tag is is_movie before, or that tag being a movie tag |
| Hdhr2XmlProgram.NoveltyElements | hdhr2xml.py:74-98 | a movie gets nothing; another program gets its novelty markers, then the original_air_date number |
| Hdhr2XmlProgram.ProgrammeEpisodeNums | hdhr2xml.py:41-98 | episode numbers are those of the EpisodeNumber, then original_air_date for every program that is not a movie |
| Hdhr2XmlProgram.ProgrammeCategories | hdhr2xml.py:56-72 | "Series" comes first for an EpisodeNumber, then every filter tag verbatim, each movie tag followed by "Movie" |
| Hdhr2XmlProgram.ProgrammeNovelty | hdhr2xml.py:74-98 | a movie gets no novelty marker, any other program those of its novelty |
| Hdhr2XmlProgram.RerunExactly | hdhr2xml.py:74-98 | a program that is not a movie is new or a rerun, never both; rerun markers appear exactly when its air date is strictly before its start date |
| Hdhr2XmlProgram.Rerun | hdhr2xml.py:74-98 | for a program that is not a movie, the rerun markers appear exactly when its air date is strictly before its start date, and new appears otherwise |
| Hdhr2XmlProgram.UnairedIsNew | hdhr2xml.py:91-98 | without an OriginalAirdate a program that is not a movie is new and dated today |
| Hdhr2XmlProgram.XmltvNsRoundTrip | hdhr2xml.py:43-48 | the xmltv_ns text splits at '.' into season - 1, episode - 1 and an empty piece |
| Hdhr2XmlProgram.XmltvNsUnpadded | hdhr2xml.py:43-48 | for seasons and episodes from 1 to 10, each number of the middle converter's xmltv_ns is one digit where the current converter writes that digit after a '0' |
| Hdhr2XmlProgram.ChannelShape | hdhr2xml.py:104-122 | the channel is identified by its number; display names come as number, name, then affiliate when given; an icon appears exactly for an image |
| Hdhr2XmlProgram.ParseChannel | hdhr2xml.py:104-122 | parse_channel appends the channel element |
| Hdhr2XmlXmltv.CollectPrefix | hdhr2xml.py:205-207 | a page appends every program's programme up to and including the first that raises, whose failure it reports |
| Hdhr2XmlXmltv.CollectSticky | hdhr2xml.py:205-207 | after a program raises, the later programs of the page change nothing |
| Hdhr2XmlXmltv.ParsePrograms | hdhr2xml.py:203-207 | the page loop appends what converting the page appends and keeps the last program's EndTime |
| Hdhr2XmlXmltv.Judge | hdhr2xml.py:215-224 | a response finishes the walk exactly when it has no first element; any channel object, even with an empty Guide, continues it; the empty object raises KeyError |
| Hdhr2XmlXmltv.FollowShape | hdhr2xml.py:202-224 | a walk converts the page in hand, one request per follow-up page |
| Hdhr2XmlXmltv.FollowNext | hdhr2xml.py:202-224 | a walk that goes on is its first page, its request and response, then the rest |
| Hdhr2XmlXmltv.FollowStop | hdhr2xml.py:202-224 | a walk that stops at its first page made at most one request and finished on a response without a first element |
| Hdhr2XmlXmltv.FollowStarts | hdhr2xml.py:209-213 | every follow-up request is for this channel and starts one second after the last program of the page before |
| Hdhr2XmlXmltv.EmptyPageRestarts | hdhr2xml.py:203-213 | a page without programs is followed by a request with Start 1 |
| Hdhr2XmlXmltv.FollowContinues | hdhr2xml.py:215-219 | the walk goes on from every response with a channel object, whose Guide is the next page |
| Hdhr2XmlXmltv.FollowEnd | hdhr2xml.py:215-224 | a walk finishes only on a response without a first element, the answer to its last request |
| Hdhr2XmlXmltv.FollowLive | hdhr2xml.py:211-213 | no follow-up request is a live one |
| Hdhr2XmlXmltv.FollowProgrammes | hdhr2xml.py:205-207 | every element a walk appends is a programme of its channel |
| Hdhr2XmlXmltv.ConverterLabels | hdhr2xml.py:205-207 | converting any page yields programmes of the channel only |
| Hdhr2XmlXmltv.Paginate | hdhr2xml.py:202-224 | the while loop changes document and request log as the walk says and returns its status |
| Hdhr2XmlXmltv.PageStep | hdhr2xml.py:203-224 | one pass converts the page and either ends the walk or hands over the next page |
| Hdhr2XmlXmltv.FetchNext | hdhr2xml.py:209-224 | the next page is requested with its Start and the response judged |
| Hdhr2XmlXmltv.ChannelRequests | hdhr2xml.py:193-224 | a channel's first page is asked for live exactly once and every request is for this channel and auth |
| Hdhr2XmlXmltv.FollowRequests | hdhr2xml.py:211-213 | the walk's requests all carry a Start, this channel and this auth |
| Hdhr2XmlXmltv.ChannelElements | hdhr2xml.py:193-224 | a channel adds elements exactly when its live response has a channel object; the channel element comes first, then programmes of the channel only |
| Hdhr2XmlXmltv.ChannelGuide | hdhr2xml.py:193-228 | the body of the lineup loop changes document and log as the channel run says |
| Hdhr2XmlXmltv.TakenMembers | hdhr2xml.py:187-191 | a number is taken exactly when some channel with that number passes the favourites filter |
| Hdhr2XmlXmltv.LineupDedup | hdhr2xml.py:186-231 | a completed lineup records exactly its taken numbers not parsed before, once each and in order, and asks live for exactly those |
| Hdhr2XmlXmltv.FavoritesRecorded | hdhr2xml.py:186-231 | with favourites only, every number recorded is that of a favourite; channels passed over are not recorded |
| Hdhr2XmlXmltv.LineupSticky | hdhr2xml.py:186-231 | once a channel raises, the rest of the lineup changes nothing |
| Hdhr2XmlXmltv.LineupGuide | hdhr2xml.py:186-231 | the lineup loop changes parsed_channels, document and log as the lineup run says |
| Hdhr2XmlXmltv.LineupStep | hdhr2xml.py:186-231 | one pass of the lineup loop, parsed or unwanted channels being skipped |
| Hdhr2XmlXmltv.LineupGained | hdhr2xml.py:186-231 | a completed lineup keeps parsed_channels distinct and gains exactly the channels asked for live |
| Hdhr2XmlXmltv.DevicesDedup | hdhr2xml.py:170-235 | across all devices no channel is fetched live twice |
| Hdhr2XmlXmltv.NullLineupSkipped | hdhr2xml.py:184-233 | a device whose lineup is null is passed over and changes nothing |
| Hdhr2XmlXmltv.DevicesSticky | hdhr2xml.py:172-235 | once the run has stopped the remaining devices change nothing |
| Hdhr2XmlXmltv.GenerateXmltv | hdhr2xml.py:163-243 | a discover request that raises ends the run with its exception, nothing fetched and no document; a null answer means no devices, nothing fetched and no document; otherwise the `tv` document of the run is written, possibly empty, when it completes |
| Hdhr2XmlXmltv.DeviceGuide | hdhr2xml.py:172-235 | one pass of the device loop |
| HdhrXmltvProgram.OffsetShape | hdhr-xmltv.py:30-49 | the offset text is '-' exactly behind UTC and '+' otherwise, then two digits of hours (wrapping at a day), ':', two digits of minutes |
| HdhrXmltvProgram.OffsetRoundTrip | hdhr-xmltv.py:30-49 | an offset of whole minutes less than a day is read back exactly from its text |
| HdhrXmltvProgram.CompactShape | hdhr-xmltv.py:55 | removing the ':' leaves sign, hours and minutes: five characters |
| HdhrXmltvProgram.FakeDigits | hdhr-xmltv.py:285-298 | the fake season reads back as the year; the fake episode is six digits reading back as month, day and hour |
| HdhrXmltvProgram.FakeAgrees | hdhr-xmltv.py:285-298 | the xmltv_ns text process_program would derive from the friendly fake number is the fake xmltv_ns text |
| HdhrXmltvProgram.InListMember | hdhr-xmltv.py:277-282 | in_list is list membership |
| HdhrXmltvProgram.XmltvNsNone | hdhr-xmltv.py:98-101 | only an EpisodeNumber without 'E' fails, with IndexError |
| HdhrXmltvProgram.XmltvNsSplit | hdhr-xmltv.py:98-105 | the season is everything before the first 'E' less its 'S's, the episode the text up to the next 'E' |
| HdhrXmltvProgram.XmltvNsOfCode | hdhr-xmltv.py:98-105 | `S<s>E<e>` gives `s` without its 'S's, " . ", `e`, " . 0/1" |
| HdhrXmltvProgram.XmltvNsSecondE | hdhr-xmltv.py:98-105 | a second 'E' cuts the episode short |
| HdhrXmltvProgram.Programme | hdhr-xmltv.py:52-166 | the programme is labelled with the GuideName; an EpisodeNumber without 'E' raises IndexError and leaves the heading and the onscreen number behind |
| HdhrXmltvProgram.ProcessProgram | hdhr-xmltv.py:52-166 | process_program always appends its programme and returns EndTime unless it raised |
| HdhrXmltvProgram.EpisodeElements | hdhr-xmltv.py:91-108 | the EpisodeNumber block writes onscreen, then xmltv_ns and "series", setting addedEpisode; without 'E' it raises after onscreen |
| HdhrXmltvProgram.FilterElements | hdhr-xmltv.py:128-153 | the Filter block adds the made-up episode when no movie tag and no episode was found, then every tag lower-cased |
| HdhrXmltvProgram.FindMovie | hdhr-xmltv.py:130-135 | the search that stops at the first movie tag finds one exactly when there is one |
| HdhrXmltvProgram.LowerCategories | hdhr-xmltv.py:148-153 | one lower-cased category per filter tag, in order |
| HdhrXmltvProgram.ProgrammeEpisodeNums | hdhr-xmltv.py:93-146 | episode numbers are onscreen and xmltv_ns for an EpisodeNumber, the fake xmltv_ns and onscreen for a made-up episode, never both |
| HdhrXmltvProgram.ProgrammeCategories | hdhr-xmltv.py:107-153 | a single "series" for an EpisodeNumber or a made-up episode, then every filter tag lower-cased, in order |
| HdhrXmltvProgram.SingleSeries | hdhr-xmltv.py:107-146 | an EpisodeNumber and a made-up episode never both add "series", so at most one stands ahead of the categories |
| HdhrXmltvProgram.ProgrammePreviouslyShown | hdhr-xmltv.py:110-119 | previously-shown appears exactly for a positive OriginalAirdate, started a day after it with the compact offset |
| HdhrXmltvProgram.ProgrammeFixed | hdhr-xmltv.py:76-126 | every programme that did not raise starts with its title and holds credits, audio and subtitles once each |
| HdhrXmltvChannel.ChannelShape | hdhr-xmltv.py:174-187 | the channel is identified by its GuideName; display names come as GuideName, GuideNumber, then Affiliate when given; an icon appears exactly for an image |
| HdhrXmltvChannel.AppendChannel | hdhr-xmltv.py:174-187 | the channel element is appended first |
| HdhrXmltvChannel.ProcessGuide | hdhr-xmltv.py:189-192 | the loop over the initial guide appends what converting it appends and leaves maxTime at the last program's EndTime, or as it was for an empty guide |
| HdhrXmltvChannel.ConverterLabels | hdhr-xmltv.py:191-192 | every programme of a converted guide is labelled with the GuideName |
| HdhrXmltvChannel.PassMaxTime | hdhr-xmltv.py:203-206 | a response processed without an exception holds no empty object and leaves maxTime at the raw EndTime of its last program |
| HdhrXmltvChannel.PassLabels | hdhr-xmltv.py:203-206 | every element a response adds is a programme labelled with the GuideName |
| HdhrXmltvChannel.PassSticky | hdhr-xmltv.py:203-206 | after an object raises, the later objects of the response change nothing |
| HdhrXmltvChannel.ProcessObjects | hdhr-xmltv.py:203-206 | the loops over a response's objects and their programs change the document as one response pass says |
| HdhrXmltvChannel.ExtendNext | hdhr-xmltv.py:199-207 | a request that goes through is its Start, response and programmes, then the rest of the loop |
| HdhrXmltvChannel.ExtendStop | hdhr-xmltv.py:199-210 | the loop ends after its 24th request or on an exception, which it keeps |
| HdhrXmltvChannel.ExtendBound | hdhr-xmltv.py:195-207 | at most 24 further requests, one Start each; exactly 24 when none raises |
| HdhrXmltvChannel.ExtendStarts | hdhr-xmltv.py:194-206 | the first request starts at the given maxTime, each is for the channel's number, and each later Start is the raw EndTime of the last program before it |
| HdhrXmltvChannel.ExtendCause | hdhr-xmltv.py:199-210 | the loop stops early only on the exception its last request's response raised |
| HdhrXmltvChannel.ExtendProgrammes | hdhr-xmltv.py:199-206 | everything the further requests append is a programme labelled with the GuideName |
| HdhrXmltvChannel.ExtendedFetch | hdhr-xmltv.py:199-210 | the loop changes document and request log as the extension says and returns the exception that ended it |
| HdhrXmltvChannel.FetchStep | hdhr-xmltv.py:200-207 | one pass requests the guide at maxTime and processes every program of the response |
| HdhrXmltvChannel.ChannelRequests | hdhr-xmltv.py:169-210 | a channel makes at most 24 further requests, all for its number with a Start, the first one second after the last initial program; only an initial program's exception escapes, and then nothing is requested |
| HdhrXmltvChannel.ChannelElements | hdhr-xmltv.py:169-210 | the channel element comes first and everything after it is a programme labelled with the GuideName |
| HdhrXmltvChannel.ProcessChannel | hdhr-xmltv.py:169-210 | process_channel changes document and request log as the channel processing says, returning the exception that escapes and the one swallowed |

## Left out

- `libhdhr.py` (local tuner discovery through a native library) is not part of this model: the current converter's discovery is a parameter, a device list, or None when it raised or returned the library's error value. The middle converter's discover request is a parameter too: an exception, a JSON null or a device list.
- `utils.py` is not part of this model: HTTP requests with their redirects and retries, JSON files, sleeping and time-zone formatting become the response tables and the clock.
- The HTTP helpers of the scripts are replaced by the guide API table; the discover and lineup requests of the middle and current converters are maps from URL to decoded answer. A URL missing from its map is a transport failure, and a discover answer without DeviceAuth is the KeyError of `data["DeviceAuth"]` (hdhr2xml.py:154). Redirects, retries and timeouts are not modelled, and neither is a discover or lineup answer that is not a JSON object or list.
- `argparse`, `main`, logging and the scheduling loops of all three scripts, including the device loop in the oldest script's `main` (hdhr-xmltv.py:301-366).
- Serialising the tree with ElementTree or minidom and writing the XML and M3U files: the model returns the `tv` element and the playlist texts.
- Cache files are never evicted here; the deletion by age in `utils.py` is left out.
- Hdhr2IptvGuide.Paginate, Hdhr2XmlXmltv.Paginate: the Python walks have no bound; the model takes a fuel count and reports OutOfFuel when it runs out, so a walk longer than the fuel is not modelled.
- Text.Lower lower-cases ASCII letters only; Unicode case mapping is not modelled.
- Text.ParseInt accepts an optional sign and ASCII digits only; the whitespace, underscores and non-ASCII digits Python's `int()` also accepts are not modelled.
- JSON fields of the wrong type, a missing Title, StartTime or EndTime, and a "Guide" that is null are not modelled: every program has those three fields and every channel object a list of programs.
- Hdhr2IptvPlaylist.GenerateM3u: every lineup channel has a "URL"; a channel without one, whose None makes the CRLF join raise TypeError (hdhr2iptv.py:169, 184, 191), is not modelled.
- Hdhr2IptvXmltv.DeviceStep: every lineup channel has a "GuideNumber" and every device with a DeviceID has "LineupURL" and "DeviceAuth"; the guide request for `Channel=None` (hdhr2iptv.py:222-225) and the KeyError of a missing device field (hdhr2iptv.py:208-210) are not modelled.
- Hdhr2XmlXmltv.DeviceStep: every lineup channel has a "GuideNumber" and every device with a DeviceID has "DiscoverURL" and "LineupURL"; the TypeError of concatenating a missing number (hdhr2xml.py:140, 230-231) and the KeyError of a missing device field (hdhr2xml.py:175-176) are not modelled.
- Hdhr2IptvProgram.ChannelElement, Hdhr2XmlProgram.ChannelElement: every channel object of a guide answer has "GuideNumber" and "GuideName"; without them `.get` gives None (hdhr2iptv.py:108-129, hdhr2xml.py:104-122), so the channel gets `id=None`, which makes the ElementTree write raise, or a display-name without text, and neither is modelled.
- HdhrXmltvChannel.ProcessChannel: every channel object has "GuideNumber" and "GuideName"; the TypeError the log concatenation raises without them (hdhr-xmltv.py:170-171) is not modelled.
- The empty object `{}` is the only falsy guide object modelled; what the current converter does with a partly written channel element when it raises is not observable here, since a failed run writes no document.
- The document after a failed run is not stated for the current and middle converters: they write nothing then.
- HdhrXmltvProgram.UtcOffset takes the offset as whole seconds; the floating point `total_seconds()` and the difference of two clock readings it comes from are not modelled.
- HdhrXmltvProgram.FakeSeason writes the year with at least four digits, as `%Y` does for years from 1000 on; years below 1000 are not modelled.
- HdhrXmltvProgram.DateTimeToEpisode and HdhrXmltvProgram.DateTimeToEpisodeFriendly read one current time; the two separate `time.time()` calls in the source could straddle an hour boundary, which is not modelled.
- HdhrXmltvProgram.Stamp uses one UTC offset, read once, for every stamp of a run. The source calls `get_utc_offset_str()` again for each program (hdhr-xmltv.py:55), and each call reads the clock (hdhr-xmltv.py:24-27), so a run that crosses a daylight-saving change writes two different offsets; that is not modelled, and neither is the offset a program's own date would have.
- The oldest converter's `process_channel` is modelled for a channel object from the guide; the choice of channels and devices in its `main` is not.
- The URL strings of `get_hdhr_channel_guide` are not modelled; a request is the triple of DeviceAuth, Channel and optional Start.
