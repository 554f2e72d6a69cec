/** The current converter's M3U playlist: one #EXTINF entry per lineup channel. */
module Hdhr2IptvPlaylist {
  import opened Wrappers
  import opened Text
  import opened Hdhr

  const Header: string := "#EXTM3U"
  const CrLf: string := "\r\n"

  /** The #EXTINF line: duration -1, the guide number under four names, and the channel name. */
  function ExtInf(ch: LineupChannel): string {
    var n, name := ch.guideNumber, ch.guideName;
    "#EXTINF:-1 channel-id=\"" + n + "\" channel-number=\"" + n + "\" tvg-id=\"" + n
    + "\" tvg-name=\"" + name + "\" tvg-chno=\"" + n + "\"," + name
  }

  /** The group line, as the playlist loop writes it. */
  function GroupLines(ch: LineupChannel): seq<string> {
    if ch.favorite then
      if ch.hd then ["#EXTGRP:Favorites;HD"] else ["#EXTGRP:Favorites"]
    else if ch.hd then ["#EXTGRP:HD"]
    else []
  }

  /** The groups a channel belongs to: Favorites for a favourite, HD for an HD channel. */
  function Groups(ch: LineupChannel): seq<string> {
    (if ch.favorite then ["Favorites"] else []) + (if ch.hd then ["HD"] else [])
  }

  /** A channel's lines: #EXTINF, the optional group line, the stream URL. */
  function Entry(ch: LineupChannel): seq<string> {
    [ExtInf(ch)] + GroupLines(ch) + [ch.url]
  }

  function Entries(lineup: seq<LineupChannel>): seq<string>
    decreases |lineup|
  {
    if lineup == [] then [] else Entries(lineup[..|lineup| - 1]) + Entry(lineup[|lineup| - 1])
  }

  /** The playlist's lines: the header, every channel's entry in lineup order, and an empty last line. */
  function Playlist(lineup: seq<LineupChannel>): seq<string> {
    [Header] + Entries(lineup) + [""]
  }

  /** The file's contents: the lines joined with CRLF. */
  function PlaylistText(lineup: seq<LineupChannel>): string {
    Join(Playlist(lineup), CrLf)
  }

  /**
   * generate_m3u without the file write: the lines are built in lineup order
   * and a favourite HD channel's group line is extended in place. A JSON null
   * lineup fails with TypeError when iterated.
   */
  method GenerateM3u(lineup: Option<seq<LineupChannel>>) returns (r: Result<string>)
    ensures lineup.None? ==> r == Err(TypeError)
    ensures lineup.Some? ==> r == Ok(PlaylistText(lineup.value))
  {
    if lineup.None? {
      return Err(TypeError);
    }
    var channels := lineup.value;
    var lines := [Header];
    for i := 0 to |channels|
      invariant lines == [Header] + Entries(channels[..i])
    {
      lines := AppendEntry(lines, channels[i]);
      EntriesSnoc(channels, i);
    }
    assert channels[..|channels|] == channels;
    lines := lines + [""];
    r := Ok(Join(lines, CrLf));
  }

  /** One pass of the playlist loop: the channel's lines appended to those so far. */
  method AppendEntry(lines: seq<string>, ch: LineupChannel) returns (result: seq<string>)
    ensures result == lines + Entry(ch)
  {
    result := lines + [ExtInf(ch)];
    if ch.favorite {
      result := result + ["#EXTGRP:Favorites"];
      if ch.hd {
        result := result[..|result| - 1] + [result[|result| - 1] + ";HD"];
        assert "#EXTGRP:Favorites" + ";HD" == "#EXTGRP:Favorites;HD";
      }
    } else if ch.hd {
      result := result + ["#EXTGRP:HD"];
    }
    result := result + [ch.url];
  }

  /** The group line lists the channel's groups, separated by ';', and is absent when it has none. */
  lemma GroupLineGroups(ch: LineupChannel)
    ensures GroupLines(ch) == if Groups(ch) == [] then [] else ["#EXTGRP:" + Join(Groups(ch), ";")]
  {
    var groups := Groups(ch);
    if ch.favorite && ch.hd {
      assert groups == ["Favorites", "HD"] && groups[..1] == ["Favorites"];
      assert Join(groups, ";") == "Favorites" + ";" + "HD";
      assert "#EXTGRP:" + ("Favorites" + ";" + "HD") == "#EXTGRP:Favorites;HD";
    } else if ch.favorite {
      assert groups == ["Favorites"];
      assert "#EXTGRP:" + "Favorites" == "#EXTGRP:Favorites";
    } else if ch.hd {
      assert groups == ["HD"];
      assert "#EXTGRP:" + "HD" == "#EXTGRP:HD";
    }
  }

  lemma {:induction false} EntriesConcat(a: seq<LineupChannel>, b: seq<LineupChannel>)
    ensures Entries(a + b) == Entries(a) + Entries(b)
    decreases |b|
  {
    if b == [] {
      assert a + b == a;
    } else {
      var init, last := b[..|b| - 1], b[|b| - 1];
      EntriesConcat(a, init);
      assert (a + b)[..|a + b| - 1] == a + init;
      assert (a + b)[|a + b| - 1] == last;
      LinesRegroup(Entries(a), Entries(init), Entry(last));
    }
  }

  lemma LinesRegroup(a: seq<string>, b: seq<string>, c: seq<string>)
    ensures a + b + c == a + (b + c)
  {
  }

  /** Channel i's entry sits between the entries of the channels before and after it. */
  lemma EntryAt(lineup: seq<LineupChannel>, i: nat)
    requires i < |lineup|
    ensures Entries(lineup) == Entries(lineup[..i]) + Entry(lineup[i]) + Entries(lineup[i + 1..])
  {
    var upTo, after := lineup[..i + 1], lineup[i + 1..];
    assert lineup == upTo + after;
    EntriesConcat(upTo, after);
    EntriesSnoc(lineup, i);
  }

  lemma EntriesSnoc(lineup: seq<LineupChannel>, i: nat)
    requires i < |lineup|
    ensures Entries(lineup[..i + 1]) == Entries(lineup[..i]) + Entry(lineup[i])
  {
    assert lineup[..i + 1][..i] == lineup[..i];
  }

  /** Two lines per channel, plus one for each channel with a group. */
  lemma {:induction false} EntriesLength(lineup: seq<LineupChannel>)
    ensures |Entries(lineup)| == 2 * |lineup| + |GroupedChannels(lineup)|
    decreases |lineup|
  {
    if lineup != [] {
      EntriesLength(lineup[..|lineup| - 1]);
    }
  }

  /** The channels that are favourites or HD, in lineup order. */
  function GroupedChannels(lineup: seq<LineupChannel>): seq<LineupChannel>
    decreases |lineup|
  {
    if lineup == [] then []
    else
      var ch := lineup[|lineup| - 1];
      GroupedChannels(lineup[..|lineup| - 1]) + (if ch.favorite || ch.hd then [ch] else [])
  }

  lemma {:induction false} JoinFirst(parts: seq<string>, sep: string)
    requires |parts| >= 1
    ensures parts[0] <= Join(parts, sep)
    decreases |parts|
  {
    if |parts| > 1 {
      JoinFirst(parts[..|parts| - 1], sep);
      var init := Join(parts[..|parts| - 1], sep);
      assert Join(parts, sep) == init + (sep + parts[|parts| - 1]);
    }
  }

  /** The text starts with the #EXTM3U header and, thanks to the empty last line, ends with CRLF. */
  lemma PlaylistFrame(lineup: seq<LineupChannel>)
    ensures var text := PlaylistText(lineup);
      Header <= text && |text| >= 2 && text[|text| - 2..] == CrLf
  {
    var lines := Playlist(lineup);
    JoinFirst(lines, CrLf);
    var init := lines[..|lines| - 1];
    assert init == [Header] + Entries(lineup);
    assert Join(lines, CrLf) == Join(init, CrLf) + CrLf + "";
  }
}
