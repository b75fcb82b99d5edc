/**
 The text of a subscription feed (internal/subscription/service.go): header lines, then one
 line per URI followed by its metadata, and a reader that gives the entries back.
 */
module FeedText {
  import opened Text

  function Spaced(s: string): (r: string)
    ensures |r| == |s| && forall i :: 0 <= i < |s| ==> r[i] == if s[i] == '\r' || s[i] == '\n' then ' ' else s[i]
  {
    seq(|s|, i requires 0 <= i < |s| => if s[i] == '\r' || s[i] == '\n' then ' ' else s[i])
  }

  /** safeLine */
  function SafeLine(value: string): string {
    TrimSpace(Spaced(value))
  }

  lemma SafeLineSafe(value: string)
    ensures Trimmed(SafeLine(value)) && '\n' !in SafeLine(value) && '\r' !in SafeLine(value)
  {
    TrimSpaceTrims(Spaced(value));
  }

  // What a feed shows of one entry: a name, optional texts, and its traffic as two lines or none.
  datatype Shown = Shown(uri: string, name: string, color: string, icon: string, ip: string, comment: string,
                         used: Option<string>, available: Option<string>)

  datatype Header = Header(name: string, updated: int, refresh: string, color: string, icon: string, used: string,
      available: string)

  function Optional(tag: string, value: string): seq<string> {
    if value != "" then [tag + SafeLine(value)] else []
  }

  function Quantity(tag: string, value: Option<string>): seq<string> {
    if value.Some? then [tag + value.value] else []
  }

  const NAME_TAG := "##name: "
  const COLOR_TAG := "##color: "
  const ICON_TAG := "##icon: "
  const IP_TAG := "##ip: "
  const COMMENT_TAG := "##comment: "
  const USED_TAG := "##used: "
  const AVAILABLE_TAG := "##available: "

  function Metadata(e: Shown): seq<string> {
    Optional(NAME_TAG, e.name) + Optional(COLOR_TAG, e.color) + Optional(ICON_TAG, e.icon) + Optional(IP_TAG, e.ip)
    + Optional(COMMENT_TAG, e.comment) + Quantity(USED_TAG, e.used) + Quantity(AVAILABLE_TAG, e.available)
  }

  function HeaderLines(h: Header): seq<string> {
    ["#name: " + SafeLine(h.name), "#update: " + Itoa(h.updated), "#refresh: " + SafeLine(h.refresh)]
    + Optional("#color: ", h.color) + Optional("#icon: ", h.icon)
    + ["#used: " + h.used, "#available: " + h.available]
  }

  function EntryLines(e: Shown): seq<string> {
    [e.uri] + Metadata(e)
  }

  // Every block of lines ends with an empty one.
  function Blocks(entries: seq<Shown>): seq<string> {
    if entries == [] then [] else Blocks(entries[..|entries| - 1]) + (EntryLines(entries[|entries| - 1]) + [""])
  }

  function Lines(h: Header, entries: seq<Shown>): seq<string> {
    HeaderLines(h) + [""] + Blocks(entries)
  }

  function Feed(h: Header, entries: seq<Shown>): string {
    TrimSpace(Join(Lines(h, entries), '\n')) + "\n"
  }

  /** appendEntryMetadata and the loops of render. */
  method RenderLines(h: Header, entries: seq<Shown>) returns (feed: string)
    ensures feed == Feed(h, entries)
  {
    hide TrimSpace, Join, EntryLines, HeaderLines;
    var lines := HeaderLines(h);
    lines := lines + [""];
    for i := 0 to |entries|
      invariant lines == HeaderLines(h) + [""] + Blocks(entries[..i])
    {
      assert entries[..i + 1][..i] == entries[..i];
      lines := lines + (EntryLines(entries[i]) + [""]);
    }
    assert entries[..|entries|] == entries;
    feed := TrimSpace(Join(lines, '\n')) + "\n";
  }

  // ---------- reading a feed ----------

  // An entry read back: a URI and the metadata lines that follow it.
  type Parsed = seq<(string, seq<string>)>

  function Attach(read: Parsed, line: string): Parsed {
    if line == "" then read
    else if HasPrefix(line, "##") then
      if read == [] then read
      else read[..|read| - 1] + [(read[|read| - 1].0, read[|read| - 1].1 + [line])]
    else if line[0] == '#' then read
    else read + [(line, [])]
  }

  function ParseLines(lines: seq<string>): Parsed {
    if lines == [] then [] else Attach(ParseLines(lines[..|lines| - 1]), lines[|lines| - 1])
  }

  function Parse(feed: string): Parsed {
    ParseLines(Split(feed, '\n'))
  }

  function Expected(entries: seq<Shown>): (r: Parsed)
    ensures |r| == |entries| && forall i :: 0 <= i < |r| ==> r[i] == (entries[i].uri, Metadata(entries[i]))
  {
    seq(|entries|, i requires 0 <= i < |entries| => (entries[i].uri, Metadata(entries[i])))
  }

  // ---------- what is required of the pieces ----------

  // A text that stands alone on a line.
  predicate Piece(s: string) {
    s != "" && Trimmed(s) && '\n' !in s
  }

  predicate GoodTraffic(e: Shown) {
    (e.used.Some? ==> Piece(e.used.value)) && (e.available.Some? ==> Piece(e.available.value))
  }

  predicate UriShape(uri: string) {
    uri != "" && uri[0] != '#' && Trimmed(uri)
  }

  predicate GoodEntry(e: Shown) {
    GoodTraffic(e) && UriShape(e.uri)
  }

  predicate GoodHeader(h: Header) {
    Piece(h.used) && Piece(h.available)
  }

  predicate OneLine(entries: seq<Shown>) {
    forall i :: 0 <= i < |entries| ==> '\n' !in entries[i].uri
  }

  // A line that is not blank at its end.
  predicate Ended(line: string) {
    line != "" && SpaceLenEnd(line) == 0
  }

  lemma EndBehind(a: string, c: char, b: string)
    requires c as int < 0x80 && Ended(b)
    ensures Ended(a + [c] + b)
  {
    var s := a + [c] + b;
    var n := |s| - |b|;
    assert s[n..] == b && s[n - 1] == c;
    assert s[|s| - 1] == b[|b| - 1];
    if |b| >= 2 {
      assert s[|s| - 2] == b[|b| - 2];
    }
  }

  predicate MetadataLine(line: string) {
    HasPrefix(line, "##") && '\n' !in line
  }

  // A tag ends in a blank behind something that is none.
  predicate Tag(tag: string) {
    |tag| >= 3 && HasPrefix(tag, "##") && tag[|tag| - 1] == ' ' && '\n' !in tag && Ended(tag[..|tag| - 1])
  }

  lemma TaggedLine(tag: string, value: string)
    requires Tag(tag) && '\n' !in value
    ensures MetadataLine(tag + value)
    ensures Ended(value) ==> Ended(tag + value)
  {
    if Ended(value) {
      EndBehind(tag[..|tag| - 1], ' ', value);
    }
    assert tag[..|tag| - 1] + [' '] + value == tag + value;
    assert (tag + value)[..2] == tag[..2];
  }

  lemma OptionalLine(tag: string, value: string)
    requires Tag(tag)
    ensures forall l :: l in Optional(tag, value) ==> MetadataLine(l)
  {
    SafeLineSafe(value);
    TaggedLine(tag, SafeLine(value));
  }

  lemma QuantityLine(tag: string, value: Option<string>)
    requires Tag(tag) && (value.Some? ==> Piece(value.value))
    ensures forall l :: l in Quantity(tag, value) ==> MetadataLine(l)
  {
    if value.Some? {
      TaggedLine(tag, value.value);
    }
  }

  // The tags of the texts are tags.
  lemma TextTags()
    ensures Tag(NAME_TAG) && Tag(COLOR_TAG) && Tag(ICON_TAG) && Tag(IP_TAG) && Tag(COMMENT_TAG)
    ensures Tag(USED_TAG) && Tag(AVAILABLE_TAG)
  {}

  lemma MetadataLines(e: Shown)
    requires GoodTraffic(e)
    ensures forall l :: l in Metadata(e) ==> MetadataLine(l)
  {
    TextTags();
    hide Tag;
    OptionalLine(NAME_TAG, e.name);
    OptionalLine(COLOR_TAG, e.color);
    OptionalLine(ICON_TAG, e.icon);
    OptionalLine(IP_TAG, e.ip);
    OptionalLine(COMMENT_TAG, e.comment);
    QuantityLine(USED_TAG, e.used);
    QuantityLine(AVAILABLE_TAG, e.available);
    hide MetadataLine, Optional, Quantity;
  }

  // A header line holds one '#' in front, and nothing that breaks it.
  predicate HeaderLine(line: string) {
    |line| >= 2 && line[0] == '#' && line[1] != '#' && '\n' !in line
  }

  lemma HeaderText(tag: string, value: string)
    requires HeaderLine(tag) && '\n' !in value
    ensures HeaderLine(tag + value)
  {}

  lemma OptionalHeader(tag: string, value: string)
    requires HeaderLine(tag)
    ensures forall l :: l in Optional(tag, value) ==> HeaderLine(l)
  {
    SafeLineSafe(value);
    HeaderText(tag, SafeLine(value));
  }

  lemma HeaderLinesPlain(h: Header)
    requires GoodHeader(h)
    ensures forall l :: l in HeaderLines(h) ==> HeaderLine(l)
    ensures HeaderLines(h) != [] && Ended(HeaderLines(h)[|HeaderLines(h)| - 1])
  {
    SafeLineSafe(h.name);
    SafeLineSafe(h.refresh);
    DigitsLine(h.updated);
    EndBehind("#available:", ' ', h.available);
    assert "#available:" + [' '] + h.available == "#available: " + h.available;
    HeaderText("#name: ", SafeLine(h.name));
    HeaderText("#update: ", Itoa(h.updated));
    HeaderText("#refresh: ", SafeLine(h.refresh));
    OptionalHeader("#color: ", h.color);
    OptionalHeader("#icon: ", h.icon);
    HeaderText("#used: ", h.used);
    HeaderText("#available: ", h.available);
    hide HeaderLine, Optional, Ended, Itoa, SafeLine;
  }

  lemma DigitsLine(n: int)
    ensures '\n' !in Itoa(n)
  {
    DigitsRoundTrip(if n < 0 then -n else n);
  }

  // ---------- reading the lines back ----------

  lemma {:induction false} HeaderSkipped(lines: seq<string>)
    requires forall l :: l in lines ==> HeaderLine(l) || l == ""
    ensures ParseLines(lines) == []
  {
    if lines != [] {
      HeaderSkipped(lines[..|lines| - 1]);
      assert lines[|lines| - 1] in lines;
    }
  }

  lemma {:induction false} ParseSnoc(lines: seq<string>, line: string)
    ensures ParseLines(lines + [line]) == Attach(ParseLines(lines), line)
  {
    assert (lines + [line])[..|lines|] == lines;
  }

  lemma {:induction false} MetadataAttached(lines: seq<string>, read: Parsed, uri: string, more: seq<string>)
    requires ParseLines(lines) == read + [(uri, [])]
    requires forall l :: l in more ==> MetadataLine(l)
    ensures ParseLines(lines + more) == read + [(uri, more)]
  {
    if more == [] {
      assert lines + more == lines;
    } else {
      var init, last := more[..|more| - 1], more[|more| - 1];
      MetadataAttached(lines, read, uri, init);
      assert last in more;
      assert lines + more == lines + init + [last];
      ParseSnoc(lines + init, last);
      assert init + [last] == more;
    }
  }

  lemma {:induction false} EntryRead(lines: seq<string>, e: Shown)
    requires GoodEntry(e)
    ensures ParseLines(lines + (EntryLines(e) + [""])) == ParseLines(lines) + [(e.uri, Metadata(e))]
  {
    hide GoodTraffic, Metadata;
    ParseSnoc(lines, e.uri);
    MetadataLines(e);
    MetadataAttached(lines + [e.uri], ParseLines(lines), e.uri, Metadata(e));
    ParseSnoc(lines + [e.uri] + Metadata(e), "");
    assert lines + (EntryLines(e) + [""]) == lines + [e.uri] + Metadata(e) + [""];
  }

  lemma BlocksSnoc(head: seq<string>, entries: seq<Shown>)
    requires entries != []
    ensures var init, last := entries[..|entries| - 1], entries[|entries| - 1];
            head + Blocks(entries) == head + Blocks(init) + (EntryLines(last) + [""])
            && Expected(entries) == Expected(init) + [(last.uri, Metadata(last))]
  {
    hide EntryLines, Metadata;
  }

  lemma {:induction false} BlocksRead(head: seq<string>, entries: seq<Shown>)
    requires ParseLines(head) == [] && forall i :: 0 <= i < |entries| ==> GoodEntry(entries[i])
    ensures ParseLines(head + Blocks(entries)) == Expected(entries)
  {
    hide GoodEntry, EntryLines, Metadata, ParseLines;
    if entries == [] {
      assert head + Blocks(entries) == head;
    } else {
      var init, last := entries[..|entries| - 1], entries[|entries| - 1];
      BlocksRead(head, init);
      EntryRead(head + Blocks(init), last);
      BlocksSnoc(head, entries);
    }
  }

  // ---------- joining and trimming ----------

  lemma {:induction false} JoinSnoc(lines: seq<string>, line: string, c: char)
    requires lines != []
    ensures Join(lines + [line], c) == Join(lines, c) + [c] + line
  {
    if |lines| == 1 {
      assert (lines + [line])[1..] == [line];
    } else {
      JoinSnoc(lines[1..], line, c);
      assert (lines + [line])[1..] == lines[1..] + [line];
    }
  }

  lemma TrimTrailingBreak(s: string)
    requires Trimmed(s) && s != "" && s[0] == '#'
    ensures TrimSpace(s + "\n") == s
  {
    var t := s + "\n";
    assert SpaceLen(t) == 0;
    assert TrimLeft(t) == t;
    assert SpaceLenEnd(t) == 1 && t[..|t| - 1] == s;
    assert TrimRight(s) == s;
  }

  lemma TrimTrailingBlank(s: string)
    requires Trimmed(s) && s != "" && s[0] == '#'
    ensures TrimSpace(s + " " + "\n") == s
  {
    var t, u := s + " " + "\n", s + " ";
    assert SpaceLen(t) == 0;
    assert TrimLeft(t) == t;
    assert SpaceLenEnd(t) == 1 && t[..|t| - 1] == u;
    assert SpaceLenEnd(u) == 1 && u[..|u| - 1] == s;
    assert TrimRight(t) == TrimRight(u) == TrimRight(s) == s;
  }

  // The lines before the final empty one.
  predicate FeedShape(lines: seq<string>) {
    lines != [] && lines[0] != "" && lines[0][0] == '#' && Ended(lines[|lines| - 1])
  }

  lemma {:induction false} JoinEnds(lines: seq<string>)
    requires FeedShape(lines)
    ensures Join(lines, '\n') != "" && Join(lines, '\n')[0] == '#' && Trimmed(Join(lines, '\n'))
  {
    hide SpaceLenEnd;
    if |lines| > 1 {
      var init, last := lines[..|lines| - 1], lines[|lines| - 1];
      assert lines == init + [last];
      JoinSnoc(init, last, '\n');
      EndBehind(Join(init, '\n'), '\n', last);
    }
    JoinStarts(lines);
  }

  lemma {:induction false} JoinStarts(lines: seq<string>)
    requires lines != [] && lines[0] != ""
    ensures Join(lines, '\n') != "" && Join(lines, '\n')[0] == lines[0][0]
  {}

  lemma {:induction false} FeedIsJoined(lines: seq<string>)
    requires FeedShape(lines)
    ensures TrimSpace(Join(lines + [""], '\n')) + "\n" == Join(lines + [""], '\n')
  {
    JoinSnoc(lines, "", '\n');
    JoinEnds(lines);
    TrimTrailingBreak(Join(lines, '\n'));
    assert Join(lines, '\n') + ['\n'] + "" == Join(lines, '\n') + "\n";
  }

  // A blank behind the last line is lost.
  lemma {:induction false} FeedLosesBlank(front: seq<string>, line: string)
    requires front != [] && FeedShape(front + [line])
    ensures TrimSpace(Join(front + [line + " "] + [""], '\n')) + "\n" == Join(front + [line] + [""], '\n')
  {
    JoinSnoc(front, line, '\n');
    JoinSnoc(front, line + " ", '\n');
    JoinSnoc(front + [line], "", '\n');
    JoinSnoc(front + [line + " "], "", '\n');
    JoinEnds(front + [line]);
    TrimTrailingBlank(Join(front + [line], '\n'));
    hide Join;
    assert Join(front + [line + " "] + [""], '\n') == Join(front + [line], '\n') + " " + "\n";
  }

  // ---------- the last line ----------

  // The value behind the last metadata tag of an entry without traffic; empty if there is none.
  function LastText(e: Shown): string {
    if e.comment != "" then e.comment
    else if e.ip != "" then e.ip
    else if e.icon != "" then e.icon
    else if e.color != "" then e.color
    else e.name
  }

  // The last line of the entry is a tag with nothing but blanks behind it.
  predicate EndsBlank(e: Shown) {
    e.used.None? && e.available.None? && LastText(e) != "" && SafeLine(LastText(e)) == ""
  }

  function LastTag(e: Shown): string {
    if e.comment != "" then COMMENT_TAG
    else if e.ip != "" then IP_TAG
    else if e.icon != "" then ICON_TAG
    else if e.color != "" then COLOR_TAG
    else NAME_TAG
  }

  lemma LastMetadata(e: Shown)
    ensures e.available.Some? ==>
              Metadata(e) != [] && Metadata(e)[|Metadata(e)| - 1] == AVAILABLE_TAG + e.available.value
    ensures e.available.None? && e.used.Some? ==>
              Metadata(e) != [] && Metadata(e)[|Metadata(e)| - 1] == USED_TAG + e.used.value
    ensures e.available.None? && e.used.None? && LastText(e) != "" ==>
              Metadata(e) != [] && Metadata(e)[|Metadata(e)| - 1] == LastTag(e) + SafeLine(LastText(e))
    ensures e.available.None? && e.used.None? && LastText(e) == "" ==> Metadata(e) == []
  {
    hide SafeLine;
  }

  // The last line of a block ends in a blank exactly when the entry says so, and then it is a bare tag.
  lemma EntryEnds(e: Shown)
    requires GoodEntry(e)
    ensures var last := EntryLines(e)[|EntryLines(e)| - 1];
            if EndsBlank(e) then Metadata(e) != [] && last == LastTag(e) && Tag(last) else Ended(last)
  {
    TextTags();
    LastMetadata(e);
    hide Metadata, Tag;
    if Metadata(e) != [] {
      assert EntryLines(e)[|EntryLines(e)| - 1] == Metadata(e)[|Metadata(e)| - 1];
    }
    if e.available.Some? {
      TaggedLine(AVAILABLE_TAG, e.available.value);
    } else if e.used.Some? {
      TaggedLine(USED_TAG, e.used.value);
    } else if LastText(e) != "" {
      SafeLineSafe(LastText(e));
      TaggedLine(LastTag(e), SafeLine(LastText(e)));
      assert LastTag(e) + "" == LastTag(e);
    }
  }

  // ---------- the whole feed ----------

  // The lines in front of the last entry.
  function Front(h: Header, entries: seq<Shown>): seq<string> {
    HeaderLines(h) + [""] + (if entries == [] then [] else Blocks(entries[..|entries| - 1]))
  }

  lemma FrontShape(h: Header, entries: seq<Shown>)
    requires GoodHeader(h) && entries != []
    ensures var front, last := Front(h, entries), EntryLines(entries[|entries| - 1]);
            front != [] && front[0] != "" && front[0][0] == '#' && Lines(h, entries) == front + (last + [""])
  {
    HeaderLinesPlain(h);
    assert HeaderLines(h)[0] in HeaderLines(h);
    BlocksSnoc(HeaderLines(h) + [""], entries);
    hide HeaderLines, EntryLines, Blocks;
  }

  predicate BlankEnd(entries: seq<Shown>) {
    entries != [] && EndsBlank(entries[|entries| - 1])
  }

  // Without a blank at its end the feed is the lines, joined.
  lemma FeedKept(h: Header, entries: seq<Shown>)
    requires GoodHeader(h) && (forall i :: 0 <= i < |entries| ==> GoodEntry(entries[i])) && !BlankEnd(entries)
    ensures Feed(h, entries) == Join(Lines(h, entries), '\n')
  {
    if entries == [] {
      HeaderLinesPlain(h);
      assert HeaderLines(h)[0] in HeaderLines(h);
      hide HeaderLines, Ended;
      assert Lines(h, entries) == HeaderLines(h) + [""];
      FeedIsJoined(HeaderLines(h));
    } else {
      var last := entries[|entries| - 1];
      EntryEnds(last);
      FrontShape(h, entries);
      hide HeaderLines, Metadata, Ended, Blocks, GoodEntry, Front, EndsBlank;
      var body := Front(h, entries) + EntryLines(last);
      assert Lines(h, entries) == body + [""];
      FeedIsJoined(body);
    }
  }

  // With one, the feed is the same lines with the last tag cut.
  lemma FeedCut(h: Header, entries: seq<Shown>)
    requires GoodHeader(h) && (forall i :: 0 <= i < |entries| ==> GoodEntry(entries[i])) && BlankEnd(entries)
    ensures var last := entries[|entries| - 1];
            var tag, meta := LastTag(last), Metadata(last);
            && Tag(tag) && meta != [] && meta[|meta| - 1] == tag
            && Feed(h, entries)
               == Join(Front(h, entries) + ([last.uri] + meta[..|meta| - 1] + [tag[..|tag| - 1]] + [""]), '\n')
  {
    hide HeaderLines, Metadata, Blocks, GoodEntry, GoodHeader, Front, EndsBlank, LastTag, TrimSpace, Join, Lines, Tag,
        Ended;
    var last := entries[|entries| - 1];
    EntryEnds(last);
    FrontShape(h, entries);
    LastLine(last);
    LastCut(Front(h, entries), last.uri, Metadata(last), LastTag(last));
  }

  lemma LastLine(e: Shown)
    requires Metadata(e) != []
    ensures EntryLines(e)[|EntryLines(e)| - 1] == Metadata(e)[|Metadata(e)| - 1]
            && EntryLines(e) == [e.uri] + Metadata(e)
  {
    hide Metadata;
  }

  lemma {:induction false} LastCut(front: seq<string>, uri: string, meta: seq<string>, tag: string)
    requires front != [] && front[0] != "" && front[0][0] == '#' && Tag(tag) && meta != [] && meta[|meta| - 1] == tag
    ensures TrimSpace(Join(front + ([uri] + meta + [""]), '\n')) + "\n"
         == Join(front + ([uri] + meta[..|meta| - 1] + [tag[..|tag| - 1]] + [""]), '\n')
  {
    var cut, more := tag[..|tag| - 1], front + [uri] + meta[..|meta| - 1];
    assert cut + " " == tag && Ended(cut);
    hide TrimSpace, Join, Ended, Tag;
    assert meta == meta[..|meta| - 1] + [tag];
    Shifted(front, uri, meta[..|meta| - 1], tag);
    Shifted(front, uri, meta[..|meta| - 1], cut);
    assert more[0] == front[0];
    FeedLosesBlank(more, cut);
  }

  lemma Shifted(front: seq<string>, uri: string, meta: seq<string>, last: string)
    ensures front + ([uri] + meta + [last] + [""]) == front + [uri] + meta + [last] + [""]
    ensures front + ([uri] + (meta + [last]) + [""]) == front + [uri] + meta + [last] + [""]
  {}

  lemma {:induction false} BlocksUnbroken(entries: seq<Shown>)
    requires OneLine(entries) && forall i :: 0 <= i < |entries| ==> GoodEntry(entries[i])
    ensures forall l :: l in Blocks(entries) ==> '\n' !in l
  {
    if entries != [] {
      var init, last := entries[..|entries| - 1], entries[|entries| - 1];
      BlocksUnbroken(init);
      assert GoodEntry(last);
      MetadataLines(last);
      hide Metadata;
      forall l | l in Blocks(entries) ensures '\n' !in l {
        assert l in Blocks(init) || l in EntryLines(last) || l == "";
      }
    }
  }

  lemma CutRead(h: Header, entries: seq<Shown>)
    requires GoodHeader(h) && (forall i :: 0 <= i < |entries| ==> GoodEntry(entries[i]))
    requires OneLine(entries) && BlankEnd(entries)
    ensures var last := entries[|entries| - 1];
            var tag, meta := LastTag(last), Metadata(last);
            && |tag| > 0 && meta != [] && meta[|meta| - 1] == tag
            && Parse(Feed(h, entries))
               == Expected(entries[..|entries| - 1]) + [(last.uri, meta[..|meta| - 1] + [tag[..|tag| - 1]])]
  {
    hide HeaderLines, Blocks, Metadata, GoodHeader, LastTag, Feed, Join, Tag, Front, GoodTraffic;
    var last := entries[|entries| - 1];
    FeedCut(h, entries);
    FrontRead(h, entries);
    MetadataLines(last);
    CutTag(LastTag(last));
    BlockRead(Front(h, entries), last.uri, Metadata(last)[..|Metadata(last)| - 1],
        LastTag(last)[..|LastTag(last)| - 1]);
  }

  lemma CutTag(tag: string)
    requires Tag(tag)
    ensures |tag| > 0 && MetadataLine(tag[..|tag| - 1])
  {
    assert tag[..2] == tag[..|tag| - 1][..2];
  }

  lemma FrontRead(h: Header, entries: seq<Shown>)
    requires GoodHeader(h) && (forall i :: 0 <= i < |entries| ==> GoodEntry(entries[i]))
    requires OneLine(entries) && entries != []
    ensures ParseLines(Front(h, entries)) == Expected(entries[..|entries| - 1])
    ensures forall l :: l in Front(h, entries) ==> '\n' !in l
  {
    var init := entries[..|entries| - 1];
    HeaderLinesPlain(h);
    BlocksUnbroken(init);
    HeaderSkipped(HeaderLines(h) + [""]);
    hide GoodEntry, HeaderLines, Blocks;
    BlocksRead(HeaderLines(h) + [""], init);
  }

  // A block of lines behind others, split and read.
  lemma {:induction false} BlockRead(front: seq<string>, uri: string, meta: seq<string>, last: string)
    requires (forall l :: l in front ==> '\n' !in l) && '\n' !in uri && UriShape(uri)
    requires (forall l :: l in meta ==> MetadataLine(l)) && MetadataLine(last)
    ensures Parse(Join(front + ([uri] + meta + [last] + [""]), '\n')) == ParseLines(front) + [(uri, meta + [last])]
  {
    var lines, more := front + ([uri] + meta + [last] + [""]), meta + [last];
    assert lines == front + [uri] + more + [""];
    assert forall l :: l in lines ==> '\n' !in l;
    hide MetadataLine, Join, Split, ParseLines;
    SplitJoin(lines, '\n');
    UriRead(front, uri);
    MetadataAttached(front + [uri], ParseLines(front), uri, more);
    BlankRead(front + [uri] + more);
  }

  lemma {:induction false} UriRead(lines: seq<string>, uri: string)
    requires UriShape(uri)
    ensures ParseLines(lines + [uri]) == ParseLines(lines) + [(uri, [])]
  {
    hide ParseLines;
    ParseSnoc(lines, uri);
  }

  lemma {:induction false} BlankRead(lines: seq<string>)
    ensures ParseLines(lines + [""]) == ParseLines(lines)
  {
    hide ParseLines;
    ParseSnoc(lines, "");
  }

  /**
   Splitting a rendered feed at newlines and attaching every `##` line to the URI before it
   gives back exactly the entries, in order and with their metadata, if and only if every URI
   is one line and the feed does not end in a tag with nothing but blanks behind it, which the
   final trimming cuts.
   */
  lemma FeedParsesBack(h: Header, entries: seq<Shown>)
    requires GoodHeader(h) && forall i :: 0 <= i < |entries| ==> GoodEntry(entries[i])
    ensures Parse(Feed(h, entries)) == Expected(entries) <==> OneLine(entries) && !BlankEnd(entries)
  {
    hide GoodEntry, HeaderLines, Blocks, Metadata, GoodHeader, EndsBlank, Feed, Lines;
    if !OneLine(entries) {
      var i :| 0 <= i < |entries| && '\n' in entries[i].uri;
      ParsedUris(Split(Feed(h, entries), '\n'));
      assert Expected(entries)[i].0 == entries[i].uri;
    } else if BlankEnd(entries) {
      CutRead(h, entries);
      var n := |entries| - 1;
      var tag, meta := LastTag(entries[n]), Metadata(entries[n]);
      assert (meta[..|meta| - 1] + [tag[..|tag| - 1]])[|meta| - 1] != meta[|meta| - 1];
      assert Expected(entries)[n].1 == meta;
    } else {
      FeedKept(h, entries);
      KeptRead(h, entries);
    }
  }

  lemma KeptRead(h: Header, entries: seq<Shown>)
    requires GoodHeader(h) && (forall i :: 0 <= i < |entries| ==> GoodEntry(entries[i])) && OneLine(entries)
    ensures Parse(Join(Lines(h, entries), '\n')) == Expected(entries)
  {
    HeaderLinesPlain(h);
    BlocksUnbroken(entries);
    hide GoodEntry, HeaderLines, Blocks, Metadata, GoodHeader;
    var lines := Lines(h, entries);
    assert forall l :: l in lines ==> '\n' !in l;
    SplitJoin(lines, '\n');
    HeaderSkipped(HeaderLines(h) + [""]);
    BlocksRead(HeaderLines(h) + [""], entries);
  }

  // A URI that was read is one of the lines.
  lemma {:induction false} ParsedUris(lines: seq<string>)
    ensures forall i :: 0 <= i < |ParseLines(lines)| ==> ParseLines(lines)[i].0 in lines
  {
    if lines != [] {
      ParsedUris(lines[..|lines| - 1]);
    }
  }

  // ---------- what stands behind the tags ----------

  /** The value behind a tag: on the first line that starts with it. */
  function Told(lines: seq<string>, tag: string): Option<string> {
    if lines == [] then None
    else if HasPrefix(lines[0], tag) then Some(lines[0][|tag|..])
    else Told(lines[1..], tag)
  }

  function SafeText(value: string): Option<string> {
    if value == "" then None else Some(SafeLine(value))
  }

  function OrElse(a: Option<string>, b: Option<string>): Option<string> {
    if a.Some? then a else b
  }

  lemma {:induction false} ToldConcat(a: seq<string>, b: seq<string>, tag: string)
    ensures Told(a + b, tag) == OrElse(Told(a, tag), Told(b, tag))
  {
    if a == [] {
      assert a + b == b;
    } else {
      assert (a + b)[1..] == a[1..] + b;
      ToldConcat(a[1..], b, tag);
    }
  }

  lemma {:induction false} ToldSeven(a: seq<string>, b: seq<string>, c: seq<string>, d: seq<string>, e: seq<string>,
      f: seq<string>,
      g: seq<string>, tag: string)
    ensures Told(a + b + c + d + e + f + g, tag)
         == OrElse(OrElse(OrElse(OrElse(OrElse(OrElse(Told(a, tag), Told(b, tag)), Told(c, tag)), Told(d, tag)),
             Told(e, tag)), Told(f, tag)), Told(g, tag))
  {
    hide Told;
    ToldConcat(a, b, tag);
    ToldConcat(a + b, c, tag);
    ToldConcat(a + b + c, d, tag);
    ToldConcat(a + b + c + d, e, tag);
    ToldConcat(a + b + c + d + e, f, tag);
    ToldConcat(a + b + c + d + e + f, g, tag);
  }

  // Two tags that differ near their start.
  predicate Apart(t: string, u: string) {
    |t| >= 5 && |u| >= 5 && (t[1] != u[1] || t[2] != u[2] || t[3] != u[3] || t[4] != u[4])
  }

  ghost predicate AllApart(tags: set<string>) {
    forall t, u :: t in tags && u in tags && t != u ==> Apart(t, u)
  }

  lemma {:induction false} LineTold(tag: string, value: string)
    ensures Told([tag + value], tag) == Some(value)
    ensures forall u :: Apart(tag, u) ==> Told([tag + value], u) == None
  {
    var line := tag + value;
    assert line[|tag|..] == value;
    forall u | Apart(tag, u) ensures Told([line], u) == None {
      assert line[1] == tag[1] && line[2] == tag[2] && line[3] == tag[3] && line[4] == tag[4];
      assert !HasPrefix(line, u);
    }
  }

  lemma {:induction false} OptionalTold(tags: set<string>, tag: string, value: string)
    requires AllApart(tags) && tag in tags
    ensures Told(Optional(tag, value), tag) == SafeText(value)
    ensures forall u :: u in tags && u != tag ==> Told(Optional(tag, value), u) == None
  {
    hide SafeLine, Apart;
    LineTold(tag, SafeLine(value));
  }

  lemma {:induction false} QuantityTold(tags: set<string>, tag: string, value: Option<string>)
    requires AllApart(tags) && tag in tags
    ensures Told(Quantity(tag, value), tag) == value
    ensures forall u :: u in tags && u != tag ==> Told(Quantity(tag, value), u) == None
  {
    hide Apart;
    if value.Some? {
      LineTold(tag, value.value);
    }
  }

  const TAGS: set<string> := {NAME_TAG, COLOR_TAG, ICON_TAG, IP_TAG, COMMENT_TAG, USED_TAG, AVAILABLE_TAG}

  lemma TagsApart()
    ensures AllApart(TAGS)
  {}

  /** Read by their tags, the metadata lines of an entry say what is shown of it, and leave out what is not given. */
  lemma MetadataTold(e: Shown)
    ensures Told(Metadata(e), "##name: ") == SafeText(e.name)
    ensures Told(Metadata(e), "##color: ") == SafeText(e.color)
    ensures Told(Metadata(e), "##icon: ") == SafeText(e.icon)
    ensures Told(Metadata(e), "##ip: ") == SafeText(e.ip)
    ensures Told(Metadata(e), "##comment: ") == SafeText(e.comment)
    ensures Told(Metadata(e), "##used: ") == e.used
    ensures Told(Metadata(e), "##available: ") == e.available
  {
    TagsApart();
    forall tag ensures Told(Metadata(e), tag)
        == OrElse(OrElse(OrElse(OrElse(OrElse(OrElse(Told(Optional(NAME_TAG, e.name), tag),
            Told(Optional(COLOR_TAG, e.color), tag)), Told(Optional(ICON_TAG, e.icon), tag)),
            Told(Optional(IP_TAG, e.ip), tag)), Told(Optional(COMMENT_TAG, e.comment), tag)),
            Told(Quantity(USED_TAG, e.used), tag)), Told(Quantity(AVAILABLE_TAG, e.available), tag))
    {
      ToldSeven(Optional(NAME_TAG, e.name), Optional(COLOR_TAG, e.color), Optional(ICON_TAG, e.icon),
          Optional(IP_TAG, e.ip), Optional(COMMENT_TAG, e.comment), Quantity(USED_TAG, e.used),
          Quantity(AVAILABLE_TAG, e.available), tag);
    }
    hide Told, Optional, Quantity, SafeText, Metadata, AllApart;
    OptionalTold(TAGS, NAME_TAG, e.name);
    OptionalTold(TAGS, COLOR_TAG, e.color);
    OptionalTold(TAGS, ICON_TAG, e.icon);
    OptionalTold(TAGS, IP_TAG, e.ip);
    OptionalTold(TAGS, COMMENT_TAG, e.comment);
    QuantityTold(TAGS, USED_TAG, e.used);
    QuantityTold(TAGS, AVAILABLE_TAG, e.available);
  }

  const HEADER_TAGS: set<string> := {
    "#name: ", "#update: ", "#refresh: ", "#color: ", "#icon: ", "#used: ", "#available: " }

  lemma HeaderApart()
    ensures AllApart(HEADER_TAGS)
  {}

  lemma {:induction false} SingleTold(tags: set<string>, tag: string, value: string)
    requires AllApart(tags) && tag in tags
    ensures Told([tag + value], tag) == Some(value)
    ensures forall u :: u in tags && u != tag ==> Told([tag + value], u) == None
  {
    hide Apart;
    LineTold(tag, value);
  }

  lemma HeaderTold(h: Header)
    ensures Told(HeaderLines(h), "#name: ") == Some(SafeLine(h.name))
    ensures Told(HeaderLines(h), "#update: ") == Some(Itoa(h.updated))
    ensures Told(HeaderLines(h), "#refresh: ") == Some(SafeLine(h.refresh))
    ensures Told(HeaderLines(h), "#color: ") == SafeText(h.color)
    ensures Told(HeaderLines(h), "#icon: ") == SafeText(h.icon)
    ensures Told(HeaderLines(h), "#used: ") == Some(h.used)
    ensures Told(HeaderLines(h), "#available: ") == Some(h.available)
  {
    HeaderApart();
    hide AllApart, Optional, SafeText, SafeLine, Itoa;
    var name, updated, refresh := "#name: " + SafeLine(h.name), "#update: " + Itoa(h.updated),
        "#refresh: " + SafeLine(h.refresh);
    var color, icon := Optional("#color: ", h.color), Optional("#icon: ", h.icon);
    var used, available := "#used: " + h.used, "#available: " + h.available;
    assert HeaderLines(h) == [name] + [updated] + [refresh] + color + icon + [used] + [available];
    forall tag ensures Told(HeaderLines(h), tag)
        == OrElse(OrElse(OrElse(OrElse(OrElse(OrElse(Told([name], tag), Told([updated], tag)), Told([refresh], tag)),
            Told(color, tag)), Told(icon, tag)), Told([used], tag)), Told([available], tag))
    {
      ToldSeven([name], [updated], [refresh], color, icon, [used], [available], tag);
    }
    hide Told, HeaderLines;
    SingleTold(HEADER_TAGS, "#name: ", SafeLine(h.name));
    SingleTold(HEADER_TAGS, "#update: ", Itoa(h.updated));
    SingleTold(HEADER_TAGS, "#refresh: ", SafeLine(h.refresh));
    OptionalTold(HEADER_TAGS, "#color: ", h.color);
    OptionalTold(HEADER_TAGS, "#icon: ", h.icon);
    SingleTold(HEADER_TAGS, "#used: ", h.used);
    SingleTold(HEADER_TAGS, "#available: ", h.available);
  }

  predicate HeaderTag(tag: string) {
    |tag| >= 2 && tag[0] == '#' && tag[1] != '#'
  }

  lemma {:induction false} NoneTold(lines: seq<string>, tag: string)
    requires HeaderTag(tag) && forall l :: l in lines ==> l == "" || l[0] != '#' || HasPrefix(l, "##")
    ensures Told(lines, tag) == None
  {
    if lines != [] {
      assert lines[0] in lines;
      assert !HasPrefix(lines[0], tag);
      NoneTold(lines[1..], tag);
    }
  }

  lemma {:induction false} BlocksPlain(entries: seq<Shown>)
    requires forall i :: 0 <= i < |entries| ==> GoodEntry(entries[i])
    ensures forall l :: l in Blocks(entries) ==> l == "" || l[0] != '#' || HasPrefix(l, "##")
  {
    hide Metadata, GoodTraffic;
    if entries != [] {
      var init, last := entries[..|entries| - 1], entries[|entries| - 1];
      BlocksPlain(init);
      assert GoodEntry(last);
      MetadataLines(last);
      assert forall l :: l in Blocks(entries) ==> l in Blocks(init) || l == last.uri || l in Metadata(last) || l == "";
    }
  }

  /** A reader of the whole feed finds the values of the header behind its tags. */
  lemma {:induction false} FeedTellsHeader(h: Header, entries: seq<Shown>, tag: string)
    requires GoodHeader(h) && (forall i :: 0 <= i < |entries| ==> GoodEntry(entries[i]))
    requires OneLine(entries) && !BlankEnd(entries) && HeaderTag(tag)
    ensures Told(Split(Feed(h, entries), '\n'), tag) == Told(HeaderLines(h), tag)
  {
    hide GoodEntry, HeaderLines, Blocks, GoodHeader, BlankEnd, Told, Feed, Split, OneLine;
    FeedSplits(h, entries);
    BlocksPlain(entries);
    NoneTold([""] + Blocks(entries), tag);
    assert Lines(h, entries) == HeaderLines(h) + ([""] + Blocks(entries));
    ToldConcat(HeaderLines(h), [""] + Blocks(entries), tag);
  }

  lemma FeedSplits(h: Header, entries: seq<Shown>)
    requires GoodHeader(h) && (forall i :: 0 <= i < |entries| ==> GoodEntry(entries[i]))
    requires OneLine(entries) && !BlankEnd(entries)
    ensures Split(Feed(h, entries), '\n') == Lines(h, entries)
  {
    HeaderLinesPlain(h);
    BlocksUnbroken(entries);
    hide GoodEntry, HeaderLines, Blocks, Metadata, GoodHeader, BlankEnd, Feed, OneLine;
    FeedKept(h, entries);
    assert forall l :: l in Lines(h, entries) ==> '\n' !in l;
    SplitJoin(Lines(h, entries), '\n');
  }
}
