/** The plain-text report `main` writes after extracting the events: a header with the keywords
    and the generation time, then one block per event. The file name defaults to a slug of the
    keywords. The time is a parameter, and the report is the text the calls to `f.write` produce. */
module Report {
  import opened Outcomes
  import opened Text
  import opened Details
  import opened Lines

  const DefaultPrefix := "sf_events_detailed_"
  const DefaultSuffix := ".txt"

  /** `keywords.lower().replace(",", "_").replace(" ", "_")`, on ASCII letters. */
  function Slug(keywords: string): (r: string)
    ensures |r| == |keywords|
    ensures forall i :: 0 <= i < |r| ==>
      r[i] == if keywords[i] == ',' || keywords[i] == ' ' then '_'
              else if 'A' <= keywords[i] <= 'Z' then (keywords[i] - 'A' + 'a') as char
              else keywords[i]
    ensures ',' !in r && ' ' !in r
    ensures forall i :: 0 <= i < |r| ==> !('A' <= r[i] <= 'Z')
  {
    Replace(Replace(LowerAscii(keywords), ',', '_'), ' ', '_')
  }

  /** The output path: the one given, unless it is missing or empty (`if not args.output`). */
  function OutputPath(keywords: string, output: Option<string>): (path: string)
    ensures output.Some? && output.value != "" ==> path == output.value
    ensures output.None? || output.value == "" ==>
      path == DefaultPrefix + Slug(keywords) + DefaultSuffix
  {
    if output.Some? && output.value != "" then output.value else DefaultPrefix + Slug(keywords) + DefaultSuffix
  }

  /** `  - name`, followed by `, title_company` only when that is not empty. */
  function SpeakerLine(sp: Speaker): string {
    "  - " + sp.name + if sp.titleCompany != "" then ", " + sp.titleCompany else ""
  }

  function SpeakerLines(speakers: seq<Speaker>): (lines: seq<string>)
    ensures |lines| == |speakers|
  {
    if speakers == [] then []
    else SpeakerLines(speakers[..|speakers| - 1]) + [SpeakerLine(speakers[|speakers| - 1])]
  }

  /** The lines about the speakers: a heading and one line each, or `Speakers: None listed`. */
  function SpeakerSection(speakers: seq<Speaker>): seq<string> {
    if speakers == [] then ["Speakers: None listed"] else ["Speakers:"] + SpeakerLines(speakers)
  }

  /** The block for the `n`-th event, numbered from 1. */
  function EventLines(n: nat, e: EventRecord): seq<string> {
    ["Event " + NatToString(n) + ":", "Title: " + e.title]
    + SpeakerSection(e.speakers)
    + ["Summary: " + e.summary, "URL: " + e.url, ""]
  }

  /** The blocks of `events`, the first numbered `first`. */
  function Blocks(events: seq<EventRecord>, first: nat): seq<string> {
    Numbered(EventLines, events, first)
  }

  function HeaderLines(keywords: string, timestamp: string): seq<string> {
    ["Luma SF Events Detailed Results", "Search keywords: " + keywords, "Generated on " + timestamp, ""]
  }

  function ReportLines(keywords: string, timestamp: string, events: seq<EventRecord>): seq<string> {
    HeaderLines(keywords, timestamp) + Blocks(events, 1)
  }

  function ReportText(keywords: string, timestamp: string, events: seq<EventRecord>): string {
    Render(ReportLines(keywords, timestamp, events))
  }

  // ------------------------------------------------------------------------------ lemmas

  /** The slug differs from the keywords only where `,` or ` ` became `_` and where a capital
      letter was lowered; a file name is formed around it. */
  lemma DefaultPathShape(keywords: string)
    ensures var path := OutputPath(keywords, None);
      && |path| == |DefaultPrefix| + |keywords| + |DefaultSuffix|
      && path[..|DefaultPrefix|] == DefaultPrefix
      && path[|path| - |DefaultSuffix|..] == DefaultSuffix
      && path[|DefaultPrefix|..|path| - |DefaultSuffix|] == Slug(keywords)
  {
    var path := OutputPath(keywords, None);
    assert path == DefaultPrefix + Slug(keywords) + DefaultSuffix;
  }

  /** The title and company are appended exactly when there is one. */
  lemma SpeakerLineShape(sp: Speaker)
    ensures SpeakerLine(sp) == "  - " + sp.name <==> sp.titleCompany == ""
    ensures sp.titleCompany != "" ==> SpeakerLine(sp) == "  - " + sp.name + ", " + sp.titleCompany
  {
    if sp.titleCompany != "" {
      assert |SpeakerLine(sp)| > |"  - " + sp.name|;
    }
  }

  lemma {:induction false} SpeakerLinesAt(speakers: seq<Speaker>)
    ensures forall j :: 0 <= j < |speakers| ==> SpeakerLines(speakers)[j] == SpeakerLine(speakers[j])
  {
    if speakers != [] {
      SpeakerLinesAt(speakers[..|speakers| - 1]);
    }
  }

  /** A block has six lines plus one per speaker, in a fixed order. */
  lemma EventBlockShape(n: nat, e: EventRecord)
    ensures var ls := EventLines(n, e); var k := |e.speakers|;
      && |ls| == 6 + k
      && ls[0] == "Event " + NatToString(n) + ":"
      && ls[1] == "Title: " + e.title
      && (k == 0 ==> ls[2] == "Speakers: None listed")
      && (k > 0 ==> ls[2] == "Speakers:" && forall j :: 0 <= j < k ==> ls[3 + j] == SpeakerLine(e.speakers[j]))
      && ls[|ls| - 3] == "Summary: " + e.summary
      && ls[|ls| - 2] == "URL: " + e.url
      && ls[|ls| - 1] == ""
  {
    SpeakerLinesAt(e.speakers);
  }

  /** In the report, the block of event `i` follows the header and the blocks of the events before
      it, and it is numbered `i + 1`. */
  lemma BlockAt(events: seq<EventRecord>, i: nat)
    requires i < |events|
    ensures Placed(Blocks(events, 1), |Blocks(events[..i], 1)|, EventLines(i + 1, events[i]))
  {
    NumberedAt(EventLines, events, 1, i);
  }

  /** The report lists one block per event: its line count is four plus six per event plus one per
      speaker. */
  function LineCount(events: seq<EventRecord>): nat {
    if events == [] then 0 else 6 + |events[0].speakers| + LineCount(events[1..])
  }

  lemma {:induction false} BlocksLength(events: seq<EventRecord>, first: nat)
    ensures |Blocks(events, first)| == LineCount(events)
  {
    if events != [] {
      assert events == [events[0]] + events[1..];
      NumberedAppend(EventLines, [events[0]], events[1..], first);
      BlocksLength(events[1..], first + 1);
      assert [events[0]][..0] == [];
      assert Numbered(EventLines, [events[0]], first) == EventLines(first, events[0]);
      EventBlockShape(first, events[0]);
    }
  }

  lemma ReportLength(keywords: string, timestamp: string, events: seq<EventRecord>)
    ensures |ReportLines(keywords, timestamp, events)| == 4 + LineCount(events)
  {
    BlocksLength(events, 1);
  }

  /** When no field holds a line break, the report text splits back into its lines. */
  lemma ReportReadsBack(keywords: string, timestamp: string, events: seq<EventRecord>)
    requires forall i :: 0 <= i < |ReportLines(keywords, timestamp, events)| ==>
      '\n' !in ReportLines(keywords, timestamp, events)[i]
    ensures Split(ReportText(keywords, timestamp, events), '\n') == ReportLines(keywords, timestamp, events) + [""]
  {
    SplitRender(ReportLines(keywords, timestamp, events));
  }

  // ------------------------------------------------------------------------------ methods

  /** The speaker lines of one block: the heading and a line per speaker, or the note that there
      are none. */
  method WriteSpeakers(speakers: seq<Speaker>) returns (text: string)
    ensures text == Render(SpeakerSection(speakers))
  {
    if |speakers| == 0 {
      RenderOne("Speakers: None listed");
      return "Speakers: None listed\n";
    }
    RenderOne("Speakers:");
    text := "Speakers:\n";
    var j := 0;
    while j < |speakers|
      invariant 0 <= j <= |speakers|
      invariant text == Render(["Speakers:"] + SpeakerLines(speakers[..j]))
    {
      var sp := speakers[j];
      var line := "  - " + sp.name;
      if sp.titleCompany != "" {
        line := line + ", " + sp.titleCompany;
      }
      assert line == SpeakerLine(sp);
      assert speakers[..j + 1][..j] == speakers[..j];
      assert ["Speakers:"] + SpeakerLines(speakers[..j + 1]) == ["Speakers:"] + SpeakerLines(speakers[..j]) + [line];
      RenderSnoc(["Speakers:"] + SpeakerLines(speakers[..j]), line);
      text := text + line + "\n";
      j := j + 1;
    }
    assert speakers[..j] == speakers;
  }

  /** Writing one block is the text for its lines. */
  method WriteEvent(n: nat, e: EventRecord) returns (text: string)
    ensures text == Render(EventLines(n, e))
  {
    var first := "Event " + NatToString(n) + ":";
    var title := "Title: " + e.title;
    var summary := "Summary: " + e.summary;
    var url := "URL: " + e.url;
    text := first + "\n";
    text := text + title + "\n";
    var speakers := WriteSpeakers(e.speakers);
    text := text + speakers;
    text := text + summary + "\n";
    text := text + url + "\n";
    text := text + "\n";
    ghost var head := [first, title];
    ghost var tail := [summary, url, ""];
    assert Render(head) == first + "\n" + title + "\n" by {
      RenderOne(title);
      assert head[1..] == [title];
    }
    assert Render(tail) == summary + "\n" + url + "\n" + "\n" by {
      RenderOne("");
      assert tail[1..][1..] == [""];
    }
    RenderAppend(head, SpeakerSection(e.speakers));
    RenderAppend(head + SpeakerSection(e.speakers), tail);
  }

  lemma HeaderText(title: string, searched: string, generated: string)
    ensures Render([title, searched, generated, ""]) == title + "\n" + searched + "\n" + generated + "\n\n"
  {
    var ls := [title, searched, generated, ""];
    RenderOne("");
    assert ls[1..][1..][1..] == [""];
    assert Render(ls[1..][1..]) == generated + "\n\n";
    assert Render(ls[1..]) == searched + "\n" + generated + "\n\n";
  }

  /** One more event adds its block's text. */
  lemma BlocksStep(events: seq<EventRecord>, i: nat)
    requires i < |events|
    ensures Render(Blocks(events[..i + 1], 1)) == Render(Blocks(events[..i], 1)) + Render(EventLines(i + 1, events[i]))
  {
    RenderedStep(EventLines, events, i, 1);
  }

  /** The report writer: the header, then each event's block in order. */
  method WriteReport(keywords: string, timestamp: string, events: seq<EventRecord>) returns (text: string)
    ensures text == ReportText(keywords, timestamp, events)
  {
    var header := WriteHeader(keywords, timestamp);
    var blocks := WriteBlocks(events);
    text := header + blocks;
    RenderAppend(HeaderLines(keywords, timestamp), Blocks(events, 1));
  }

  /** The four header lines, the last one empty. */
  method WriteHeader(keywords: string, timestamp: string) returns (text: string)
    ensures text == Render(HeaderLines(keywords, timestamp))
  {
    var title := "Luma SF Events Detailed Results";
    var searched := "Search keywords: " + keywords;
    var generated := "Generated on " + timestamp;
    text := title + "\n";
    text := text + searched + "\n";
    text := text + generated + "\n\n";
    HeaderText(title, searched, generated);
  }

  /** The event blocks, numbered from 1, one loop iteration per event. */
  method WriteBlocks(events: seq<EventRecord>) returns (text: string)
    ensures text == Render(Blocks(events, 1))
  {
    text := "";
    var i := 0;
    while i < |events|
      invariant 0 <= i <= |events|
      invariant text == Render(Blocks(events[..i], 1))
    {
      var block := WriteEvent(i + 1, events[i]);
      BlocksStep(events, i);
      text := text + block;
      i := i + 1;
    }
    assert events[..i] == events;
  }
}
