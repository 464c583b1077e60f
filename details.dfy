/** `extract_event_details`: the record for one event page. The title comes from the first
    title element, the speakers from the first of three speaker strategies that finds anything,
    and the summary (at most 500 characters) from the first of three summary strategies. Each
    field falls back to its default on its own, and a page that fails to load gives an error
    record. The page's answers are inputs. */
module Details {
  import opened Outcomes
  import opened Text
  import opened Locate

  /** A `find_elements` call: it raises, or returns the matched elements, and reading an
      element's `.text` may raise as well. */
  type Query = Attempt<seq<Attempt<string>>>

  datatype Speaker = Speaker(name: string, titleCompany: string)

  datatype EventRecord = EventRecord(title: string, speakers: seq<Speaker>, summary: string, url: string)

  /** What an event page answers, in the order the code asks. */
  datatype EventPage = EventPage(
    loadError: Option<string>,   // driver.get(event_url) raised with this message
    titles: Query,               // h1, or h2/div with a title class (not subtitle)
    speakersByClass: Query,      // div with a speaker or host class
    speakersAfterLabel: Query,   // div following a "Speaker"/"Host" label
    speakersByAvatar: Query,     // grandparent div of a profile or avatar image
    summaryByClass: Query,       // div with a description or summary class
    summaryAfterLabel: Query,    // div following an "About"/"Description" label
    summaryInMain: Query)        // paragraphs inside <main>

  function SpeakerStrategies(page: EventPage): seq<Query> {
    [page.speakersByClass, page.speakersAfterLabel, page.speakersByAvatar]
  }

  function SummaryStrategies(page: EventPage): seq<Query> {
    [page.summaryByClass, page.summaryAfterLabel, page.summaryInMain]
  }

  const UnknownTitle := "Unknown Title"
  const NoSummary := "No summary available"
  const ErrorTitle := "Error extracting details"
  const SummaryLimit := 500
  const Ellipsis := "..."

  /** A speaker block's stripped text: its first line is the name, and the other lines joined by
      single spaces are the title and company (`ParseSpeakerShape` states this). */
  function ParseSpeaker(text: string): Speaker {
    var lines := Split(text, '\n');
    if |lines| > 1 then Speaker(lines[0], Join(lines[1..], " ")) else Speaker(lines[0], "")
  }

  /** The name is the text up to the first line break, or all of it when there is none; the
      title and company are what follows that break, with each further break read as a space. */
  lemma ParseSpeakerShape(text: string)
    ensures var sp := ParseSpeaker(text);
      && '\n' !in sp.name
      && |sp.name| <= |text| && text[..|sp.name|] == sp.name
      && (|sp.name| == |text| ==> sp.titleCompany == "")
      && (|sp.name| < |text| ==>
            text[|sp.name|] == '\n' && sp.titleCompany == Replace(text[|sp.name| + 1..], '\n', ' '))
  {
    var lines := Split(text, '\n');
    SplitHead(text, '\n');
    if |lines| > 1 {
      JoinSplit(text[|lines[0]| + 1..], '\n', ' ');
    }
  }

  /** `summary[:497] + "..."` when the summary is longer than 500 characters. */
  function TruncateSummary(s: string): (r: string)
    ensures |r| <= SummaryLimit
    ensures |s| <= SummaryLimit <==> r == s
    ensures |s| > SummaryLimit ==>
      |r| == SummaryLimit && r[..SummaryLimit - 3] == s[..SummaryLimit - 3] && r[SummaryLimit - 3..] == Ellipsis
  {
    if |s| > SummaryLimit then s[..SummaryLimit - 3] + Ellipsis else s
  }

  /** The `.text` of the first element a query matched, when the query and the read returned. */
  function FirstText(q: Query): Option<string> {
    if q.Done? && |q.value| > 0 && q.value[0].Done? then Some(q.value[0].value) else None
  }

  function TitleOf(page: EventPage): string {
    match FirstText(page.titles)
    case None => UnknownTitle
    case Some(text) => Strip(text)
  }

  function SummaryOf(page: EventPage): string {
    match FirstText(FirstMatch(SummaryStrategies(page)))
    case None => NoSummary
    case Some(text) => TruncateSummary(Strip(text))
  }

  /** The stripped texts that are not empty, in order. */
  function NonBlank(texts: seq<string>): (r: seq<string>)
    ensures |r| <= |texts|
  {
    if texts == [] then []
    else
      var last := Strip(texts[|texts| - 1]);
      NonBlank(texts[..|texts| - 1]) + if last != [] then [last] else []
  }

  /** Each text parsed as a speaker, in order. */
  function ParseAll(texts: seq<string>): (r: seq<Speaker>)
    ensures |r| == |texts|
  {
    if texts == [] then [] else ParseAll(texts[..|texts| - 1]) + [ParseSpeaker(texts[|texts| - 1])]
  }

  /** The speakers of the first speaker strategy that matched, read in order until an element's
      text raises; elements whose text is blank are skipped. */
  function SpeakersOf(page: EventPage): seq<Speaker> {
    match FirstMatch(SpeakerStrategies(page))
    case Raised(_) => []
    case Done(elements) => ParseAll(NonBlank(Values(elements[..FirstRaised(elements)])))
  }

  /** The record `extract_event_details` returns for `url`. */
  function Details(page: EventPage, url: string): (r: EventRecord)
    ensures r.url == url
    ensures page.loadError.Some? ==>
      r == EventRecord(ErrorTitle, [], "Error: " + page.loadError.value, url)
  {
    match page.loadError
    case Some(message) => EventRecord(ErrorTitle, [], "Error: " + message, url)
    case None => EventRecord(TitleOf(page), SpeakersOf(page), SummaryOf(page), url)
  }

  // ------------------------------------------------------------------------------ lemmas

  /** A speaker parsed from non-blank stripped text has a non-empty name with no line break. */
  lemma SpeakerNameNonEmpty(text: string)
    requires text != [] && !IsSpace(text[0])
    ensures var sp := ParseSpeaker(text); sp.name != [] && '\n' !in sp.name
  {
    ParseSpeakerShape(text);
  }

  /** Two candidate ends of a first line are equal: each is a line break or the end of `text`,
      and neither has a line break before it. */
  lemma FirstBreakUnique(text: string, n: nat, m: nat)
    requires n <= |text| && '\n' !in text[..n] && (n == |text| || text[n] == '\n')
    requires m <= |text| && '\n' !in text[..m] && (m == |text| || text[m] == '\n')
    ensures n == m
  {
    if n < m {
      NoBreakBefore(text, n, m);
    } else if m < n {
      NoBreakBefore(text, m, n);
    }
  }

  lemma NoBreakBefore(text: string, i: nat, m: nat)
    requires i < m <= |text| && '\n' !in text[..m]
    ensures text[i] != '\n'
  {
    assert text[..m][i] == text[i];
  }

  /** A block of a first line `name` and further lines `rest` gives that name, and the further
      lines joined by spaces. */
  lemma ParseSpeakerLines(name: string, rest: string)
    requires '\n' !in name
    ensures ParseSpeaker(name) == Speaker(name, "")
    ensures ParseSpeaker(name + "\n" + rest) == Speaker(name, Replace(rest, '\n', ' '))
  {
    var text := name + "\n" + rest;
    ParseSpeakerShape(name);
    ParseSpeakerShape(text);
    assert text[..|name|] == name && text[|name|] == '\n';
    FirstBreakUnique(text, |ParseSpeaker(text).name|, |name|);
    assert name[..|name|] == name;
    FirstBreakUnique(name, |ParseSpeaker(name).name|, |name|);
    assert text[|name| + 1..] == rest;
  }

  /** Truncating a truncated summary changes nothing. */
  lemma TruncateIdempotent(s: string)
    ensures TruncateSummary(TruncateSummary(s)) == TruncateSummary(s)
  {
  }

  /** Counts the texts that are not all whitespace, front to back. */
  function CountNonBlank(texts: seq<string>): nat {
    if texts == [] then 0 else (if AllSpace(texts[0]) then 0 else 1) + CountNonBlank(texts[1..])
  }

  lemma {:induction false} CountNonBlankAppend(a: seq<string>, b: seq<string>)
    ensures CountNonBlank(a + b) == CountNonBlank(a) + CountNonBlank(b)
  {
    if a == [] {
      assert a + b == b;
    } else {
      assert (a + b)[1..] == a[1..] + b;
      CountNonBlankAppend(a[1..], b);
    }
  }

  lemma {:induction false} NonBlankCount(texts: seq<string>)
    ensures |NonBlank(texts)| == CountNonBlank(texts)
  {
    if texts != [] {
      var init := texts[..|texts| - 1];
      var last := texts[|texts| - 1];
      assert texts == init + [last];
      NonBlankCount(init);
      StripSpec(last);
      assert |NonBlank(texts)| == |NonBlank(init)| + if Strip(last) != [] then 1 else 0;
      CountNonBlankAppend(init, [last]);
      assert CountNonBlank([last]) == if AllSpace(last) then 0 else 1 by {
        assert [last][1..] == [];
      }
    }
  }

  /** There is one speaker per element of the winning strategy whose text is not blank, when
      every element's text could be read. */
  lemma SpeakerCount(page: EventPage)
    requires FirstMatch(SpeakerStrategies(page)).Done?
    requires var es := FirstMatch(SpeakerStrategies(page)).value; FirstRaised(es) == |es|
    ensures var es := FirstMatch(SpeakerStrategies(page)).value;
      |SpeakersOf(page)| == CountNonBlank(Values(es))
  {
    var es := FirstMatch(SpeakerStrategies(page)).value;
    assert es[..|es|] == es;
    NonBlankCount(Values(es));
  }

  /** Every kept text is non-empty and starts with a character that is not whitespace. */
  lemma {:induction false} NonBlankShape(texts: seq<string>)
    ensures forall i :: 0 <= i < |NonBlank(texts)| ==>
      NonBlank(texts)[i] != [] && !IsSpace(NonBlank(texts)[i][0])
  {
    if texts != [] {
      NonBlankShape(texts[..|texts| - 1]);
      StripSpec(texts[|texts| - 1]);
    }
  }

  lemma {:induction false} ParseAllAt(texts: seq<string>)
    ensures forall k :: 0 <= k < |texts| ==> ParseAll(texts)[k] == ParseSpeaker(texts[k])
  {
    if texts != [] {
      ParseAllAt(texts[..|texts| - 1]);
    }
  }

  /** Every speaker has a non-empty first-line name. */
  lemma SpeakersNamed(page: EventPage)
    ensures forall i :: 0 <= i < |SpeakersOf(page)| ==>
      SpeakersOf(page)[i].name != [] && '\n' !in SpeakersOf(page)[i].name
  {
    var chain := FirstMatch(SpeakerStrategies(page));
    if chain.Done? {
      var texts := NonBlank(Values(chain.value[..FirstRaised(chain.value)]));
      NonBlankShape(Values(chain.value[..FirstRaised(chain.value)]));
      ParseAllAt(texts);
      forall i | 0 <= i < |texts| ensures ParseSpeaker(texts[i]).name != [] {
        SpeakerNameNonEmpty(texts[i]);
      }
    }
  }

  /** The defaults stand only where no element text was read; a read text replaces them, even when
      it is empty after stripping. */
  lemma Defaults(page: EventPage, url: string)
    requires page.loadError.None?
    ensures var r := Details(page, url);
      && (FirstText(page.titles).None? ==> r.title == UnknownTitle)
      && (FirstText(page.titles).Some? ==> r.title == Strip(FirstText(page.titles).value))
      && (FirstText(FirstMatch(SummaryStrategies(page))).None? ==> r.summary == NoSummary)
      && (FirstText(FirstMatch(SummaryStrategies(page))).Some? ==>
            r.summary == TruncateSummary(Strip(FirstText(FirstMatch(SummaryStrategies(page))).value)))
      && |r.summary| <= SummaryLimit
  {
  }

  /** A failing lookup for one field leaves that field at its default and the others as they were. */
  lemma FaultIsolation(page: EventPage, url: string, message: string)
    requires page.loadError.None?
    ensures Details(page.(titles := Raised(message)), url) == Details(page, url).(title := UnknownTitle)
    ensures Details(page.(speakersByClass := Raised(message)), url) == Details(page, url).(speakers := [])
    ensures Details(page.(summaryByClass := Raised(message)), url) == Details(page, url).(summary := NoSummary)
  {
  }

  // ------------------------------------------------------------------------------ methods

  /** Parsing commutes with appending one text or none. */
  lemma ParseAllSnoc(before: seq<string>, text: string)
    ensures ParseAll(before + if text != [] then [text] else []) ==
      ParseAll(before) + if text != [] then [ParseSpeaker(text)] else []
  {
    if text != [] {
      assert (before + [text])[..|before|] == before;
    } else {
      assert before + [] == before;
    }
  }

  /** The speakers read from the first `i` elements, none of which raised. */
  function ReadSoFar(elements: seq<Attempt<string>>, i: nat): seq<Speaker>
    requires i <= |elements| && forall t :: 0 <= t < i ==> elements[t].Done?
  {
    ParseAll(NonBlank(Values(elements[..i])))
  }

  /** One more element read: its stripped text, when not empty, adds one parsed speaker. */
  lemma ReadStep(elements: seq<Attempt<string>>, i: nat, speakers: seq<Speaker>)
    requires i < |elements| && forall t :: 0 <= t <= i ==> elements[t].Done?
    requires speakers == ReadSoFar(elements, i)
    ensures var text := Strip(elements[i].value);
      ReadSoFar(elements, i + 1) == if text != [] then speakers + [ParseSpeaker(text)] else speakers
  {
    var vs := Values(elements[..i + 1]);
    assert vs[..i] == Values(elements[..i]) && vs[i] == elements[i].value by {
      assert elements[..i + 1][..i] == elements[..i];
    }
    var text := Strip(elements[i].value);
    assert NonBlank(vs) == NonBlank(Values(elements[..i])) + if text != [] then [text] else [];
    ParseAllSnoc(NonBlank(Values(elements[..i])), text);
    if text == [] {
      assert speakers + [] == speakers;
    }
  }

  /** The speaker loop: elements are read in order, and the first `.text` read that raises ends
      it, keeping the speakers appended before. */
  method ReadSpeakers(elements: seq<Attempt<string>>) returns (speakers: seq<Speaker>)
    ensures speakers == ParseAll(NonBlank(Values(elements[..FirstRaised(elements)])))
  {
    speakers := [];
    var i := 0;
    while i < |elements| && elements[i].Done?
      invariant 0 <= i <= |elements|
      invariant forall t :: 0 <= t < i ==> elements[t].Done?
      invariant speakers == ReadSoFar(elements, i)
    {
      ReadStep(elements, i, speakers);
      var text := Strip(elements[i].value);
      if text != [] {
        speakers := speakers + [ParseSpeaker(text)];
      }
      i := i + 1;
    }
    FirstRaisedAt(elements, i);
  }

  /** `extract_event_details`, with its reassigned defaults and its speaker loop. */
  method ExtractEventDetails(page: EventPage, url: string) returns (record: EventRecord)
    ensures record == Details(page, url)
  {
    if page.loadError.Some? {
      return EventRecord(ErrorTitle, [], "Error: " + page.loadError.value, url);
    }

    var title := UnknownTitle;
    if page.titles.Done? && |page.titles.value| > 0 && page.titles.value[0].Done? {
      title := Strip(page.titles.value[0].value);
    }

    var speakers: seq<Speaker> := [];
    var found := FirstMatch(SpeakerStrategies(page));
    if found.Done? {
      speakers := ReadSpeakers(found.value);
    }

    var summary := NoSummary;
    var matched := FirstMatch(SummaryStrategies(page));
    if matched.Done? && |matched.value| > 0 && matched.value[0].Done? {
      summary := Strip(matched.value[0].value);
      if |summary| > SummaryLimit {
        summary := summary[..SummaryLimit - 3] + Ellipsis;
      }
    }

    return EventRecord(title, speakers, summary, url);
  }
}
