/** `main` of the simple scraper: open the discover page, find the event elements (event cards,
    or failing those, anchors to an event), read a title and a URL from each of the first five,
    and print a summary. What the browser answers is a parameter; the exit code is `main`'s return
    value. */
module Discover {
  import opened Outcomes
  import opened Text
  import opened Locate
  import opened Lines

  /** One found element, as the loop body reads it. */
  datatype Listing = Listing(
    title: Attempt<string>,              // the .text of its first h2, h3 or title div
    href: Attempt<Option<string>>,       // element.get_attribute("href")
    anchorHref: Attempt<Option<string>>) // the href of its first descendant anchor

  /** What the discover page answers, in the order the code asks. */
  datatype DiscoverPage = DiscoverPage(
    driverStarts: bool,                  // webdriver.Chrome(...) returns
    opens: bool,                         // driver.get("https://lu.ma/discover") returns
    headingAppears: bool,                // the wait for the Discover or Events heading succeeds
    cards: Attempt<seq<Listing>>,        // the event-card selector
    eventAnchors: Attempt<seq<Listing>>) // the alternative: anchors whose href holds "/event/"

  /** An event as the summary lists it. */
  datatype Entry = Entry(title: string, url: Option<string>)

  /** Only the first five found elements are read. */
  const Limit := 5

  /** Python truth of an attribute value: neither None nor empty. */
  predicate Truthy(url: Option<string>) {
    url.Some? && url.value != ""
  }

  /** The elements found: the alternative selector runs only when the cards selector finds none. */
  function Found(page: DiscoverPage): Attempt<seq<Listing>> {
    FirstMatch([page.cards, page.eventAnchors])
  }

  /** `event_elements[:5]`. */
  function Capped(listings: seq<Listing>): (r: seq<Listing>)
    ensures |r| == if |listings| <= Limit then |listings| else Limit
    ensures r <= listings
    ensures |listings| <= Limit ==> r == listings
  {
    if |listings| <= Limit then listings else listings[..Limit]
  }

  /** The loop body on one element: its entry, or None when a lookup raised and the element was
      skipped. The URL is the element's own href when truthy, else its first anchor's. */
  function Listed(l: Listing): Option<Entry> {
    if l.title.Raised? || l.href.Raised? then None
    else if Truthy(l.href.value) then Some(Entry(Strip(l.title.value), l.href.value))
    else if l.anchorHref.Raised? then None
    else Some(Entry(Strip(l.title.value), l.anchorHref.value))
  }

  function AsSeq(o: Option<Entry>): seq<Entry> {
    if o.Some? then [o.value] else []
  }

  /** The entries the loop appends, in element order. */
  function Entries(listings: seq<Listing>): (r: seq<Entry>)
    ensures |r| <= |listings|
  {
    if listings == [] then []
    else Entries(listings[..|listings| - 1]) + AsSeq(Listed(listings[|listings| - 1]))
  }

  /** How many elements are read without a lookup raising, counted from the front. */
  function ReadCount(listings: seq<Listing>): nat {
    if listings == [] then 0 else (if Listed(listings[0]).Some? then 1 else 0) + ReadCount(listings[1..])
  }

  // ------------------------------------------------------------------------ the printed summary

  /** `str(url)` for what `get_attribute` gives back. */
  function UrlText(url: Option<string>): string {
    if url.Some? then url.value else "None"
  }

  /** The lines printed for the `n`-th event, numbered from 1. */
  function EntryLines(n: nat, e: Entry): seq<string> {
    [NatToString(n) + ". " + e.title, "   URL: " + UrlText(e.url), ""]
  }

  function SummaryHead(count: nat): seq<string> {
    ["", "Luma Events Summary:", "Total events found: " + NatToString(count)]
  }

  function SummaryLines(events: seq<Entry>): seq<string> {
    SummaryHead(|events|) + Numbered(EntryLines, events, 1)
  }

  function SummaryText(events: seq<Entry>): string {
    Render(SummaryLines(events))
  }

  // ------------------------------------------------------------------------------ lemmas

  /** The alternative selector is consulted only when the cards selector ran and found nothing. */
  lemma AlternativeOnlyWhenEmpty(page: DiscoverPage)
    ensures Misses(page.cards) ==> Found(page) == page.eventAnchors
    ensures !Misses(page.cards) ==> Found(page) == page.cards
  {
    var qs := [page.cards, page.eventAnchors];
    if Misses(page.cards) {
      assert qs[1..] == [page.eventAnchors];
      assert [page.eventAnchors][1..] == [];
    }
  }

  /** Reading a list in two parts reads each part on its own. */
  lemma {:induction false} EntriesAppend(a: seq<Listing>, b: seq<Listing>)
    ensures Entries(a + b) == Entries(a) + Entries(b)
    decreases |b|
  {
    if b == [] {
      assert a + b == a;
    } else {
      var init := b[..|b| - 1];
      assert (a + b)[..|a + b| - 1] == a + init;
      assert (a + b)[|a + b| - 1] == b[|b| - 1];
      EntriesAppend(a, init);
    }
  }

  /** An element whose lookup raised is skipped, and the elements after it are still read. */
  lemma FailedSkipped(before: seq<Listing>, l: Listing, after: seq<Listing>)
    requires Listed(l).None?
    ensures Entries(before + [l] + after) == Entries(before) + Entries(after)
  {
    assert Entries([l]) == [] by {
      assert [l][..0] == [];
      assert Entries([l]) == Entries([]) + AsSeq(Listed(l));
    }
    EntriesAppend(before, [l]);
    assert Entries(before + [l]) == Entries(before);
    EntriesAppend(before + [l], after);
  }

  /** The count of entries is the count of elements read without a raise. */
  lemma {:induction false} EntriesCount(listings: seq<Listing>)
    ensures |Entries(listings)| == ReadCount(listings)
  {
    if listings != [] {
      EntriesCount(listings[1..]);
      assert listings == [listings[0]] + listings[1..];
      EntriesAppend([listings[0]], listings[1..]);
      assert [listings[0]][..0] == [];
    }
  }

  /** Every entry comes from one of the elements, with that element's stripped title. */
  lemma {:induction false} EntriesFromListings(listings: seq<Listing>)
    ensures forall e :: e in Entries(listings) ==>
      exists i :: 0 <= i < |listings| && Listed(listings[i]) == Some(e)
  {
    if listings != [] {
      var init := listings[..|listings| - 1];
      EntriesFromListings(init);
      forall e | e in Entries(listings)
        ensures exists i :: 0 <= i < |listings| && Listed(listings[i]) == Some(e)
      {
        if e in Entries(init) {
          var i :| 0 <= i < |init| && Listed(init[i]) == Some(e);
          assert listings[i] == init[i];
        } else {
          assert Listed(listings[|listings| - 1]) == Some(e);
        }
      }
    }
  }

  /** An entry's URL is the element's own href when truthy, and the title is stripped. */
  lemma ListedFields(l: Listing)
    requires Listed(l).Some?
    ensures Listed(l).value.title == Strip(l.title.value)
    ensures Truthy(l.href.value) ==> Listed(l).value.url == l.href.value
    ensures !Truthy(l.href.value) ==> l.anchorHref.Done? && Listed(l).value.url == l.anchorHref.value
    ensures Listed(l).value.title == [] || !IsSpace(Listed(l).value.title[0])
  {
    StripSpec(l.title.value);
  }

  lemma {:induction false} NumberedLength(events: seq<Entry>, first: nat)
    ensures |Numbered(EntryLines, events, first)| == 3 * |events|
  {
    if events != [] {
      NumberedLength(events[..|events| - 1], first);
    }
  }

  /** The summary has three lines, then three per event. */
  lemma SummaryLength(events: seq<Entry>)
    ensures |SummaryLines(events)| == 3 + 3 * |events|
  {
    NumberedLength(events, 1);
  }

  /** Event `i` is listed as number `i + 1`, after the lines of the events before it. */
  lemma EntryAt(events: seq<Entry>, i: nat)
    requires i < |events|
    ensures Placed(Numbered(EntryLines, events, 1), 3 * i, EntryLines(i + 1, events[i]))
  {
    NumberedAt(EntryLines, events, 1, i);
    NumberedLength(events[..i], 1);
  }

  /** When no title or URL holds a line break, the printed text splits back into its lines. */
  lemma SummaryReadsBack(events: seq<Entry>)
    requires forall i :: 0 <= i < |SummaryLines(events)| ==> '\n' !in SummaryLines(events)[i]
    ensures Split(SummaryText(events), '\n') == SummaryLines(events) + [""]
  {
    SplitRender(SummaryLines(events));
  }

  lemma EntriesStep(listings: seq<Listing>, i: nat)
    requires i < |listings|
    ensures Entries(listings[..i + 1]) == Entries(listings[..i]) + AsSeq(Listed(listings[i]))
  {
    TakeSnoc(listings, i);
  }

  // ------------------------------------------------------------------------------ methods

  /** The loop over the first five elements: a lookup that raises skips that element only. */
  method ReadEntries(listings: seq<Listing>) returns (events: seq<Entry>)
    ensures events == Entries(Capped(listings))
    ensures |events| <= Limit
  {
    var batch := Capped(listings);
    events := [];
    var i := 0;
    while i < |batch|
      invariant 0 <= i <= |batch|
      invariant events == Entries(batch[..i])
    {
      var l := batch[i];
      EntriesStep(batch, i);
      i := i + 1;
      if l.title.Raised? {
        continue;
      }
      var title := Strip(l.title.value);
      if l.href.Raised? {
        continue;
      }
      var url := l.href.value;
      if !Truthy(url) {
        if l.anchorHref.Raised? {
          continue;
        }
        url := l.anchorHref.value;
      }
      events := events + [Entry(title, url)];
    }
    assert batch[..i] == batch;
  }

  lemma HeadText(count: nat)
    ensures Render(SummaryHead(count)) ==
      "\n" + "Luma Events Summary:" + "\n" + "Total events found: " + NatToString(count) + "\n"
  {
    var ls := SummaryHead(count);
    RenderOne(ls[2]);
    assert ls[1..][1..] == [ls[2]];
  }

  method PrintEntry(n: nat, e: Entry) returns (text: string)
    ensures text == Render(EntryLines(n, e))
  {
    var first := NatToString(n) + ". " + e.title;
    var second := "   URL: " + UrlText(e.url);
    text := first + "\n" + second + "\n" + "\n";
    var ls := EntryLines(n, e);
    RenderOne("");
    assert ls[1..][1..] == [""];
  }

  method PrintEntries(events: seq<Entry>) returns (text: string)
    ensures text == Render(Numbered(EntryLines, events, 1))
  {
    text := "";
    var i := 0;
    while i < |events|
      invariant 0 <= i <= |events|
      invariant text == Render(Numbered(EntryLines, events[..i], 1))
    {
      var lines := PrintEntry(i + 1, events[i]);
      RenderedStep(EntryLines, events, i, 1);
      text := text + lines;
      i := i + 1;
    }
    assert events[..i] == events;
  }

  /** The summary `main` prints: a heading, the count, then each event's number, title and URL. */
  method PrintSummary(events: seq<Entry>) returns (text: string)
    ensures text == SummaryText(events)
  {
    text := "\n" + "Luma Events Summary:" + "\n";
    text := text + "Total events found: " + NatToString(|events|) + "\n";
    HeadText(|events|);
    var rest := PrintEntries(events);
    text := text + rest;
    RenderAppend(SummaryHead(|events|), Numbered(EntryLines, events, 1));
  }

  /** `main`: 0 once the summary is printed; 1 when the browser, the page, the heading wait or a
      selector lookup raised, with nothing printed. */
  method DiscoverEvents(page: DiscoverPage) returns (exitCode: int, events: seq<Entry>, printed: string)
    ensures exitCode == 0 <==> page.driverStarts && page.opens && page.headingAppears && Found(page).Done?
    ensures exitCode == 0 || exitCode == 1
    ensures exitCode == 0 ==> events == Entries(Capped(Found(page).value)) && printed == SummaryText(events)
    ensures exitCode == 1 ==> events == [] && printed == ""
    ensures |events| <= Limit
  {
    events, printed := [], "";
    if !page.driverStarts || !page.opens || !page.headingAppears {
      return 1, events, printed;
    }
    var found := page.cards;
    if found.Done? && |found.value| == 0 {
      found := page.eventAnchors;
    }
    AlternativeOnlyWhenEmpty(page);
    if found.Raised? {
      return 1, events, printed;
    }
    events := ReadEntries(found.value);
    printed := PrintSummary(events);
    return 0, events, printed;
  }
}
