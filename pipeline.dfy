/** `main` of the detailed scraper: work out the output path, start the browser, search, harvest
    the event links, extract one record per link, and write the report. The browser session and
    the output file are given as what they answer; the exit code is `main`'s return value. */
module Pipeline {
  import opened Outcomes
  import opened Text
  import opened Search
  import opened Harvest
  import opened Details
  import opened Report
  import opened Lines

  /** One run's environment. Each event URL is taken to show the same page every time it is
      visited. */
  datatype Site = Site(
    driverStarts: bool,              // webdriver.Chrome(...) and implicitly_wait return
    landing: LandingPage,            // what search_for_events sees
    results: ResultsPage,            // what find_event_links sees after the search
    pageAt: string -> EventPage,     // what extract_event_details sees at each URL
    outputWritable: bool)            // open(args.output, 'w') and the writes return

  /** The file the run leaves behind. */
  datatype Saved = Saved(path: string, text: string)

  /** The records for `links`, in order: `extract_event_details` on each. */
  function Records(pageAt: string -> EventPage, links: seq<string>): (r: seq<EventRecord>)
    ensures |r| == |links|
    ensures forall i :: 0 <= i < |r| ==> r[i] == Details.Details(pageAt(links[i]), links[i])
  {
    if links == [] then []
    else Records(pageAt, links[..|links| - 1]) + [Details.Details(pageAt(links[|links| - 1]), links[|links| - 1])]
  }

  /** The run gets as far as extracting details: the browser starts, the search goes through, and
      at least one link is found. */
  ghost predicate Extracts(site: Site, maxEvents: int) {
    site.driverStarts && SearchSucceeds(site.landing) && |Harvest.Harvest(site.results, maxEvents)| > 0
  }

  /** The lines printed after a successful run. */
  function ConsoleLines(keywords: string, count: nat, path: string): seq<string> {
    ["", "Luma SF Event Scraping Completed Successfully", "Search keywords: " + keywords,
     "Total events processed: " + NatToString(count), "Events saved to: " + path]
  }

  lemma RecordsStep(pageAt: string -> EventPage, links: seq<string>, i: nat)
    requires i < |links|
    ensures Records(pageAt, links[..i + 1]) == Records(pageAt, links[..i]) + [Details.Details(pageAt(links[i]), links[i])]
  {
    TakeSnoc(links, i);
  }

  /** The extraction loop: one record per link, appended in link order. */
  method ExtractAll(pageAt: string -> EventPage, links: seq<string>) returns (events: seq<EventRecord>)
    ensures events == Records(pageAt, links)
  {
    events := [];
    var i := 0;
    while i < |links|
      invariant 0 <= i <= |links|
      invariant events == Records(pageAt, links[..i])
    {
      var record := ExtractEventDetails(pageAt(links[i]), links[i]);
      RecordsStep(pageAt, links, i);
      events := events + [record];
      i := i + 1;
    }
    assert links[..i] == links;
  }

  /** `main`: exit code 0 exactly when every stage succeeds; the records, the file and the printed
      lines are those of the stages that ran. */
  method RunScraper(site: Site, keywords: string, maxEvents: int, output: Option<string>, timestamp: string)
    returns (exitCode: int, events: seq<EventRecord>, saved: Option<Saved>, console: string)
    ensures exitCode == 0 || exitCode == 1
    ensures exitCode == 0 <==> Extracts(site, maxEvents) && site.outputWritable
    // a browser that does not start, a failed search or an empty harvest ends the run before any
    // event page is visited
    ensures !Extracts(site, maxEvents) ==> events == [] && saved == None
    // one record per link, in link order
    ensures Extracts(site, maxEvents) ==> events == Records(site.pageAt, Harvest.Harvest(site.results, maxEvents))
    ensures forall i :: 0 <= i < |events| ==> events[i].url == Harvest.Harvest(site.results, maxEvents)[i]
    ensures saved == if exitCode == 0
                     then Some(Saved(OutputPath(keywords, output), ReportText(keywords, timestamp, events)))
                     else None
    ensures console == if exitCode == 0 then Render(ConsoleLines(keywords, |events|, OutputPath(keywords, output))) else ""
  {
    var path := OutputPath(keywords, output);
    events, saved, console := [], None, "";
    if !site.driverStarts {
      return 1, events, saved, console;
    }
    var searched, _ := SearchForEvents(site.landing, keywords);
    if !searched {
      return 1, events, saved, console;
    }
    var links := FindEventLinks(site.results, maxEvents);
    if |links| == 0 {
      return 1, events, saved, console;
    }
    events := ExtractAll(site.pageAt, links);
    if !site.outputWritable {
      return 1, events, saved, console;
    }
    var text := WriteReport(keywords, timestamp, events);
    saved := Some(Saved(path, text));
    console := Render(ConsoleLines(keywords, |events|, path));
    return 0, events, saved, console;
  }
}
