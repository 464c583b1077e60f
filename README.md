# Luma event scrapers: a verified model of the deterministic core

`luma_sf_events_detailed.py` drives a browser through Luma's San Francisco page:
- it starts a keyword search;
- it collects up to `max_events` event links from the results;
- it opens each event and extracts a record (title, speakers, summary, URL);
- it writes a plain-text report.

`simple_luma_scraper.py` opens the discover page and prints the title and URL of the first five events.

This project models the logic between the browser calls. Every browser answer is data:
- the elements a selector returns;
- their `.text` and `href`;
- whether a call raised.

An answer is an `Attempt` (`Done(value)` or `Raised(message)`), and a missing attribute is `Option.None`.

The modules follow the program:
- `Outcomes`: Python's `None`, and calls that return or raise.
- `Text`: `strip()`, `split`, `join`, `replace`, the `in` test, ASCII `lower()`, and decimal `int` rendering.
- `Lines`: text written line by line, and numbered blocks.
- `Locate`: the `if not elements: elements = find_elements(...)` fallback chain.
- `Search`: `search_for_events`.
- `Harvest`: `find_event_links`.
- `Details`: `extract_event_details`.
- `Report`: the report file and its default name.
- `Pipeline`: `main` of the detailed scraper.
- `Discover`: `main` of the simple scraper.

Where the source changes state step by step, the model is a method with a loop, proved equal to a specification function. This covers the three harvest passes, the speaker loop, the extraction loop, the report writer and the discover loop. Lemmas then state the properties about those functions.

Two behaviours of the code are worth stating on their own:

- **A raising lookup ends a fallback chain.** The strategies of one chain sit in a single `try` block. So a lookup that raises ends the chain with that exception, and the later strategies are not tried (`Locate.FirstMatch`, `Locate.LaterStrategiesIgnored`).
- **Pass one keeps duplicates.** Pass one of the harvest has no duplicate check, so the list can repeat a URL (`Harvest.CardDuplicatesKept`). The list is duplicate-free exactly when pass one's links are (`Harvest.HarvestDistinct`).

## Model

| member | source | states |
|---|---|---|
| Locate.FirstMatch | luma_sf_events_detailed.py:86-102 | the chain's result is the first strategy that finds something or raises; when every strategy finds nothing, it is the empty list |
| Locate.LaterStrategiesIgnored | luma_sf_events_detailed.py:86-102 | once a strategy has found elements or raised, strategies appended after it do not change the result |
| Locate.MissesSkipped | luma_sf_events_detailed.py:86-102 | strategies that find nothing are passed over, so the chain continues with the ones after them |
| Search.UrlKeywords | luma_sf_events_detailed.py:172 | same length as the keywords; each `,` and ` ` becomes `+` and every other character is kept |
| Search.DirectSearchUrlShape | luma_sf_events_detailed.py:172-175 | for any keywords, the URL is `https://lu.ma/search?q=` + `UrlKeywords(keywords)` + `&filter=sf`, with that exact length |
| Search.DirectSearchUrlKeywords | luma_sf_events_detailed.py:172-175 | for keywords without `+`, reading each `+` of the URL's query back as a space gives the keywords with `,` as space |
| Search.SearchForEvents | luma_sf_events_detailed.py:58-189 | success iff a route gets through; a button found: success iff it clicks and the input appears and takes the keywords; no button and a working input: the input route; a raising button query, or no button and no working input: the URL route; an unopened page: failure; the button and input routes type the keywords as given |
| Harvest.CollectCardLinks | luma_sf_events_detailed.py:225-238 | pass one's loop collects the first `max_events` accepted card links, skipping a card whose lookup raised |
| Harvest.CollectEventAnchors | luma_sf_events_detailed.py:240-258 | pass two's loop leaves exactly the stage `PassTwo` defines: new URLs until the bound, and at a raising read the links so far with the harvest ended |
| Harvest.CollectAllAnchors | luma_sf_events_detailed.py:260-278 | pass three's loop leaves exactly the stage `PassThree` defines: accepted new URLs until the bound, and at a raising read the links so far |
| Harvest.FindEventLinks | luma_sf_events_detailed.py:191-290 | the returned list is `Harvest(page, max_events)`, the three passes in order |
| Harvest.HarvestAppendOnly | luma_sf_events_detailed.py:218-278 | pass one's links are a prefix of the list after pass two, which is a prefix of the result; pass one keeps the first accepted card links |
| Harvest.HarvestBounded | luma_sf_events_detailed.py:218-278 | the result has at most `max_events` links, and none when `max_events <= 0` |
| Harvest.AppendFresh | luma_sf_events_detailed.py:250-257 | appending the not-yet-collected URLs keeps the list free of repeats from a given position on |
| Harvest.HarvestFreshAfterCards | luma_sf_events_detailed.py:240-278 | no link added by passes two or three repeats an earlier link |
| Harvest.HarvestDistinct | luma_sf_events_detailed.py:218-278 | the whole list is duplicate-free if and only if pass one's links are |
| Harvest.CardDuplicatesKept | luma_sf_events_detailed.py:225-236 | two cards linking to the same event give that URL twice |
| Harvest.NewLinksComplete | luma_sf_events_detailed.py:250-257 | the skip-if-present loop adds exactly the candidate URLs not already held |
| Harvest.PassTwoEventLinks | luma_sf_events_detailed.py:240-258 | pass two adds only event links when its anchors carry an event-path marker |
| Harvest.PassThreeEventLinks | luma_sf_events_detailed.py:260-278 | pass three adds only non-empty hrefs holding `/events/` or `/e/` |
| Harvest.HarvestEventLinks | luma_sf_events_detailed.py:218-278 | every harvested URL holds `/events/` or `/e/` when pass two's anchors do |
| Details.ParseSpeakerShape | luma_sf_events_detailed.py:347-349 | the name is the text up to the first line break; the title and company are the rest with each further break read as one space, or empty for a single line |
| Details.ParseSpeakerLines | luma_sf_events_detailed.py:347-349 | a one-line text is `Speaker(text, "")`, and `name + "\n" + rest` is `Speaker(name, rest with breaks as spaces)` |
| Details.SpeakerNameNonEmpty | luma_sf_events_detailed.py:344-349 | a stripped, non-empty speaker text gives a non-empty name |
| Details.TruncateSummary | luma_sf_events_detailed.py:380-381 | at most 500 characters; unchanged iff at most 500 long; a longer one becomes its first 497 characters plus `...`, exactly 500 |
| Details.TruncateIdempotent | luma_sf_events_detailed.py:380-381 | truncating a truncated summary changes nothing |
| Details.NonBlankCount | luma_sf_events_detailed.py:343-345 | the texts kept are counted by an independent front-to-back count of non-blank texts |
| Details.SpeakerCount | luma_sf_events_detailed.py:329-356 | when every element's text reads, the number of speakers is the number of elements whose stripped text is non-empty |
| Details.SpeakersNamed | luma_sf_events_detailed.py:343-352 | every speaker's name is non-empty and holds no line break |
| Details.Defaults | luma_sf_events_detailed.py:319-381 | "Unknown Title" / "No summary available" when no first element was read; otherwise the stripped text (the summary truncated), `""` included |
| Details.FaultIsolation | luma_sf_events_detailed.py:319-384 | a raising title, speaker or summary lookup resets only that field to its default |
| Details.Details | luma_sf_events_detailed.py:386-400 | the record's URL is the input URL; a failed page load gives "Error extracting details", no speakers and "Error: " + the message |
| Details.ReadSpeakers | luma_sf_events_detailed.py:343-356 | the speaker loop yields the parsed non-blank texts of the elements read before the first `.text` that raises |
| Details.ExtractEventDetails | luma_sf_events_detailed.py:292-400 | the method's record is `Details(page, url)` |
| Report.Slug | luma_sf_events_detailed.py:409 | same length; `,` and ` ` become `_`, capitals are lowered, everything else is kept; no `,`, space or capital remains |
| Report.OutputPath | luma_sf_events_detailed.py:408-410 | a given non-empty path is used; otherwise `sf_events_detailed_` + slug + `.txt` |
| Report.DefaultPathShape | luma_sf_events_detailed.py:408-410 | the default path is exactly prefix, slug of the keywords, suffix |
| Report.SpeakerLineShape | luma_sf_events_detailed.py:482-485 | `  - name`, with `, title_company` appended exactly when it is non-empty |
| Report.EventBlockShape | luma_sf_events_detailed.py:473-492 | a block has 6 + k lines: `Event n:`, `Title:`, the speaker section, `Summary:`, `URL:`, a blank line |
| Report.BlockAt | luma_sf_events_detailed.py:473-492 | event i's block, numbered i + 1, follows the blocks of the events before it |
| Report.ReportLength | luma_sf_events_detailed.py:468-492 | the report has 4 header lines plus 6 per event plus 1 per speaker |
| Report.ReportReadsBack | luma_sf_events_detailed.py:468-492 | when no field holds a line break, splitting the text at breaks gives back the lines |
| Report.WriteSpeakers | luma_sf_events_detailed.py:478-487 | the speaker writes produce the rendered speaker section |
| Report.WriteEvent | luma_sf_events_detailed.py:473-492 | one event's writes produce its rendered block |
| Report.WriteReport | luma_sf_events_detailed.py:468-492 | the file's text is the rendered header followed by every block in order |
| Pipeline.Records | luma_sf_events_detailed.py:456-463 | one record per link, in order, each the extraction of that link's page |
| Pipeline.ExtractAll | luma_sf_events_detailed.py:456-463 | the extraction loop yields `Records(pageAt, links)` |
| Pipeline.RunScraper | luma_sf_events_detailed.py:402-519 | exit 0 iff the browser starts, the search succeeds, a link is found and the file is written; otherwise 1; no record or file before links exist; one record per harvested link in order; the file holds the report text at the output path |
| Discover.Capped | simple_luma_scraper.py:68 | the first `min(5, n)` of the n elements found: a prefix of exactly that length |
| Discover.AlternativeOnlyWhenEmpty | simple_luma_scraper.py:57-62 | the `/event/` anchor selector is used exactly when the card selector found none |
| Discover.EntriesAppend | simple_luma_scraper.py:67-90 | reading a list in two parts gives the two parts' entries one after another |
| Discover.FailedSkipped | simple_luma_scraper.py:88-90 | an element whose lookup raised adds nothing, and the elements after it are still read |
| Discover.EntriesCount | simple_luma_scraper.py:67-90 | the number of entries is the number of elements read without a raise |
| Discover.EntriesFromListings | simple_luma_scraper.py:67-84 | every entry is the reading of one of the elements |
| Discover.ListedFields | simple_luma_scraper.py:70-78 | the title is the stripped text; the URL is the element's href when truthy, otherwise the first anchor's href |
| Discover.ReadEntries | simple_luma_scraper.py:67-90 | the loop yields the entries of the first five elements, at most five |
| Discover.SummaryLength | simple_luma_scraper.py:93-98 | the summary has 3 lines plus 3 per event |
| Discover.EntryAt | simple_luma_scraper.py:95-98 | event i is printed as number i + 1, after the lines of the events before it |
| Discover.SummaryReadsBack | simple_luma_scraper.py:93-98 | when no title or URL holds a line break, the printed text splits back into its lines |
| Discover.PrintSummary | simple_luma_scraper.py:93-98 | the prints produce the rendered summary |
| Discover.DiscoverEvents | simple_luma_scraper.py:27-104 | 0 iff the browser, the page, the heading wait and the selector lookup succeed; then the entries of the first five found elements and their summary; otherwise 1 and nothing printed |
| Text.StripSpec | luma_sf_events_detailed.py:324 | `strip()` removes a whitespace prefix and suffix; the result is empty iff the text is all whitespace; otherwise it starts and ends with a non-space |
| Text.SplitJoinRoundTrip | luma_sf_events_detailed.py:347-349 | joining the parts of a split with the separator gives back the text |
| Text.JoinSplit | luma_sf_events_detailed.py:347-349 | joining the parts with another character is replacing the separator with it |
| Text.ContainsAt | luma_sf_events_detailed.py:274 | the `in` test holds exactly when the substring occurs at some position of the text |
| Text.NatToString | luma_sf_events_detailed.py:474 | the decimal digits of the number, with no leading zero |
| Lines.SplitRender | luma_sf_events_detailed.py:468-492 | lines without breaks, written one per line, split back into those lines and one empty part |
| Lines.NumberedAt | luma_sf_events_detailed.py:473-492 | in numbered blocks, element i's block numbered `first + i` comes right after the blocks before it |

## Left out

- Selenium: driver construction, options, `implicitly_wait`, XPath evaluation and `driver.quit()`. Their answers are inputs: `Site`, `LandingPage`, `ResultsPage`, `EventPage` and `DiscoverPage`.
- Sleeps and `WebDriverWait`: a wait is modelled only by whether the element appears.
- Screenshots and their file names (`event_url.split("/")[-1]`): screenshots are taken as switched off. With `--screenshots` on, a `save_screenshot` call that raises changes the result (the search fails or falls through to the direct URL, the harvest returns `[]`, or the error record comes back); that case is not modelled.
- Logging: it does not affect any result.
- Command-line parsing (`parse_arguments`): the keywords, `max_events` and the output path are parameters.
- File I/O and `datetime.now()`:
  - the timestamp is a parameter;
  - the file's contents are the report string;
  - whether the file can be written is a boolean;
  - a write that fails part-way is not modelled.
- Printing is modelled as the text printed.
- Exception classes: each raise is `Raised(message)`. `main` treats `WebDriverException` and other exceptions alike, returning 1.
- Pipeline.Site: each event URL is assumed to show the same page every time it is visited, so a URL that pass one collected twice gives two equal records.
- Report.Slug: `lower()` is modelled on ASCII letters only; Unicode case mapping is not modelled.
- Text.IsSpace: the whitespace `strip()` removes is the fixed list of Python's `str.isspace()` code points.
- Details.ParseSpeaker: the `"Unknown"` fallback for an empty split is not modelled, because `split` never returns an empty list.
- Harvest.ResultsPage: a pass-two anchor's href is modelled as a string. Its selector requires an href that holds an event-path marker, and `HarvestEventLinks` assumes that marker rather than checking it.
- Discover.DiscoverEvents: returns `main`'s value. The module ends with a bare `main()` call, not `sys.exit(main())`, so this value is not the process's exit status.
