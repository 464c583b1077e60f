/** `search_for_events`: how the detailed scraper starts a keyword search on the San Francisco
    landing page. It clicks a search button and types into the input that appears, or types into
    an input it finds directly, or, failing both, navigates to a search URL built from the
    keywords. The page's answers to each lookup are inputs. */
module Search {
  import opened Outcomes
  import opened Text
  import opened Locate

  /** A button or input on the page; `operable` says whether clicking it, clearing it and typing
      into it all return (false: one of them raises). */
  datatype Control = Control(operable: bool)

  /** What the landing page answers, in the order the code asks. */
  datatype LandingPage = LandingPage(
    opens: bool,                              // driver.get("https://lu.ma/sf") returns
    byAriaLabel: Attempt<seq<Control>>,        // first button strategy: aria-label mentions search
    byClassOrIcon: Attempt<seq<Control>>,      // second: a search class on the button or an <i>
    bySvgIcon: Attempt<seq<Control>>,          // third: an <svg> with a search class
    byText: Attempt<seq<Control>>,             // fourth: the visible text "Search"
    inputs: Attempt<seq<Control>>,             // search inputs found without clicking a button
    inputAfterClick: Option<Control>,          // the input the bounded wait finds (None: timeout)
    searchUrlOpens: bool)                      // driver.get(<direct search URL>) returns

  /** The four button strategies, most specific first. */
  function ButtonStrategies(page: LandingPage): seq<Attempt<seq<Control>>> {
    [page.byAriaLabel, page.byClassOrIcon, page.bySvgIcon, page.byText]
  }

  /** How a search was started, or that none was. */
  datatype Route = ThroughButton(typed: string) | ThroughInput(typed: string) | ThroughUrl(url: string) | NoRoute

  const SearchPrefix := "https://lu.ma/search?q="
  const SfFilter := "&filter=sf"

  /** `keywords.replace(',', '+').replace(' ', '+')`. */
  function UrlKeywords(keywords: string): (r: string)
    ensures |r| == |keywords|
    ensures forall i :: 0 <= i < |r| ==>
      r[i] == if keywords[i] == ',' || keywords[i] == ' ' then '+' else keywords[i]
    ensures ',' !in r && ' ' !in r
  {
    Replace(Replace(keywords, ',', '+'), ' ', '+')
  }

  /** The direct search URL with the keywords in the query and the San Francisco filter. */
  function DirectSearchUrl(keywords: string): string {
    SearchPrefix + UrlKeywords(keywords) + SfFilter
  }

  /** For any keywords, the URL is the search prefix, the substituted keywords and the filter. */
  lemma DirectSearchUrlShape(keywords: string)
    ensures var url := DirectSearchUrl(keywords);
      && |url| == |SearchPrefix| + |keywords| + |SfFilter|
      && url[..|SearchPrefix|] == SearchPrefix
      && url[|SearchPrefix|..|url| - |SfFilter|] == UrlKeywords(keywords)
      && url[|url| - |SfFilter|..] == SfFilter
  {
  }

  /** The URL gives the keyword string back, up to the difference between `,`, ` ` and `+`:
      reading each `+` as a space undoes the substitution when the keywords held no `+`. */
  lemma DirectSearchUrlKeywords(keywords: string)
    requires '+' !in keywords
    ensures var url := DirectSearchUrl(keywords);
      Replace(url[|SearchPrefix|..|url| - |SfFilter|], '+', ' ') == Replace(keywords, ',', ' ')
  {
    DirectSearchUrlShape(keywords);
  }

  /** The search succeeds: the page opens and the chosen route gets through. */
  ghost predicate SearchSucceeds(page: LandingPage) {
    page.opens &&
    match FirstMatch(ButtonStrategies(page))
    case Raised(_) => page.searchUrlOpens
    case Done(buttons) =>
      if |buttons| > 0 then
        buttons[0].operable && page.inputAfterClick.Some? && page.inputAfterClick.value.operable
      else
        DirectInputWorks(page) || page.searchUrlOpens
  }

  /** A search input was found without a button, and typing into it did not raise. */
  predicate DirectInputWorks(page: LandingPage) {
    page.inputs.Done? && |page.inputs.value| > 0 && page.inputs.value[0].operable
  }

  /** The decision order of `search_for_events`. */
  method SearchForEvents(page: LandingPage, keywords: string) returns (ok: bool, route: Route)
    ensures ok <==> route != NoRoute
    // whichever input is used, the keywords are typed into it as given
    ensures (route.ThroughButton? || route.ThroughInput?) ==> route.typed == keywords
    ensures ok == SearchSucceeds(page)
    // the landing page did not open: the outer handler returns False
    ensures !page.opens ==> route == NoRoute
    // a button was found: click it, wait for the input; a timeout is a failure
    ensures page.opens && FirstMatch(ButtonStrategies(page)).Done? && |FirstMatch(ButtonStrategies(page)).value| > 0 ==>
      route == if FirstMatch(ButtonStrategies(page)).value[0].operable
                  && page.inputAfterClick.Some? && page.inputAfterClick.value.operable
               then ThroughButton(keywords) else NoRoute
    // no button at all: a working direct input returns True before the URL fallback
    ensures page.opens && Misses(FirstMatch(ButtonStrategies(page))) && DirectInputWorks(page) ==>
      route == ThroughInput(keywords)
    // a button query raised, or no button and no working input: the direct URL
    ensures page.opens && (FirstMatch(ButtonStrategies(page)).Raised?
                           || (Misses(FirstMatch(ButtonStrategies(page))) && !DirectInputWorks(page))) ==>
      route == if page.searchUrlOpens then ThroughUrl(DirectSearchUrl(keywords)) else NoRoute
  {
    if !page.opens {
      return false, NoRoute;
    }
    var searchButtons: seq<Control> := [];
    var lookup := FirstMatch(ButtonStrategies(page));
    if lookup.Done? {
      searchButtons := lookup.value;
      if |searchButtons| == 0 && page.inputs.Done? && |page.inputs.value| > 0 {
        if page.inputs.value[0].operable {
          return true, ThroughInput(keywords);
        }
        // typing into that input raised: the inner handler swallows it and the URL route follows
      }
    }
    if |searchButtons| > 0 {
      if searchButtons[0].operable && page.inputAfterClick.Some? && page.inputAfterClick.value.operable {
        return true, ThroughButton(keywords);
      }
      return false, NoRoute;
    }
    if !page.searchUrlOpens {
      return false, NoRoute;
    }
    return true, ThroughUrl(DirectSearchUrl(keywords));
  }
}
