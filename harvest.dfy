/** `find_event_links`: collects up to `maxEvents` event URLs from the search results page in
    three passes: the first anchor of each event card, anchors whose href names an event path,
    and finally every anchor, filtered. Passes two and three skip URLs already collected; pass
    one does not. */
module Harvest {
  import opened Outcomes
  import opened Text

  /** The page's answer to `get_attribute("href")`, or the exception a lookup raised. */
  type HrefRead = Attempt<Option<string>>

  /** What the results page answers, in the order the code asks. */
  datatype ResultsPage = ResultsPage(
    readable: bool,                      // driver.current_url at the start returns
    cards: Attempt<seq<HrefRead>>,       // event cards; per card, the href of its first anchor
    eventAnchors: Attempt<seq<Attempt<string>>>,  // anchors whose href contains an event path
    allAnchors: Attempt<seq<HrefRead>>)  // every anchor on the page, with its href

  /** The event-path markers a URL must contain. */
  predicate IsEventLink(url: string) {
    Contains(url, "/events/") || Contains(url, "/e/")
  }

  /** `if link and ('/events/' in link or '/e/' in link)`. */
  predicate Accepted(href: Option<string>) {
    href.Some? && href.value != "" && IsEventLink(href.value)
  }

  /** `s[:n]` for a count that may be zero or negative. */
  function Take<T>(s: seq<T>, n: int): (r: seq<T>)
    ensures |r| <= |s| && r == s[..|r|]
    ensures |r| == if n <= 0 then 0 else if n < |s| then n else |s|
  {
    if n <= 0 then [] else if n < |s| then s[..n] else s
  }

  /** The links pass one accepts from `cards`, in page order, before any bound applies. A card
      whose lookup raised contributes nothing. */
  function CardLinks(cards: seq<HrefRead>): (links: seq<string>)
    ensures |links| <= |cards|
  {
    if cards == [] then []
    else
      var last := cards[|cards| - 1];
      CardLinks(cards[..|cards| - 1]) + if last.Done? && Accepted(last.value) then [last.value.value] else []
  }

  /** The values among `hrefs` that pass three accepts, in order, before duplicates are dropped. */
  function EventHrefs(hrefs: seq<Option<string>>): (links: seq<string>)
    ensures |links| <= |hrefs|
  {
    if hrefs == [] then []
    else
      var last := hrefs[|hrefs| - 1];
      EventHrefs(hrefs[..|hrefs| - 1]) + if Accepted(last) then [last.value] else []
  }

  /** The members of `hrefs` that a `if link in links: continue` loop starting from `seen` adds:
      each in its first position among `hrefs`, and none that `seen` holds. */
  function NewLinks(seen: seq<string>, hrefs: seq<string>): seq<string> {
    if hrefs == [] then []
    else
      var prior := NewLinks(seen, hrefs[..|hrefs| - 1]);
      var h := hrefs[|hrefs| - 1];
      if h in seen + prior then prior else prior + [h]
  }

  predicate Distinct(s: seq<string>) {
    forall i, j :: 0 <= i < j < |s| ==> s[i] != s[j]
  }

  /** How far the harvest got: the links so far, and whether it has ended (an exception, or a
      stage that could not run). */
  datatype Stage = Stage(links: seq<string>, ended: bool)

  /** Pass one: the first `maxEvents` accepted card links. */
  function PassOne(page: ResultsPage, maxEvents: int): Stage {
    if !page.readable || page.cards.Raised? then Stage([], true)
    else Stage(Take(CardLinks(page.cards.value), maxEvents), false)
  }

  /** Pass two: event anchors not yet collected, until the bound; an anchor whose
      href read raises ends the harvest with the links collected so far. */
  function PassTwo(page: ResultsPage, maxEvents: int, s: Stage): Stage {
    if s.ended || |s.links| >= maxEvents then s
    else if page.eventAnchors.Raised? then Stage(s.links, true)
    else
      var anchors := page.eventAnchors.value;
      var k := FirstRaised(anchors);
      var links := s.links + Take(NewLinks(s.links, Values(anchors[..k])), maxEvents - |s.links|);
      Stage(links, k < |anchors| && |links| < maxEvents)
  }

  /** Pass three: any accepted anchor not yet collected, until the bound; a raise
      ends the harvest as in pass two. */
  function PassThree(page: ResultsPage, maxEvents: int, s: Stage): Stage {
    if s.ended || |s.links| >= maxEvents then s
    else if page.allAnchors.Raised? then Stage(s.links, true)
    else
      var anchors := page.allAnchors.value;
      var k := FirstRaised(anchors);
      var links := s.links + Take(NewLinks(s.links, EventHrefs(Values(anchors[..k]))), maxEvents - |s.links|);
      Stage(links, k < |anchors| && |links| < maxEvents)
  }

  /** The list `find_event_links` returns. */
  function Harvest(page: ResultsPage, maxEvents: int): seq<string> {
    PassThree(page, maxEvents, PassTwo(page, maxEvents, PassOne(page, maxEvents))).links
  }

  // ---------------------------------------------------------------- facts about the passes

  /** Pass one keeps only hrefs with an event-path marker. */
  lemma {:induction false} CardLinksAreEventLinks(cards: seq<HrefRead>)
    ensures forall i :: 0 <= i < |CardLinks(cards)| ==> IsEventLink(CardLinks(cards)[i])
  {
    if cards != [] {
      CardLinksAreEventLinks(cards[..|cards| - 1]);
    }
  }

  /** Pass three keeps only hrefs with an event-path marker. */
  lemma {:induction false} EventHrefsAreEventLinks(hrefs: seq<Option<string>>)
    ensures forall i :: 0 <= i < |EventHrefs(hrefs)| ==> IsEventLink(EventHrefs(hrefs)[i])
  {
    if hrefs != [] {
      EventHrefsAreEventLinks(hrefs[..|hrefs| - 1]);
    }
  }

  lemma {:induction false} CardLinksPrefix(cards: seq<HrefRead>, i: nat)
    requires i <= |cards|
    ensures |CardLinks(cards[..i])| <= |CardLinks(cards)|
    ensures CardLinks(cards[..i]) == CardLinks(cards)[..|CardLinks(cards[..i])|]
  {
    if i < |cards| {
      assert cards[..|cards| - 1][..i] == cards[..i];
      CardLinksPrefix(cards[..|cards| - 1], i);
    } else {
      assert cards[..i] == cards;
    }
  }

  /** Everything `NewLinks` adds is new: no element of `seen`, and no element twice. */
  lemma {:induction false} NewLinksFresh(seen: seq<string>, hrefs: seq<string>)
    ensures var added := NewLinks(seen, hrefs);
      && Distinct(added)
      && (forall i :: 0 <= i < |added| ==> added[i] !in seen)
      && |added| <= |hrefs|
  {
    if hrefs != [] {
      NewLinksFresh(seen, hrefs[..|hrefs| - 1]);
    }
  }

  /** `NewLinks` keeps exactly the values of `hrefs` not in `seen`: every one of them is added. */
  lemma {:induction false} NewLinksComplete(seen: seq<string>, hrefs: seq<string>)
    ensures forall h :: h in NewLinks(seen, hrefs) ==> h in hrefs && h !in seen
    ensures forall h :: h in hrefs ==> h in seen || h in NewLinks(seen, hrefs)
  {
    if hrefs != [] {
      var init := hrefs[..|hrefs| - 1];
      NewLinksComplete(seen, init);
      NewLinksFresh(seen, init);
      assert hrefs == init + [hrefs[|hrefs| - 1]];
    }
  }

  lemma {:induction false} NewLinksPrefix(seen: seq<string>, hrefs: seq<string>, i: nat)
    requires i <= |hrefs|
    ensures |NewLinks(seen, hrefs[..i])| <= |NewLinks(seen, hrefs)|
    ensures NewLinks(seen, hrefs[..i]) == NewLinks(seen, hrefs)[..|NewLinks(seen, hrefs[..i])|]
  {
    if i < |hrefs| {
      assert hrefs[..|hrefs| - 1][..i] == hrefs[..i];
      NewLinksPrefix(seen, hrefs[..|hrefs| - 1], i);
    } else {
      assert hrefs[..i] == hrefs;
    }
  }

  lemma {:induction false} EventHrefsPrefix(hrefs: seq<Option<string>>, i: nat)
    requires i <= |hrefs|
    ensures |EventHrefs(hrefs[..i])| <= |EventHrefs(hrefs)|
    ensures EventHrefs(hrefs[..i]) == EventHrefs(hrefs)[..|EventHrefs(hrefs[..i])|]
  {
    if i < |hrefs| {
      assert hrefs[..|hrefs| - 1][..i] == hrefs[..i];
      EventHrefsPrefix(hrefs[..|hrefs| - 1], i);
    } else {
      assert hrefs[..i] == hrefs;
    }
  }

  lemma ValuesPrefix<T>(xs: seq<Attempt<T>>, i: nat, k: nat)
    requires i <= k <= |xs|
    requires forall j :: 0 <= j < k ==> xs[j].Done?
    ensures Values(xs[..i]) == Values(xs[..k])[..i]
  {
  }

  lemma NewLinksSnoc(seen: seq<string>, hrefs: seq<string>, h: string)
    ensures NewLinks(seen, hrefs + [h]) ==
      if h in seen + NewLinks(seen, hrefs) then NewLinks(seen, hrefs) else NewLinks(seen, hrefs) + [h]
  {
    assert (hrefs + [h])[..|hrefs|] == hrefs;
  }

  /** One more anchor read without raising: pass three's candidates grow by its href if accepted. */
  lemma ScanStep(every: seq<HrefRead>, m: nat)
    requires m < |every| && forall t :: 0 <= t <= m ==> every[t].Done?
    ensures EventHrefs(Values(every[..m + 1])) ==
      EventHrefs(Values(every[..m])) + if Accepted(every[m].value) then [every[m].value.value] else []
  {
    assert every[..m + 1][..m] == every[..m];
    var vs := Values(every[..m + 1]);
    assert vs == Values(every[..m]) + [every[m].value];
    assert vs[..m] == Values(every[..m]);
  }

  /** A bounded slice of `NewLinks` that a loop stopped at by reaching the bound. */
  lemma BoundReached(seen: seq<string>, hrefs: seq<string>, i: nat, budget: int)
    requires i <= |hrefs|
    requires |NewLinks(seen, hrefs[..i])| == budget
    ensures Take(NewLinks(seen, hrefs), budget) == NewLinks(seen, hrefs[..i])
  {
    NewLinksPrefix(seen, hrefs, i);
  }

  // ----------------------------------------------------------- properties of the harvest

  /** Each pass keeps what earlier passes collected, and appends to it. */
  lemma HarvestAppendOnly(page: ResultsPage, maxEvents: int)
    ensures var one := PassOne(page, maxEvents).links;
            var two := PassTwo(page, maxEvents, PassOne(page, maxEvents)).links;
            var all := Harvest(page, maxEvents);
      && one <= two <= all
      && one == Take(CardLinks(if page.readable && page.cards.Done? then page.cards.value else []), maxEvents)
  {
  }

  /** The list never grows past `maxEvents`, and a bound of zero or less gives the empty list. */
  lemma HarvestBounded(page: ResultsPage, maxEvents: int)
    ensures maxEvents <= 0 ==> Harvest(page, maxEvents) == []
    ensures |Harvest(page, maxEvents)| <= if maxEvents <= 0 then 0 else maxEvents
  {
    var s1 := PassOne(page, maxEvents);
    var s2 := PassTwo(page, maxEvents, s1);
    assert |s1.links| <= if maxEvents <= 0 then 0 else maxEvents;
    assert |s2.links| <= if maxEvents <= 0 then 0 else maxEvents;
  }

  /** From position `n` on, no element of `s` repeats an earlier one. */
  predicate FreshFrom(s: seq<string>, n: nat) {
    forall j :: n <= j < |s| ==> s[j] !in s[..j]
  }

  /** Appending a bounded `NewLinks` keeps a list fresh from `n` on. */
  lemma AppendFresh(links: seq<string>, hrefs: seq<string>, budget: int, n: nat)
    requires n <= |links| && FreshFrom(links, n)
    ensures FreshFrom(links + Take(NewLinks(links, hrefs), budget), n)
  {
    var added := Take(NewLinks(links, hrefs), budget);
    NewLinksFresh(links, hrefs);
    var all := links + added;
    forall j | n <= j < |all| ensures all[j] !in all[..j] {
      if j < |links| {
        assert all[..j] == links[..j];
        assert all[j] == links[j];
      } else {
        assert all[j] == added[j - |links|];
        assert all[..j] == links + added[..j - |links|];
      }
    }
  }

  /** Passes two and three never add a URL that is already in the list. */
  lemma HarvestFreshAfterCards(page: ResultsPage, maxEvents: int)
    ensures FreshFrom(Harvest(page, maxEvents), |PassOne(page, maxEvents).links|)
  {
    var s1 := PassOne(page, maxEvents);
    var s2 := PassTwo(page, maxEvents, s1);
    var n := |s1.links|;
    if !s1.ended && |s1.links| < maxEvents && page.eventAnchors.Done? {
      var anchors := page.eventAnchors.value;
      AppendFresh(s1.links, Values(anchors[..FirstRaised(anchors)]), maxEvents - |s1.links|, n);
    }
    assert FreshFrom(s2.links, n);
    if !s2.ended && |s2.links| < maxEvents && page.allAnchors.Done? {
      var anchors := page.allAnchors.value;
      AppendFresh(s2.links, EventHrefs(Values(anchors[..FirstRaised(anchors)])), maxEvents - |s2.links|, n);
    }
  }

  /** So the whole list is duplicate-free exactly when the card links pass one kept are. */
  lemma HarvestDistinct(page: ResultsPage, maxEvents: int)
    ensures Distinct(PassOne(page, maxEvents).links) <==> Distinct(Harvest(page, maxEvents))
  {
    HarvestAppendOnly(page, maxEvents);
    HarvestFreshAfterCards(page, maxEvents);
    var one := PassOne(page, maxEvents).links;
    var all := Harvest(page, maxEvents);
    if Distinct(one) {
      forall i, j | 0 <= i < j < |all| ensures all[i] != all[j] {
        if j >= |one| {
          assert all[i] == all[..j][i];
        } else {
          assert all[i] == one[i] && all[j] == one[j];
        }
      }
    }
    if Distinct(all) {
      forall i, j | 0 <= i < j < |one| ensures one[i] != one[j] {
        assert one[i] == all[i] && one[j] == all[j];
      }
    }
  }

  /** Pass one has no duplicate check: two cards that link to the same event give the URL twice. */
  lemma CardDuplicatesKept(url: string, maxEvents: int)
    requires IsEventLink(url) && maxEvents >= 2
    ensures var card := Done(Some(url));
      Harvest(ResultsPage(true, Done([card, card]), Done([]), Done([])), maxEvents) == [url, url]
  {
    var card: HrefRead := Done(Some(url));
    assert [card, card][..1] == [card];
    assert [card][..0] == [];
    assert CardLinks([card, card]) == [url, url];
  }

  /** Every element carries an event-path marker. */
  predicate AllEventLinks(links: seq<string>) {
    forall i :: 0 <= i < |links| ==> IsEventLink(links[i])
  }

  /** A pass that draws on event links only appends event links. */
  lemma AppendEventLinks(links: seq<string>, hrefs: seq<string>, budget: int)
    requires AllEventLinks(links) && AllEventLinks(hrefs)
    ensures AllEventLinks(links + Take(NewLinks(links, hrefs), budget))
  {
    NewLinksComplete(links, hrefs);
    var added := Take(NewLinks(links, hrefs), budget);
    var all := links + added;
    forall i | 0 <= i < |all| ensures IsEventLink(all[i]) {
      if i >= |links| {
        assert all[i] == added[i - |links|];
        assert added[i - |links|] in NewLinks(links, hrefs);
      }
    }
  }

  /** The pass-two anchors carry event-path markers (what their selector asks for). */
  predicate AnchorsAreEventLinks(page: ResultsPage) {
    page.eventAnchors.Done? ==>
      forall i :: 0 <= i < |page.eventAnchors.value| && page.eventAnchors.value[i].Done? ==>
        IsEventLink(page.eventAnchors.value[i].value)
  }

  lemma PassTwoEventLinks(page: ResultsPage, maxEvents: int, s: Stage)
    requires AnchorsAreEventLinks(page) && AllEventLinks(s.links)
    ensures AllEventLinks(PassTwo(page, maxEvents, s).links)
  {
    if !s.ended && |s.links| < maxEvents && page.eventAnchors.Done? {
      var anchors := page.eventAnchors.value;
      var hrefs := Values(anchors[..FirstRaised(anchors)]);
      assert AllEventLinks(hrefs);
      AppendEventLinks(s.links, hrefs, maxEvents - |s.links|);
    }
  }

  lemma PassThreeEventLinks(page: ResultsPage, maxEvents: int, s: Stage)
    requires AllEventLinks(s.links)
    ensures AllEventLinks(PassThree(page, maxEvents, s).links)
  {
    if !s.ended && |s.links| < maxEvents && page.allAnchors.Done? {
      var anchors := page.allAnchors.value;
      var hrefs := EventHrefs(Values(anchors[..FirstRaised(anchors)]));
      EventHrefsAreEventLinks(Values(anchors[..FirstRaised(anchors)]));
      AppendEventLinks(s.links, hrefs, maxEvents - |s.links|);
    }
  }

  /** Every harvested URL carries an event-path marker when the pass-two anchors do (their
      selector asks for one; the loop itself does not check). */
  lemma HarvestEventLinks(page: ResultsPage, maxEvents: int)
    requires AnchorsAreEventLinks(page)
    ensures forall i :: 0 <= i < |Harvest(page, maxEvents)| ==> IsEventLink(Harvest(page, maxEvents)[i])
  {
    var s1 := PassOne(page, maxEvents);
    if page.readable && page.cards.Done? {
      CardLinksAreEventLinks(page.cards.value);
    }
    assert AllEventLinks(s1.links);
    PassTwoEventLinks(page, maxEvents, s1);
    PassThreeEventLinks(page, maxEvents, PassTwo(page, maxEvents, s1));
  }

  // ------------------------------------------------------------------------- the loops

  /** Pass one's loop: every card until the bound, no duplicate check, a failing card skipped. */
  method CollectCardLinks(cards: seq<HrefRead>, maxEvents: int) returns (links: seq<string>)
    ensures links == Take(CardLinks(cards), maxEvents)
  {
    links := [];
    var i := 0;
    while i < |cards|
      invariant 0 <= i <= |cards|
      invariant links == CardLinks(cards[..i])
      invariant i == 0 || |links| <= maxEvents
    {
      if |links| >= maxEvents {
        break;
      }
      var card := cards[i];
      if card.Done? && Accepted(card.value) {
        links := links + [card.value.value];
      }
      assert cards[..i + 1][..i] == cards[..i];
      i := i + 1;
    }
    CardLinksPrefix(cards, i);
    if i == |cards| {
      assert cards[..i] == cards;
    }
  }

  /** The list pass two's loop holds once it has read the first `j` event anchors. */
  ghost function TwoSoFar(seen: seq<string>, anchors: seq<Attempt<string>>, j: nat): seq<string>
    requires j <= |anchors| && forall t :: 0 <= t < j ==> anchors[t].Done?
  {
    seen + NewLinks(seen, Values(anchors[..j]))
  }

  /** One more event anchor read: its URL is appended unless the list holds it already. */
  lemma TwoStep(seen: seq<string>, anchors: seq<Attempt<string>>, j: nat)
    requires j < |anchors| && forall t :: 0 <= t <= j ==> anchors[t].Done?
    ensures var link := anchors[j].value;
      var before := TwoSoFar(seen, anchors, j);
      TwoSoFar(seen, anchors, j + 1) == if link in before then before else before + [link]
  {
    assert anchors[..j + 1][..j] == anchors[..j];
    assert Values(anchors[..j + 1]) == Values(anchors[..j]) + [anchors[j].value];
    NewLinksSnoc(seen, Values(anchors[..j]), anchors[j].value);
  }

  /** Where pass two's loop can stop, the stage it leaves is `PassTwo`'s. */
  lemma TwoEnd(page: ResultsPage, maxEvents: int, s: Stage, j: nat)
    requires !s.ended && |s.links| < maxEvents && page.eventAnchors.Done?
    requires j <= |page.eventAnchors.value|
    requires forall t :: 0 <= t < j ==> page.eventAnchors.value[t].Done?
    requires |TwoSoFar(s.links, page.eventAnchors.value, j)| <= maxEvents
    requires j == |page.eventAnchors.value| || |TwoSoFar(s.links, page.eventAnchors.value, j)| == maxEvents
             || page.eventAnchors.value[j].Raised?
    ensures var links := TwoSoFar(s.links, page.eventAnchors.value, j);
      PassTwo(page, maxEvents, s) == Stage(links, j < |page.eventAnchors.value| && |links| < maxEvents)
  {
    var anchors := page.eventAnchors.value;
    var links := TwoSoFar(s.links, anchors, j);
    var k := FirstRaised(anchors);
    if j == |anchors| || anchors[j].Raised? {
      FirstRaisedAt(anchors, j);
    } else {
      ValuesPrefix(anchors, j, k);
      BoundReached(s.links, Values(anchors[..k]), j, maxEvents - |s.links|);
    }
  }

  /** Pass two's loop: event anchors until the bound, skipping collected URLs; an href read that
      raises ends the harvest. */
  method CollectEventAnchors(page: ResultsPage, maxEvents: int, s: Stage) returns (r: Stage)
    requires !s.ended && |s.links| < maxEvents && page.eventAnchors.Done?
    ensures r == PassTwo(page, maxEvents, s)
  {
    var anchors := page.eventAnchors.value;
    var links := s.links;
    var j := 0;
    while j < |anchors| && |links| < maxEvents && anchors[j].Done?
      invariant 0 <= j <= |anchors|
      invariant forall t :: 0 <= t < j ==> anchors[t].Done?
      invariant links == TwoSoFar(s.links, anchors, j)
      invariant |links| <= maxEvents
    {
      var link := anchors[j].value;
      TwoStep(s.links, anchors, j);
      j := j + 1;
      if link !in links {
        links := links + [link];
      }
    }
    TwoEnd(page, maxEvents, s, j);
    if j < |anchors| && |links| < maxEvents {
      return Stage(links, true);
    }
    return Stage(links, false);
  }

  /** The list pass three's loop holds once it has read the first `m` anchors. */
  ghost function ThreeSoFar(seen: seq<string>, every: seq<HrefRead>, m: nat): seq<string>
    requires m <= |every| && forall t :: 0 <= t < m ==> every[t].Done?
  {
    seen + NewLinks(seen, EventHrefs(Values(every[..m])))
  }

  /** One more anchor read: its href is appended when accepted and not held already. */
  lemma ThreeStep(seen: seq<string>, every: seq<HrefRead>, m: nat)
    requires m < |every| && forall t :: 0 <= t <= m ==> every[t].Done?
    ensures var href := every[m].value;
      var before := ThreeSoFar(seen, every, m);
      ThreeSoFar(seen, every, m + 1) ==
        if Accepted(href) && href.value !in before then before + [href.value] else before
  {
    ScanStep(every, m);
    var hrefs := EventHrefs(Values(every[..m]));
    var next := EventHrefs(Values(every[..m + 1]));
    var href := every[m].value;
    if Accepted(href) {
      assert next == hrefs + [href.value];
      NewLinksSnoc(seen, hrefs, href.value);
      assert ThreeSoFar(seen, every, m + 1) == seen + NewLinks(seen, hrefs + [href.value]);
    } else {
      assert next == hrefs;
      assert ThreeSoFar(seen, every, m + 1) == seen + NewLinks(seen, hrefs);
    }
  }

  /** Where pass three's loop can stop, the stage it leaves is `PassThree`'s. */
  lemma ThreeEnd(page: ResultsPage, maxEvents: int, s: Stage, m: nat)
    requires !s.ended && |s.links| < maxEvents && page.allAnchors.Done?
    requires m <= |page.allAnchors.value|
    requires forall t :: 0 <= t < m ==> page.allAnchors.value[t].Done?
    requires |ThreeSoFar(s.links, page.allAnchors.value, m)| <= maxEvents
    requires m == |page.allAnchors.value| || |ThreeSoFar(s.links, page.allAnchors.value, m)| == maxEvents
             || page.allAnchors.value[m].Raised?
    ensures var links := ThreeSoFar(s.links, page.allAnchors.value, m);
      PassThree(page, maxEvents, s) == Stage(links, m < |page.allAnchors.value| && |links| < maxEvents)
  {
    var every := page.allAnchors.value;
    var k := FirstRaised(every);
    if m == |every| || every[m].Raised? {
      FirstRaisedAt(every, m);
    } else {
      ValuesPrefix(every, m, k);
      EventHrefsPrefix(Values(every[..k]), m);
      BoundReached(s.links, EventHrefs(Values(every[..k])), |EventHrefs(Values(every[..m]))|, maxEvents - |s.links|);
    }
  }

  /** Pass three's loop: every anchor until the bound, keeping accepted URLs not collected yet;
      an href read that raises ends the harvest. */
  method CollectAllAnchors(page: ResultsPage, maxEvents: int, s: Stage) returns (r: Stage)
    requires !s.ended && |s.links| < maxEvents && page.allAnchors.Done?
    ensures r == PassThree(page, maxEvents, s)
  {
    var every := page.allAnchors.value;
    var links := s.links;
    var m := 0;
    while m < |every| && |links| < maxEvents && every[m].Done?
      invariant 0 <= m <= |every|
      invariant forall t :: 0 <= t < m ==> every[t].Done?
      invariant links == ThreeSoFar(s.links, every, m)
      invariant |links| <= maxEvents
    {
      var href := every[m].value;
      ThreeStep(s.links, every, m);
      m := m + 1;
      if Accepted(href) && href.value !in links {
        links := links + [href.value];
      }
    }
    ThreeEnd(page, maxEvents, s, m);
    if m < |every| && |links| < maxEvents {
      return Stage(links, true);
    }
    return Stage(links, false);
  }

  /** `find_event_links`: the three passes in order, each run only while the bound is not met. */
  method FindEventLinks(page: ResultsPage, maxEvents: int) returns (links: seq<string>)
    ensures links == Harvest(page, maxEvents)
  {
    if !page.readable || page.cards.Raised? {
      return [];
    }
    var one := CollectCardLinks(page.cards.value, maxEvents);
    var stage := Stage(one, false);
    if |one| >= maxEvents {
      return one;
    }
    if page.eventAnchors.Raised? {
      return one;
    }
    stage := CollectEventAnchors(page, maxEvents, stage);
    if stage.ended || |stage.links| >= maxEvents {
      return stage.links;
    }
    if page.allAnchors.Raised? {
      return stage.links;
    }
    stage := CollectAllAnchors(page, maxEvents, stage);
    return stage.links;
  }
}
