/**
 * The Wikipedia link race (examples/browser-speed/src/wikipedia.ts, 177-586 and 662-700): links
 * are capabilities of the latest observation, the host counts hops, and after a click whose
 * outcome is unknown nothing more is read or clicked.
 */
module Wikipedia {
  import opened Common
  import opened Decimal
  import WikiRouting

  const MAX_HOPS := 20
  const LINK_PAGE := 80
  const ANCHOR_LIMIT := 10_000
  const LINK_LIMIT := 5_000

  datatype Error = BrowserFault | Invalid

  datatype Via = Via(text: string, url: string)

  datatype Hop = Hop(title: string, url: string, via: Option<Via>)

  /** An anchor of the page, and the same with the article it leads to. */
  datatype Anchor = Anchor(index: nat, url: string, text: string)

  datatype Link = Link(index: nat, url: string, text: string, title: string)

  datatype PageData = PageData(
    url: string,
    canonical: string,
    title: string,
    article: bool,
    linkCount: nat,
    links: seq<Anchor>)

  datatype Observation = Observation(hops: nat, remainingHops: nat, reached: bool, refs: seq<string>, total: nat, next: Option<nat>)

  /** What clicking does: nothing, because the page changed; or a navigation that ends well or not. */
  datatype Click = NotDispatched | Dispatched(arrived: bool)

  function RefOf(generation: nat, index: nat): string {
    "p" + (Numeral(generation) + ['-'] + ("l" + Numeral(index)))
  }

  /** References of different articles, or of different anchors, are different texts. */
  lemma RefsDiffer(g: nat, i: nat, h: nat, j: nat)
    requires RefOf(g, i) == RefOf(h, j)
    ensures g == h && i == j
  {
    var x, y := "l" + Numeral(i), "l" + Numeral(j);
    assert RefOf(g, i)[1..] == Numeral(g) + ['-'] + x;
    assert RefOf(h, j)[1..] == Numeral(h) + ['-'] + y;
    SplitIsUnique(Numeral(g), x, Numeral(h), y, '-');
    NumeralsDiffer(g, h);
    assert x[1..] == Numeral(i) && y[1..] == Numeral(j);
    NumeralsDiffer(i, j);
  }

  function Refs(generation: nat, links: seq<Link>): (refs: seq<string>)
    ensures |refs| == |links|
  {
    seq(|links|, i requires 0 <= i < |links| => RefOf(generation, links[i].index))
  }

  // ------------------------------------------------------------------ eligible links

  type Titles = string -> Option<string>

  predicate Eligible(a: Anchor, here: string, titleOf: Titles) {
    titleOf(a.url).Some? && titleOf(a.url).value != here && a.text != ""
  }

  predicate Leads(links: seq<Link>, title: string) {
    exists l :: l in links && l.title == title
  }

  function LinkOf(a: Anchor, titleOf: Titles): Link
    requires titleOf(a.url).Some?
  {
    Link(a.index, a.url, a.text, titleOf(a.url).value)
  }

  /** The link is that of an eligible anchor with no earlier one to the same article. */
  predicate IsFirst(anchors: seq<Anchor>, k: nat, here: string, titleOf: Titles, l: Link)
    requires k < |anchors|
  {
    && Eligible(anchors[k], here, titleOf) && l == LinkOf(anchors[k], titleOf)
    && forall m :: 0 <= m < k && Eligible(anchors[m], here, titleOf) ==> titleOf(anchors[m].url).value != l.title
  }

  ghost predicate FirstOnPage(anchors: seq<Anchor>, here: string, titleOf: Titles, l: Link) {
    exists k :: 0 <= k < |anchors| && IsFirst(anchors, k, here, titleOf, l)
  }

  /** One link for every eligible article, in page order. */
  function EligibleOf(anchors: seq<Anchor>, here: string, titleOf: Titles): seq<Link> {
    if anchors == [] then []
    else
      var a := anchors[|anchors| - 1];
      var before := EligibleOf(anchors[..|anchors| - 1], here, titleOf);
      if Eligible(a, here, titleOf) && !Leads(before, titleOf(a.url).value) then before + [LinkOf(a, titleOf)] else before
  }

  /** They lead to different articles, to every eligible one, each by its first anchor on the page. */
  lemma {:induction false} EligibleLinksAreFirst(anchors: seq<Anchor>, here: string, titleOf: Titles)
    ensures var links := EligibleOf(anchors, here, titleOf);
            && (forall i, j :: 0 <= i < j < |links| ==> links[i].title != links[j].title)
            && (forall a :: a in anchors && Eligible(a, here, titleOf) ==> Leads(links, titleOf(a.url).value))
            && (forall l :: l in links ==> FirstOnPage(anchors, here, titleOf, l))
    decreases |anchors|
  {
    if anchors != [] {
      var n := |anchors| - 1;
      var rest := anchors[..n];
      EligibleLinksAreFirst(rest, here, titleOf);
      var before, links := EligibleOf(rest, here, titleOf), EligibleOf(anchors, here, titleOf);
      StillLed(anchors, here, titleOf);
      forall l | l in links ensures FirstOnPage(anchors, here, titleOf, l) {
        if l in before {
          assert FirstOnPage(rest, here, titleOf, l);
          var k :| 0 <= k < |rest| && IsFirst(rest, k, here, titleOf, l);
          assert IsFirst(anchors, k, here, titleOf, l);
        } else {
          NewLinkIsFirst(anchors, here, titleOf);
          assert IsFirst(anchors, n, here, titleOf, l);
        }
      }
    }
  }

  lemma StillLed(anchors: seq<Anchor>, here: string, titleOf: Titles)
    requires anchors != []
    requires var rest := anchors[..|anchors| - 1];
             forall a :: a in rest && Eligible(a, here, titleOf) ==> Leads(EligibleOf(rest, here, titleOf), titleOf(a.url).value)
    ensures forall a :: a in anchors && Eligible(a, here, titleOf) ==> Leads(EligibleOf(anchors, here, titleOf), titleOf(a.url).value)
  {
    var n := |anchors| - 1;
    var rest := anchors[..n];
    var before, links := EligibleOf(rest, here, titleOf), EligibleOf(anchors, here, titleOf);
    assert forall l :: l in before ==> l in links;
    forall a | a in anchors && Eligible(a, here, titleOf) ensures Leads(links, titleOf(a.url).value) {
      if a in rest {
        var l :| l in before && l.title == titleOf(a.url).value;
        assert l in links;
      } else {
        assert a == anchors[n];
        assert !Leads(before, titleOf(a.url).value) ==> links[|links| - 1] == LinkOf(a, titleOf);
      }
    }
  }

  lemma NewLinkIsFirst(anchors: seq<Anchor>, here: string, titleOf: Titles)
    requires anchors != []
    requires var n := |anchors| - 1;
             && Eligible(anchors[n], here, titleOf)
             && !Leads(EligibleOf(anchors[..n], here, titleOf), titleOf(anchors[n].url).value)
             && forall a :: a in anchors[..n] && Eligible(a, here, titleOf) ==> Leads(EligibleOf(anchors[..n], here, titleOf), titleOf(a.url).value)
    ensures var n := |anchors| - 1; IsFirst(anchors, n, here, titleOf, LinkOf(anchors[n], titleOf))
  {
    var n := |anchors| - 1;
    forall m | 0 <= m < n && Eligible(anchors[m], here, titleOf)
      ensures titleOf(anchors[m].url).value != titleOf(anchors[n].url).value
    {
      assert anchors[m] in anchors[..n];
    }
  }

  method EligibleLinks(anchors: seq<Anchor>, here: string, titleOf: Titles) returns (links: seq<Link>)
    ensures links == EligibleOf(anchors, here, titleOf)
  {
    links := [];
    for n := 0 to |anchors|
      invariant links == EligibleOf(anchors[..n], here, titleOf)
    {
      var a := anchors[n];
      assert anchors[..n + 1][..n] == anchors[..n];
      if Eligible(a, here, titleOf) && !Leads(links, titleOf(a.url).value) {
        links := links + [LinkOf(a, titleOf)];
      }
    }
    assert anchors[..|anchors|] == anchors;
  }

  // ------------------------------------------------------------------ what one observation shows

  function LinksOf(data: PageData, titleOf: Titles): seq<Link> {
    if titleOf(data.url).None? then [] else EligibleOf(data.links, titleOf(data.url).value, titleOf)
  }

  /** All links, or one page of them. */
  function ShownOf(data: PageData, titleOf: Titles, fullLinks: bool, offset: nat): seq<Link> {
    var all := LinksOf(data, titleOf);
    if fullLinks then all else all[Min(offset, |all|)..Min(offset + LINK_PAGE, |all|)]
  }

  predicate Refused(total: nat, fullLinks: bool, offset: nat) {
    (fullLinks && total > LINK_LIMIT) || (offset != 0 && offset >= total)
  }

  /** The links to show, and how many there are; too many to route, or an offset past them, is refused. */
  method Show(data: PageData, titleOf: Titles, fullLinks: bool, offset: nat) returns (shown: Option<seq<Link>>, total: nat)
    requires titleOf(data.url).Some?
    ensures total == |LinksOf(data, titleOf)|
    ensures shown == if Refused(total, fullLinks, offset) then None
                     else Some(ShownOf(data, titleOf, fullLinks, offset))
  {
    var links := EligibleLinks(data.links, titleOf(data.url).value, titleOf);
    total := |links|;
    if fullLinks && |links| > LINK_LIMIT { return None, total; }
    if offset != 0 && offset >= |links| { return None, total; }
    shown := Some(if fullLinks then links else links[Min(offset, |links|)..Min(offset + LINK_PAGE, |links|)]);
  }

  lemma ShownAreLinks(data: PageData, titleOf: Titles, fullLinks: bool, offset: nat)
    ensures forall l :: l in ShownOf(data, titleOf, fullLinks, offset) ==> l in LinksOf(data, titleOf)
  {
  }

  /** The capabilities a set of shown links becomes. */
  function Capabilities(generation: nat, links: seq<Link>): map<string, Link> {
    if links == [] then map[]
    else
      var last := links[|links| - 1];
      Capabilities(generation, links[..|links| - 1])[RefOf(generation, last.index) := last]
  }

  function RouteOf(generation: nat, links: seq<Link>): seq<WikiRouting.RouteLink> {
    if links == [] then []
    else
      var last := links[|links| - 1];
      RouteOf(generation, links[..|links| - 1]) + [WikiRouting.RouteLink(RefOf(generation, last.index), last.text, last.title, last.url)]
  }

  /** Every capability is a shown link under its own reference, and every shown one's reference is live. */
  lemma {:induction false} CapabilitiesAreShown(generation: nat, links: seq<Link>)
    ensures forall ref :: ref in Capabilities(generation, links) ==>
              Capabilities(generation, links)[ref] in links && ref == RefOf(generation, Capabilities(generation, links)[ref].index)
    ensures forall l :: l in links ==> RefOf(generation, l.index) in Capabilities(generation, links)
    ensures forall r :: r in RouteOf(generation, links) ==> r.ref in Capabilities(generation, links)
    decreases |links|
  {
    if links != [] {
      CapabilitiesAreShown(generation, links[..|links| - 1]);
      assert links == links[..|links| - 1] + [links[|links| - 1]];
    }
  }

  method Grant(generation: nat, links: seq<Link>) returns (capabilities: map<string, Link>, routes: seq<WikiRouting.RouteLink>)
    ensures capabilities == Capabilities(generation, links) && routes == RouteOf(generation, links)
  {
    capabilities, routes := map[], [];
    for i := 0 to |links|
      invariant capabilities == Capabilities(generation, links[..i]) && routes == RouteOf(generation, links[..i])
    {
      assert links[..i + 1][..i] == links[..i];
      var ref := RefOf(generation, links[i].index);
      capabilities := capabilities[ref := links[i]];
      routes := routes + [WikiRouting.RouteLink(ref, links[i].text, links[i].title, links[i].url)];
    }
    assert links[..|links|] == links;
  }

  /** What the race tells its player about a page it has just read, on the article of a generation. */
  function ObservationOf(data: PageData, titleOf: Titles, target: string, fullLinks: bool, generation: nat, offset: nat): Observation
    requires 1 <= generation <= MAX_HOPS + 1
  {
    var total := |LinksOf(data, titleOf)|;
    Observation(generation - 1, MAX_HOPS - generation + 1, titleOf(data.url) == Some(target) && generation > 1,
                Refs(generation, ShownOf(data, titleOf, fullLinks, offset)), total,
                if !fullLinks && offset + LINK_PAGE < total then Some(offset + LINK_PAGE) else None)
  }

  /** The page offers the link that a hop went by. */
  ghost predicate Offers(data: PageData, titleOf: Titles, via: Via) {
    exists l :: l in LinksOf(data, titleOf) && via == Via(l.text, l.url)
  }

  /** The hop went by a link that some page of its article offered. */
  ghost predicate HopFrom(article: Hop, hop: Hop, pages: seq<PageData>, titleOf: Titles) {
    hop.via.Some? && exists p :: p in pages && titleOf(p.url) == titleOf(article.url) && Offers(p, titleOf, hop.via.value)
  }

  /** Every hop is justified by the pages of the article before it. */
  ghost predicate Justified(path: seq<Hop>, pages: seq<seq<PageData>>, titleOf: Titles)
    requires |path| == |pages|
  {
    && (forall i :: 0 < i < |path| ==> HopFrom(path[i - 1], path[i], pages[i - 1], titleOf))
    && (forall i, p :: 0 <= i < |pages| && p in pages[i] ==> titleOf(p.url) == titleOf(path[i].url))
  }

  /** Every live capability is a link of this page, under this article's generation. */
  ghost predicate Live(observed: map<string, Link>, generation: nat, page: PageData, titleOf: Titles) {
    forall ref :: ref in observed ==> ref == RefOf(generation, observed[ref].index) && observed[ref] in LinksOf(page, titleOf)
  }

  lemma NewArticle(pages: seq<seq<PageData>>, data: PageData)
    ensures (pages + [[]])[|pages| := (pages + [[]])[|pages|] + [data]] == pages + [[data]]
  {
    assert [] + [data] == [data];
  }

  lemma ArrivalIsJustified(path: seq<Hop>, pages: seq<seq<PageData>>, titleOf: Titles, hop: Hop)
    requires |path| == |pages| && Justified(path, pages, titleOf)
    requires path != [] ==> HopFrom(path[|path| - 1], hop, pages[|path| - 1], titleOf)
    ensures Justified(path + [hop], pages + [[]], titleOf)
  {
  }

  lemma PageIsJustified(path: seq<Hop>, pages: seq<seq<PageData>>, titleOf: Titles, data: PageData)
    requires |path| == |pages| > 0 && Justified(path, pages, titleOf) && titleOf(data.url) == titleOf(path[|path| - 1].url)
    ensures Justified(path, pages[|path| - 1 := pages[|path| - 1] + [data]], titleOf)
  {
    var more := pages[|path| - 1 := pages[|path| - 1] + [data]];
    forall i | 0 < i < |path| ensures HopFrom(path[i - 1], path[i], more[i - 1], titleOf) {
      assert more[i - 1] == pages[i - 1];
    }
  }

  // ------------------------------------------------------------------ the race

  class Race {
    const target: string
    const fullLinks: bool
    const titleOf: Titles
    var approved: string
    var generation: nat
    var path: seq<Hop>
    var currentUrl: string
    var uncertain: bool
    var observed: map<string, Link>
    var route: seq<WikiRouting.RouteLink>
    ghost var pages: seq<seq<PageData>>     // for every article of the path, the pages observed on it

    /**
     * Generations count articles; hops stay within the limit; every hop but the first went by a
     * link that a page of the article before offered; and what is live was shown last.
     */
    ghost predicate Valid()
      reads this
    {
      && generation == |path| == |pages|
      && |path| <= MAX_HOPS + 1
      && Justified(path, pages, titleOf)
      && (path != [] ==> path[0].via.None? && titleOf(currentUrl) == titleOf(path[|path| - 1].url))
      && (path == [] ==> observed == map[])
      && (observed != map[] ==> pages[|path| - 1] != [] && Live(observed, generation, Latest(), titleOf))
    }

    ghost function Latest(): PageData
      requires pages != [] && pages[|pages| - 1] != []
      reads this
    {
      pages[|pages| - 1][|pages[|pages| - 1]| - 1]
    }

    /** Some page of the current article offered this link. */
    ghost predicate Offered(via: Via)
      requires Valid() && path != []
      reads this
    {
      exists p :: p in pages[|path| - 1] && Offers(p, titleOf, via)
    }

    lemma ObservedIsOffered(ref: string)
      requires Valid() && ref in observed
      ensures path != [] && Offered(Via(observed[ref].text, observed[ref].url))
    {
      var link := observed[ref];
      assert link in LinksOf(Latest(), titleOf) && Latest() in pages[|path| - 1];
      assert Offers(Latest(), titleOf, Via(link.text, link.url));
    }

    ghost predicate RouteIsLive()
      reads this
    {
      forall l :: l in route ==> l.ref in observed
    }

    constructor (target: string, fullLinks: bool, titleOf: Titles, startUrl: string)
      ensures Valid() && path == [] && !uncertain
      ensures this.target == target && this.fullLinks == fullLinks && this.titleOf == titleOf
    {
      this.target, this.fullLinks, this.titleOf := target, fullLinks, titleOf;
      approved, currentUrl := startUrl, "";
      generation, path, uncertain, observed, route := 0, [], false, map[], [];
      pages := [];
    }

    /** Whether the page is the article the race may be on. */
    predicate Acceptable(data: PageData, via: Option<Via>)
      reads this
    {
      && data.linkCount <= ANCHOR_LIMIT
      && data.article && titleOf(data.url).Some? && titleOf(data.canonical) == titleOf(data.url) && data.title != ""
      && (path != [] && via.None? ==> data.url == currentUrl)
    }

    method Arrive(data: PageData, via: Option<Via>)
      requires Valid() && Acceptable(data, via)
      requires via.None? ==> path == []
      requires via.Some? ==> path != [] && |path| <= MAX_HOPS && observed == map[]
      requires via.Some? ==> HopFrom(path[|path| - 1], Hop(data.title, data.canonical, via), pages[|path| - 1], titleOf)
      modifies this`generation, this`path, this`currentUrl, this`pages
      ensures Valid() && observed == map[]
      ensures path == old(path) + [Hop(data.title, data.canonical, via)] && currentUrl == data.url && pages == old(pages) + [[]]
    {
      ArrivalIsJustified(path, pages, titleOf, Hop(data.title, data.canonical, via));
      generation := generation + 1;
      path := path + [Hop(data.title, data.canonical, via)];
      currentUrl := data.url;
      pages := pages + [[]];
    }

    /** The links of this observation become the only live references. */
    method Publish(data: PageData, links: seq<Link>)
      requires Valid() && path != [] && titleOf(data.url) == titleOf(path[|path| - 1].url)
      requires forall l :: l in links ==> l in LinksOf(data, titleOf)
      modifies this`observed, this`pages, this`route
      ensures Valid() && RouteIsLive()
      ensures observed == Capabilities(generation, links) && route == RouteOf(generation, links)
      ensures pages == old(pages)[|path| - 1 := old(pages)[|path| - 1] + [data]]
    {
      var capabilities, routes := Grant(generation, links);
      CapabilitiesAreShown(generation, links);
      PageIsJustified(path, pages, titleOf, data);
      observed, route := capabilities, routes;
      pages := pages[|path| - 1 := pages[|path| - 1] + [data]];
    }

    /**
     * Reading the current article, or the one a click led to. An observation shows exactly the
     * page's eligible links, or one page of them; a read that fails leaves what was live alone.
     */
    method Read(offset: nat, via: Option<Via>, outcome: Option<PageData>) returns (r: Result<Observation, Error>)
      requires Valid()
      requires via.Some? ==> !uncertain && path != [] && |path| <= MAX_HOPS && observed == map[]
      requires via.Some? ==> path != [] && Offered(via.value)
      modifies this
      ensures Valid() && uncertain == old(uncertain) && approved == old(approved)
      ensures old(uncertain) ==> r == Err(BrowserFault) && path == old(path) && observed == old(observed)
      ensures path == if !uncertain && outcome.Some? && old(Acceptable(outcome.value, via)) && (via.Some? || old(path) == [])
                      then old(path) + [Hop(outcome.value.title, outcome.value.canonical, via)] else old(path)
      ensures path != old(path) ==> currentUrl == outcome.value.url
      ensures r.Ok? <==> !uncertain && outcome.Some? && old(Acceptable(outcome.value, via)) && !Refused(|LinksOf(outcome.value, titleOf)|, fullLinks, offset)
      ensures r.Err? ==> pages == old(pages) + (if path == old(path) then [] else [[]])
      ensures r.Err? && path == old(path) ==> observed == old(observed)
      ensures r.Ok? ==>
                && outcome.Some? && path != [] && (via.Some? ==> |path| == |old(path)| + 1)
                && pages == (if path == old(path) then old(pages)[|path| - 1 := old(pages)[|path| - 1] + [outcome.value]] else old(pages) + [[outcome.value]])
                && observed == Capabilities(generation, ShownOf(outcome.value, titleOf, fullLinks, offset))
                && route == RouteOf(generation, ShownOf(outcome.value, titleOf, fullLinks, offset)) && RouteIsLive()
                && r.value == ObservationOf(outcome.value, titleOf, target, fullLinks, generation, offset)
    {
      if uncertain { return Err(BrowserFault); }
      if outcome.None? { return Err(BrowserFault); }
      var data := outcome.value;
      var title := titleOf(data.url);
      if data.linkCount > ANCHOR_LIMIT { return Err(Invalid); }
      if !data.article || title.None? || titleOf(data.canonical) != title || data.title == "" { return Err(BrowserFault); }
      if path != [] && via.None? && data.url != currentUrl { return Err(BrowserFault); }
      r := Accept(offset, via, data);
    }

    /** An acceptable page is the article already current, or the next one of the route. */
    method Accept(offset: nat, via: Option<Via>, data: PageData) returns (r: Result<Observation, Error>)
      requires Valid() && !uncertain && Acceptable(data, via)
      requires via.Some? ==> path != [] && |path| <= MAX_HOPS && observed == map[] && Offered(via.value)
      modifies this`generation, this`path, this`currentUrl, this`pages, this`observed, this`route
      ensures Valid()
      ensures var arrives := via.Some? || old(path) == [];
              && path == (if arrives then old(path) + [Hop(data.title, data.canonical, via)] else old(path))
              && (arrives ==> currentUrl == data.url)
              && (r.Err? ==> pages == old(pages) + (if arrives then [[]] else []))
              && (r.Err? && !arrives ==> observed == old(observed))
              && (r.Ok? ==> pages == (if arrives then old(pages) + [[data]] else old(pages)[|path| - 1 := old(pages)[|path| - 1] + [data]]))
      ensures r.Ok? <==> !Refused(|LinksOf(data, titleOf)|, fullLinks, offset)
      ensures r.Ok? ==>
                && path != [] && RouteIsLive()
                && observed == Capabilities(generation, ShownOf(data, titleOf, fullLinks, offset))
                && route == RouteOf(generation, ShownOf(data, titleOf, fullLinks, offset))
                && r.value == ObservationOf(data, titleOf, target, fullLinks, generation, offset)
    {
      if via.Some? || path == [] {
        NewArticle(pages, data);
        Arrive(data, via);
      }
      r := Observe(offset, data);
    }

    /** The second half of a read: what the page, once accepted, makes live. */
    method Observe(offset: nat, data: PageData) returns (r: Result<Observation, Error>)
      requires Valid() && path != [] && titleOf(data.url).Some? && titleOf(data.url) == titleOf(path[|path| - 1].url)
      modifies this`observed, this`pages, this`route
      ensures Valid()
      ensures r.Ok? <==> !Refused(|LinksOf(data, titleOf)|, fullLinks, offset)
      ensures r.Err? ==> observed == old(observed) && pages == old(pages)
      ensures r.Ok? ==>
                && pages == old(pages)[|path| - 1 := old(pages)[|path| - 1] + [data]]
                && observed == Capabilities(generation, ShownOf(data, titleOf, fullLinks, offset))
                && route == RouteOf(generation, ShownOf(data, titleOf, fullLinks, offset)) && RouteIsLive()
                && r.value == ObservationOf(data, titleOf, target, fullLinks, generation, offset)
    {
      var shown, total := Show(data, titleOf, fullLinks, offset);
      if shown.None? { return Err(Invalid); }
      var next := if !fullLinks && offset + LINK_PAGE < total then Some(offset + LINK_PAGE) else None;
      var reached := titleOf(data.url) == Some(target) && |path| > 1;
      var observation := Observation(|path| - 1, MAX_HOPS - |path| + 1, reached, Refs(generation, shown.value), total, next);
      assert observation == ObservationOf(data, titleOf, target, fullLinks, generation, offset);
      ShownAreLinks(data, titleOf, fullLinks, offset);
      Publish(data, shown.value);
      r := Ok(observation);
    }

    /** Click one observed link. The host, not the page, decides whether it was observed. */
    method Follow(ref: string, click: Click, outcome: Option<PageData>) returns (r: Result<Observation, Error>)
      requires Valid()
      modifies this
      ensures Valid()
      ensures uncertain <==> old(uncertain) || (ref in old(observed) && |old(path)| <= MAX_HOPS && click == Dispatched(false))
      ensures old(uncertain) || ref !in old(observed) || |old(path)| > MAX_HOPS ==>
                r == Err(Invalid) && path == old(path) && observed == old(observed) && approved == old(approved)
      ensures path == old(path)
              || (ref in old(observed) && outcome.Some?
                  && path == old(path) + [Hop(outcome.value.title, outcome.value.canonical, Some(Via(old(observed)[ref].text, old(observed)[ref].url)))])
      ensures approved != old(approved) ==> ref in old(observed) && approved == old(observed)[ref].url
      ensures r.Err? ==> pages == old(pages) + (if path == old(path) then [] else [[]])
      ensures r.Ok? ==>
                && click == Dispatched(true) && outcome.Some? && |path| == |old(path)| + 1
                && pages == old(pages) + [[outcome.value]]
                && observed == Capabilities(generation, ShownOf(outcome.value, titleOf, fullLinks, 0)) && RouteIsLive()
                && r.value == ObservationOf(outcome.value, titleOf, target, fullLinks, generation, 0) && currentUrl == outcome.value.url
    {
      if uncertain || ref !in observed { return Err(Invalid); }
      var link := observed[ref];
      if |path| - 1 >= MAX_HOPS { return Err(Invalid); }
      ObservedIsOffered(ref);
      r := Dispatch(link, click, outcome);
    }

    /** The click itself: whatever was live is spent, and an unknown outcome ends the race. */
    method Dispatch(link: Link, click: Click, outcome: Option<PageData>) returns (r: Result<Observation, Error>)
      requires Valid() && !uncertain && path != [] && |path| <= MAX_HOPS && Offered(Via(link.text, link.url))
      modifies this
      ensures Valid() && approved == link.url
      ensures uncertain <==> click == Dispatched(false)
      ensures path == old(path)
              || (outcome.Some? && path == old(path) + [Hop(outcome.value.title, outcome.value.canonical, Some(Via(link.text, link.url)))])
      ensures r.Err? ==> pages == old(pages) + (if path == old(path) then [] else [[]])
      ensures r.Ok? ==>
                && click == Dispatched(true) && outcome.Some? && |path| == |old(path)| + 1
                && pages == old(pages) + [[outcome.value]]
                && observed == Capabilities(generation, ShownOf(outcome.value, titleOf, fullLinks, 0)) && RouteIsLive()
                && r.value == ObservationOf(outcome.value, titleOf, target, fullLinks, generation, 0) && currentUrl == outcome.value.url
    {
      approved := link.url;
      observed := map[];
      match click {
        case NotDispatched => return Err(Invalid);
        case Dispatched(arrived) =>
          if !arrived {
            uncertain := true;
            return Err(BrowserFault);
          }
          r := Read(0, Some(Via(link.text, link.url)), outcome);
      }
    }

    /** A reference from any other article is dead, whatever its anchor. */
    lemma StaleRefsNeverResolve(g: nat, index: nat)
      requires Valid() && g != generation
      ensures RefOf(g, index) !in observed
    {
      if RefOf(g, index) in observed {
        RefsDiffer(g, index, generation, observed[RefOf(g, index)].index);
      }
    }
  }

  // ------------------------------------------------------------------ any player

  /** What a player may do: look at another page of links, or click a reference, sensible or not. */
  datatype Move = Look(offset: nat, outcome: Option<PageData>) | Go(ref: string, click: Click, outcome: Option<PageData>)

  /** The hop went by a link that a page handed to the race before showed for the article before. */
  ghost predicate HopShown(article: Hop, hop: Hop, handed: seq<Option<PageData>>, titleOf: Titles) {
    hop.via.Some? && exists p :: Some(p) in handed && titleOf(p.url) == titleOf(article.url) && Offers(p, titleOf, hop.via.value)
  }

  function Outcomes(moves: seq<Move>): (handed: seq<Option<PageData>>)
    ensures |handed| == |moves|
  {
    seq(|moves|, i requires 0 <= i < |moves| => moves[i].outcome)
  }

  /**
   * Whatever a player does and whatever the browser answers, the route has at most twenty hops,
   * each by a link that a page really offered on the article before.
   */
  method Play(race: Race, first: Option<PageData>, moves: seq<Move>)
    requires race.Valid() && race.path == [] && !race.uncertain
    modifies race
    ensures race.Valid() && |race.path| <= MAX_HOPS + 1
    ensures forall i :: 0 < i < |race.path| ==> HopShown(race.path[i - 1], race.path[i], [first] + Outcomes(moves), race.titleOf)
  {
    ghost var handed := [first] + Outcomes(moves);
    assert handed[0] == first && first in handed;
    Make(race, Look(0, first), handed);
    for n := 0 to |moves|
      invariant race.Valid() && AllHanded(race.pages, handed)
    {
      assert handed[n + 1] == moves[n].outcome && moves[n].outcome in handed;
      Make(race, moves[n], handed);
    }
    JustifiedByWhatWasHanded(race.path, race.pages, handed, race.titleOf);
  }

  method Make(race: Race, move: Move, ghost handed: seq<Option<PageData>>)
    requires race.Valid() && AllHanded(race.pages, handed) && move.outcome in handed
    modifies race
    ensures race.Valid() && AllHanded(race.pages, handed)
  {
    ghost var before := race.pages;
    match move {
      case Look(offset, outcome) => var _ := race.Read(offset, None, outcome);
      case Go(ref, click, outcome) => var _ := race.Follow(ref, click, outcome);
    }
    OnePageMore(before, race.pages, move.outcome, handed);
  }

  lemma OnePageMore(before: seq<seq<PageData>>, after: seq<seq<PageData>>, outcome: Option<PageData>, handed: seq<Option<PageData>>)
    requires AllHanded(before, handed) && outcome in handed
    requires || after == before || after == before + [[]]
             || (outcome.Some? && after == before + [[outcome.value]])
             || (outcome.Some? && before != [] && after == before[|before| - 1 := before[|before| - 1] + [outcome.value]])
    ensures AllHanded(after, handed)
  {
  }

  ghost predicate AllHanded(pages: seq<seq<PageData>>, handed: seq<Option<PageData>>) {
    forall i, p :: 0 <= i < |pages| && p in pages[i] ==> Some(p) in handed
  }

  lemma JustifiedByWhatWasHanded(path: seq<Hop>, pages: seq<seq<PageData>>, handed: seq<Option<PageData>>, titleOf: Titles)
    requires |path| == |pages| && Justified(path, pages, titleOf) && AllHanded(pages, handed)
    ensures forall i :: 0 < i < |path| ==> HopShown(path[i - 1], path[i], handed, titleOf)
  {
    forall i | 0 < i < |path| ensures HopShown(path[i - 1], path[i], handed, titleOf) {
      assert HopFrom(path[i - 1], path[i], pages[i - 1], titleOf);
    }
  }

  // ------------------------------------------------------------------ the decision loop

  /** What happens on one hop: tokens reported so far, the two replies, the click and the page. */
  datatype Turn = Turn(used: nat, first: WikiRouting.Reply, second: WikiRouting.Reply, click: Click, outcome: Option<PageData>)

  const TOKEN_BUDGET := 300_000

  datatype Ending = Arrived(hops: nat) | OutOfHops | OutOfTokens | NoChoice | ClickFailed(error: Error)

  /** A reference that the article of some generation gave. */
  ghost predicate OfGeneration(ref: string, generation: nat) {
    exists index: nat :: ref == RefOf(generation, index)
  }

  /**
   * At most twenty choices and clicks, each of a reference of the article then current. Unless a
   * click fails, it reports arrival if and only if the last article is the target, and out of
   * hops only after twenty real hops.
   */
  method RunJev(race: Race, turns: nat -> Turn) returns (ending: Ending, ghost clicks: seq<string>)
    requires race.Valid() && race.fullLinks && |race.path| == 1 && !race.uncertain && race.RouteIsLive()
    modifies race
    ensures race.Valid()
    ensures |clicks| <= MAX_HOPS && forall i :: 0 <= i < |clicks| ==> OfGeneration(clicks[i], i + 1)
    ensures |race.path| - 1 <= |clicks| && (!ending.ClickFailed? ==> |race.path| - 1 == |clicks|)
    ensures !ending.ClickFailed? ==>
              (ending.Arrived? <==> race.titleOf(race.currentUrl) == Some(race.target) && |race.path| > 1)
    ensures ending.Arrived? ==> ending.hops == |race.path| - 1
    ensures ending.OutOfHops? ==> |race.path| == MAX_HOPS + 1
    ensures race.uncertain ==> ending.ClickFailed?
  {
    clicks := [];
    for hop := 0 to MAX_HOPS
      invariant race.Valid() && !race.uncertain && race.RouteIsLive()
      invariant |race.path| == hop + 1 && |clicks| == hop
      invariant forall i :: 0 <= i < |clicks| ==> OfGeneration(clicks[i], i + 1)
      invariant hop > 0 ==> race.titleOf(race.currentUrl) != Some(race.target)
    {
      if turns(hop).used >= TOKEN_BUDGET { return OutOfTokens, clicks; }
      var next, ref := TakeHop(race, turns(hop));
      if next.None? { return NoChoice, clicks; }
      clicks := clicks + [ref];
      if next.value.Err? { return ClickFailed(next.value.error), clicks; }
      if next.value.value.reached { return Arrived(|race.path| - 1), clicks; }
    }
    ending := OutOfHops;
  }

  /** Choose among all links of the current article and click the choice, if there is one. */
  method TakeHop(race: Race, turn: Turn) returns (next: Option<Result<Observation, Error>>, ref: string)
    requires race.Valid() && race.RouteIsLive() && !race.uncertain
    modifies race
    ensures race.Valid()
    ensures next.None? ==> race.path == old(race.path) && race.currentUrl == old(race.currentUrl) && !race.uncertain
    ensures next.Some? ==> OfGeneration(ref, old(race.generation))
    ensures next.Some? && next.value.Ok? ==>
              && race.RouteIsLive() && !race.uncertain && |race.path| == |old(race.path)| + 1
              && (next.value.value.reached <==> race.titleOf(race.currentUrl) == Some(race.target) && |race.path| > 1)
    ensures |old(race.path)| <= |race.path| <= |old(race.path)| + 1
  {
    var selected, _ := WikiRouting.ChooseRoute(race.route, turn.first, turn.second);
    if selected.Err? { return None, ""; }
    ref := selected.value.ref;
    assert race.observed != map[] && ref in race.observed && OfGeneration(ref, race.generation);
    var followed := race.Follow(ref, turn.click, turn.outcome);
    next := Some(followed);
  }
}
