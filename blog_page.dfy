/**
 * The blog page: fetch the `/blog` page and the navigation, then walk the
 * page's sections in order and pick a renderer for each by its `type`.
 * Absence of a page, of a block or of a known template is never an error.
 */
module BlogPage {
  import opened Wrappers
  import opened CmsTypes
  import MockClient
  import CardsSection
  import Header

  /** What one section renders to; `key` is the section's id. */
  datatype SectionOutput =
    | HeroSection(key: string, hero: HeroBlock)
    | CardsSection(key: string, section: Section)
    | TextSection(key: string, text: TextBlock)

  /** The page: either the not-found message, or the header's links and one slot per section. */
  datatype PageView =
    | PageNotFound
    | Rendered(header: seq<Header.NavLink>, main: seq<Option<SectionOutput>>)

  /** `i` is the position of the first hero block. */
  predicate FirstHeroAt(blocks: seq<ContentBlock>, i: int)
  {
    0 <= i < |blocks| && blocks[i].Hero? && forall j :: 0 <= j < i ==> !blocks[j].Hero?
  }

  /** `i` is the position of the first text block. */
  predicate FirstTextAt(blocks: seq<ContentBlock>, i: int)
  {
    0 <= i < |blocks| && blocks[i].Text? && forall j :: 0 <= j < i ==> !blocks[j].Text?
  }

  /** `section.blocks.find((b) => b.type === "hero")`. */
  function FindHero(blocks: seq<ContentBlock>): (r: Option<HeroBlock>)
    ensures r.None? <==> forall i :: 0 <= i < |blocks| ==> !blocks[i].Hero?
    ensures r.Some? ==> exists i :: FirstHeroAt(blocks, i) && blocks[i] == Hero(r.value)
  {
    if blocks == [] then None
    else if blocks[0].Hero? then
      assert FirstHeroAt(blocks, 0);
      Some(blocks[0].hero)
    else
      var r := FindHero(blocks[1..]);
      assert r.Some? ==> exists i :: FirstHeroAt(blocks, i) && blocks[i] == Hero(r.value) by {
        if r.Some? {
          var k :| FirstHeroAt(blocks[1..], k) && blocks[1..][k] == Hero(r.value);
          assert FirstHeroAt(blocks, k + 1);
        }
      }
      assert r.None? ==> forall i :: 0 <= i < |blocks| ==> !blocks[i].Hero? by {
        if r.None? {
          forall i | 0 < i < |blocks| ensures !blocks[i].Hero? {
            assert blocks[i] == blocks[1..][i - 1];
          }
        }
      }
      r
  }

  /** `section.blocks.find((b) => b.type === "text")`. */
  function FindText(blocks: seq<ContentBlock>): (r: Option<TextBlock>)
    ensures r.None? <==> forall i :: 0 <= i < |blocks| ==> !blocks[i].Text?
    ensures r.Some? ==> exists i :: FirstTextAt(blocks, i) && blocks[i] == Text(r.value)
  {
    if blocks == [] then None
    else if blocks[0].Text? then
      assert FirstTextAt(blocks, 0);
      Some(blocks[0].text)
    else
      var r := FindText(blocks[1..]);
      assert r.Some? ==> exists i :: FirstTextAt(blocks, i) && blocks[i] == Text(r.value) by {
        if r.Some? {
          var k :| FirstTextAt(blocks[1..], k) && blocks[1..][k] == Text(r.value);
          assert FirstTextAt(blocks, k + 1);
        }
      }
      assert r.None? ==> forall i :: 0 <= i < |blocks| ==> !blocks[i].Text? by {
        if r.None? {
          forall i | 0 < i < |blocks| ensures !blocks[i].Text? {
            assert blocks[i] == blocks[1..][i - 1];
          }
        }
      }
      r
  }

  predicate KnownTemplate(kind: string)
  {
    kind == "hero" || kind == "cards" || kind == "text"
  }

  /** The `switch (section.type)` for one section. */
  function RenderSection(s: Section): (r: Option<SectionOutput>)
    ensures r.Some? ==> r.value.key == s.id
    ensures !KnownTemplate(s.kind) ==> r.None?
    ensures s.kind == "hero" ==> (r.Some? <==> exists i :: 0 <= i < |s.blocks| && s.blocks[i].Hero?)
    ensures s.kind == "hero" && r.Some? ==>
              r.value.HeroSection? && exists i :: FirstHeroAt(s.blocks, i) && s.blocks[i] == Hero(r.value.hero)
    ensures s.kind == "cards" ==> r == Some(CardsSection(s.id, s))
    ensures s.kind == "text" ==> (r.Some? <==> exists i :: 0 <= i < |s.blocks| && s.blocks[i].Text?)
    ensures s.kind == "text" && r.Some? ==>
              r.value.TextSection? && exists i :: FirstTextAt(s.blocks, i) && s.blocks[i] == Text(r.value.text)
  {
    if s.kind == "hero" then
      match FindHero(s.blocks)
      case Some(h) => Some(HeroSection(s.id, h))
      case None => None
    else if s.kind == "cards" then
      Some(CardsSection(s.id, s))
    else if s.kind == "text" then
      match FindText(s.blocks)
      case Some(t) => Some(TextSection(s.id, t))
      case None => None
    else
      None
  }

  /** `page.sections.map(...)`: one output slot per section, in page order. */
  function Resolve(sections: seq<Section>): (r: seq<Option<SectionOutput>>)
    ensures |r| == |sections|
    ensures forall i :: 0 <= i < |sections| ==> r[i] == RenderSection(sections[i])
  {
    if sections == [] then [] else [RenderSection(sections[0])] + Resolve(sections[1..])
  }

  /** Resolution is compositional: the slots of a page are those of its parts, in order. */
  lemma ResolveAppend(a: seq<Section>, b: seq<Section>)
    ensures Resolve(a + b) == Resolve(a) + Resolve(b)
  {
    var r := Resolve(a + b);
    assert forall i :: 0 <= i < |a| ==> (a + b)[i] == a[i];
    assert forall i :: |a| <= i < |a| + |b| ==> (a + b)[i] == b[i - |a|];
  }

  /** Replacing one section (by an unknown template, say) leaves every other slot as it was. */
  lemma ResolveIsolatesSections(sections: seq<Section>, k: nat, s: Section)
    requires k < |sections|
    ensures |Resolve(sections[k := s])| == |Resolve(sections)|
    ensures forall i :: 0 <= i < |sections| && i != k ==> Resolve(sections[k := s])[i] == Resolve(sections)[i]
    ensures !KnownTemplate(s.kind) ==> Resolve(sections[k := s])[k].None?
  {
  }

  /** The body of the page component, given what the two fetches returned. */
  function RenderPage(page: Option<Page>, navigation: SiteNavigation): (v: PageView)
    ensures page.None? <==> v == PageNotFound
    ensures page.Some? ==> v.header == Header.NavLinks(navigation)
    ensures page.Some? ==> |v.main| == |page.value.sections|
    ensures page.Some? ==> forall i :: 0 <= i < |v.main| ==> v.main[i] == RenderSection(page.value.sections[i])
  {
    match page
    case None => PageNotFound
    case Some(p) => Rendered(Header.NavLinks(navigation), Resolve(p.sections))
  }

  /**
   * `BlogPage()`: the page with slug `/blog`, together with the navigation. With
   * the mock table the lookup finds the blog page, so the not-found branch is
   * never taken.
   */
  function View(): (v: PageView)
    ensures v.Rendered?
    ensures v == RenderPage(Some(MockClient.BlogPage()), MockClient.GetNavigation())
  {
    BlogLookup();
    RenderPage(MockClient.GetPage("/blog"), MockClient.GetNavigation())
  }

  /** The lookup the blog page makes finds the sixth page of the table. */
  lemma BlogLookup()
    ensures MockClient.GetPage("/blog") == Some(MockClient.BlogPage())
  {
    var blog := MockClient.BlogPage();
    assert MockClient.Pages()[5] == blog;
    MockClient.GetPageExact("/blog", blog);
  }

  /** The blog page's hero section renders its hero block. */
  lemma BlogHero()
    ensures RenderSection(MockClient.BlogPage().sections[0])
         == Some(HeroSection("hero", MockClient.BlogPage().sections[0].blocks[0].hero))
    ensures MockClient.BlogPage().sections[0].blocks[0].hero.heading == "Insights & Resources"
  {
    var hero := MockClient.BlogPage().sections[0];
    assert FirstHeroAt(hero.blocks, 0);
  }

  /** The blog page's cards section shows its three articles in table order. */
  lemma BlogCards()
    ensures RenderSection(MockClient.BlogPage().sections[1])
         == Some(CardsSection("articles", MockClient.BlogPage().sections[1]))
    ensures var items := CardsSection.View(MockClient.BlogPage().sections[1]).items;
            && |items| == 3
            && items[0].title == "5 Ways to Boost Employee Engagement in 2026"
            && items[1].title == "The ROI of Employee Wellbeing Programs"
            && items[2].title == "Understanding Group Life Insurance"
  {
    var cards := MockClient.BlogPage().sections[1];
    CardsSection.CardBlocksAllCards(cards.blocks);
  }

  /**
   * With the mock table, the blog page renders the five navigation links and
   * exactly two sections: the hero "Insights & Resources" and a grid of three
   * articles in table order.
   */
  lemma BlogScenario()
    ensures View().Rendered?
    ensures |View().header| == 5
    ensures |View().main| == 2
    ensures View().main[0].Some? && View().main[0].value.HeroSection?
    ensures View().main[0].value.hero.heading == "Insights & Resources"
    ensures View().main[1].Some? && View().main[1].value.CardsSection?
    ensures |CardsSection.View(View().main[1].value.section).items| == 3
  {
    BlogLookup();
    BlogHero();
    BlogCards();
  }
}
