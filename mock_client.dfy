/**
 * The development content provider: a fixed table of six pages, a fixed
 * navigation of five items, and lookup of a page by its slug.
 */
module MockClient {
  import opened Wrappers
  import opened CmsTypes

  // Long copy is held in constants so that proofs about the table's
  // structure do not have to unfold every character of it.
  const HomeDescription := "YuLife transforms employee benefits with a fresh approach that rewards healthy living."
  const HomeHeroSubheading := "YuLife transforms employee benefits into a force for good — rewarding your team for healthy habits, every single day."
  const HomeFeaturesSubheading := "A benefits platform that employees actually use and love."
  const HomeLifeInsuranceCopy := "Group life insurance designed to protect your people and their families, with built-in wellbeing rewards."
  const HomeWellbeingCopy := "From mental health support to fitness challenges, we make it easy for your team to thrive."
  const HomeEngagementCopy := "Gamified rewards turn healthy habits into real perks — boosting engagement across your organisation."
  const HomeCtaBody := "Join hundreds of forward-thinking companies already using YuLife to engage and protect their teams."
  const ProductsDescription := "Explore YuLife's suite of employee benefits products."
  const ProductsHeroSubheading := "From life insurance to wellness programs, our products make employee benefits engaging and effective."
  const ProductsLifeCopy := "Comprehensive life cover with instant payouts and built-in wellbeing rewards that make a difference."
  const ProductsCriticalIllnessCopy := "Financial protection when it matters most, with support for over 50 critical conditions."
  const ProductsIncomeCopy := "Safeguard your team's income with comprehensive protection that covers sickness and injury."
  const ProductsWellnessCopy := "A gamified app that rewards healthy habits with perks your team will actually use."
  const SolutionsDescription := "YuLife solutions tailored to your industry and team size."
  const SolutionsHeroSubheading := "Whether you're a startup or an enterprise, we have a benefits solution that fits your needs."
  const SolutionsTechCopy := "Attract top talent with benefits that reflect your innovative culture and fast-paced environment."
  const SolutionsEnterpriseCopy := "Scale benefits across thousands of employees with robust admin tools and dedicated support."
  const SolutionsSmeCopy := "Affordable, flexible benefits that grow with your business — no long-term commitments required."
  const PricingDescription := "Simple, transparent pricing for YuLife employee benefits."
  const PricingHeroSubheading := "No hidden fees, no surprises. Just straightforward pricing that works for teams of any size."
  const PricingStarterCopy := "Perfect for small teams. Includes group life insurance and access to the wellness app. Starting at £3 per employee per month."
  const PricingGrowthCopy := "For growing companies. All Starter features plus critical illness cover and enhanced rewards. Starting at £5 per employee per month."
  const PricingEnterpriseCopy := "For large organisations. Full product suite with dedicated support and custom integrations. Contact us for pricing."
  const AboutDescription := "Learn about YuLife's mission to transform employee benefits."
  const AboutHeroSubheading := "We believe benefits should inspire people, not just protect them. That's why we built YuLife."
  const AboutMissionBody := "YuLife was founded to transform insurance from a grudge purchase into something people love and engage with every day. We combine financial protection with wellness rewards to create benefits that make a real difference."
  const AboutPeopleCopy := "Everything we do starts with understanding what employees and employers truly need."
  const AboutInnovationCopy := "We challenge the status quo and constantly push boundaries to deliver better experiences."
  const AboutImpactCopy := "We measure success by the positive impact we have on people's health, happiness, and financial security."
  const BlogDescription := "Insights on employee benefits, wellbeing, and workplace culture."
  const BlogHeroSubheading := "Expert advice on employee benefits, wellbeing strategies, and building better workplaces."
  const BlogEngagementCopy := "Discover proven strategies to increase engagement and retention in your organisation."
  const BlogRoiCopy := "How investing in wellbeing delivers measurable returns for your business."
  const BlogLifeGuideCopy := "A comprehensive guide to group life insurance and why it matters for your team."

  function Card(title: string, description: string): ContentBlock
  {
    ContentBlock.Card(CardBlock(title, description, None, None))
  }

  function LinkedCard(title: string, description: string, caption: string, href: string): ContentBlock
  {
    ContentBlock.Card(CardBlock(title, description, None, Some(Link(caption, href, None))))
  }

  function HomePage(): Page
  {
    Page(
      "/",
      "YuLife — Employee Benefits That People Love",
      Some(HomeDescription),
      [ Section("hero", "hero", None, None, [
          Hero(HeroBlock(
            "Employee benefits that inspire wellbeing",
            Some(HomeHeroSubheading),
            None,
            Some(Link("Get a demo", "/contact", None)),
            Some(Link("Learn more", "#features", None))))]),
        Section("features", "cards", Some("Why teams choose YuLife"), Some(HomeFeaturesSubheading), [
          Card("Life Insurance", HomeLifeInsuranceCopy),
          Card("Health & Wellbeing", HomeWellbeingCopy),
          Card("Employee Engagement", HomeEngagementCopy)]),
        Section("cta", "text", None, None, [
          Text(TextBlock(
            Some("Ready to transform your benefits?"),
            HomeCtaBody))])])
  }

  function ProductsPage(): Page
  {
    Page(
      "/products",
      "Products — YuLife",
      Some(ProductsDescription),
      [ Section("hero", "hero", None, None, [
          Hero(HeroBlock(
            "Products designed for modern teams",
            Some(ProductsHeroSubheading),
            None, None, None))]),
        Section("products", "cards", Some("Our Product Suite"), None, [
          LinkedCard("Group Life Insurance", ProductsLifeCopy, "Learn more", "/products/life-insurance"),
          LinkedCard("Critical Illness Cover", ProductsCriticalIllnessCopy, "Learn more", "/products/critical-illness"),
          LinkedCard("Income Protection", ProductsIncomeCopy, "Learn more", "/products/income-protection"),
          LinkedCard("Wellness Platform", ProductsWellnessCopy, "Learn more", "/products/wellness")])])
  }

  function SolutionsPage(): Page
  {
    Page(
      "/solutions",
      "Solutions — YuLife",
      Some(SolutionsDescription),
      [ Section("hero", "hero", None, None, [
          Hero(HeroBlock(
            "Solutions for every organisation",
            Some(SolutionsHeroSubheading),
            None, None, None))]),
        Section("solutions", "cards", Some("Built for Your Industry"), None, [
          Card("Tech & Startups", SolutionsTechCopy),
          Card("Enterprise", SolutionsEnterpriseCopy),
          Card("SMEs", SolutionsSmeCopy)])])
  }

  function PricingPage(): Page
  {
    Page(
      "/pricing",
      "Pricing — YuLife",
      Some(PricingDescription),
      [ Section("hero", "hero", None, None, [
          Hero(HeroBlock(
            "Transparent pricing that scales",
            Some(PricingHeroSubheading),
            None,
            Some(Link("Get a quote", "/contact", None)),
            None))]),
        Section("pricing-cards", "cards", Some("Choose Your Plan"), None, [
          Card("Starter", PricingStarterCopy),
          Card("Growth", PricingGrowthCopy),
          Card("Enterprise", PricingEnterpriseCopy)])])
  }

  function AboutPage(): Page
  {
    Page(
      "/about",
      "About — YuLife",
      Some(AboutDescription),
      [ Section("hero", "hero", None, None, [
          Hero(HeroBlock(
            "Rethinking employee benefits",
            Some(AboutHeroSubheading),
            None, None, None))]),
        Section("mission", "text", None, None, [
          Text(TextBlock(
            Some("Our Mission"),
            AboutMissionBody))]),
        Section("values", "cards", Some("Our Values"), None, [
          Card("People First", AboutPeopleCopy),
          Card("Innovation", AboutInnovationCopy),
          Card("Impact", AboutImpactCopy)])])
  }

  function BlogPage(): Page
  {
    Page(
      "/blog",
      "Blog — YuLife",
      Some(BlogDescription),
      [ Section("hero", "hero", None, None, [
          Hero(HeroBlock(
            "Insights & Resources",
            Some(BlogHeroSubheading),
            None, None, None))]),
        Section("articles", "cards", Some("Latest Articles"), None, [
          LinkedCard("5 Ways to Boost Employee Engagement in 2026", BlogEngagementCopy, "Read article", "/blog/boost-engagement-2026"),
          LinkedCard("The ROI of Employee Wellbeing Programs", BlogRoiCopy, "Read article", "/blog/wellbeing-roi"),
          LinkedCard("Understanding Group Life Insurance", BlogLifeGuideCopy, "Read article", "/blog/group-life-guide")])])
  }

  /** The `pages` table, in its declared order: home, products, solutions, pricing, about, blog. */
  function Pages(): (r: seq<Page>)
    ensures |r| == 6
    ensures r[0].slug == "/" && r[1].slug == "/products" && r[2].slug == "/solutions"
    ensures r[3].slug == "/pricing" && r[4].slug == "/about" && r[5].slug == "/blog"
    ensures r[5] == BlogPage()
  {
    [HomePage(), ProductsPage(), SolutionsPage(), PricingPage(), AboutPage(), BlogPage()]
  }

  /** The `navigation` constant: five top-level links, none with children. */
  function Navigation(): (r: SiteNavigation)
    ensures |r.items| == 5
    ensures forall i :: 0 <= i < |r.items| ==> r.items[i].children == NoChildren
  {
    SiteNavigation([
      NavItem("Products", "/products", NoChildren),
      NavItem("Solutions", "/solutions", NoChildren),
      NavItem("Pricing", "/pricing", NoChildren),
      NavItem("About", "/about", NoChildren),
      NavItem("Blog", "/blog", NoChildren)])
  }

  /** `pages.find((p) => p.slug === slug) ?? null` over any table. */
  function FindBySlug(pages: seq<Page>, slug: string): (r: Option<Page>)
    ensures r.None? <==> forall i :: 0 <= i < |pages| ==> pages[i].slug != slug
    ensures r.Some? ==> exists i :: 0 <= i < |pages| && pages[i] == r.value && r.value.slug == slug
                                    && forall j :: 0 <= j < i ==> pages[j].slug != slug
  {
    if pages == [] then None
    else if pages[0].slug == slug then Some(pages[0])
    else
      var r := FindBySlug(pages[1..], slug);
      assert r.Some? ==> exists i :: 0 < i < |pages| && pages[i] == r.value && r.value.slug == slug
                                     && forall j :: 0 <= j < i ==> pages[j].slug != slug by {
        if r.Some? {
          var k :| 0 <= k < |pages| - 1 && pages[1..][k] == r.value && r.value.slug == slug
                   && forall j :: 0 <= j < k ==> pages[1..][j].slug != slug;
          assert forall j :: 0 < j < k + 1 ==> pages[j].slug != slug by {
            forall j | 0 < j < k + 1 ensures pages[j].slug != slug {
              assert pages[j] == pages[1..][j - 1];
            }
          }
        }
      }
      r
  }

  /** `getPage`: the first page of the table with the given slug, or null. */
  function GetPage(slug: string): (r: Option<Page>)
    ensures r.Some? ==> r.value.slug == slug && r.value in Pages()
    ensures r.None? <==> forall p :: p in Pages() ==> p.slug != slug
  {
    FindBySlug(Pages(), slug)
  }

  /** `getPages`: the whole table, unchanged and in its order. */
  function GetPages(): (r: seq<Page>)
    ensures r == Pages()
    ensures |r| == 6
    ensures forall slug :: GetPage(slug).Some? <==> exists i :: 0 <= i < |r| && r[i].slug == slug
  {
    Pages()
  }

  /** `getNavigation`. */
  function GetNavigation(): (r: SiteNavigation)
    ensures |r.items| == 5
  {
    Navigation()
  }

  function Slugs(pages: seq<Page>): (r: seq<string>)
    ensures |r| == |pages| && forall i :: 0 <= i < |pages| ==> r[i] == pages[i].slug
  {
    if pages == [] then [] else [pages[0].slug] + Slugs(pages[1..])
  }

  /** The table's slugs are pairwise distinct, so a slug identifies a page. */
  lemma SlugsDistinct()
    ensures forall i, j :: 0 <= i < j < |Pages()| ==> Pages()[i].slug != Pages()[j].slug
  {
    var s := Slugs(Pages());
    assert s == ["/", "/products", "/solutions", "/pricing", "/about", "/blog"];
  }

  /** With distinct slugs, `getPage` finds a page exactly when it is in the table. */
  lemma GetPageExact(slug: string, p: Page)
    ensures GetPage(slug) == Some(p) <==> p in Pages() && p.slug == slug
  {
    SlugsDistinct();
  }

  /** Every navigation link points at a page of the table, in the listed order. */
  lemma NavigationTargetsPages()
    ensures [ GetNavigation().items[0].href, GetNavigation().items[1].href, GetNavigation().items[2].href,
              GetNavigation().items[3].href, GetNavigation().items[4].href ]
         == ["/products", "/solutions", "/pricing", "/about", "/blog"]
    ensures forall k :: 0 <= k < |GetNavigation().items| ==> GetPage(GetNavigation().items[k].href).Some?
  {
    var items := GetNavigation().items;
    var pages := Pages();
    assert pages[1].slug == items[0].href;
    assert pages[2].slug == items[1].href;
    assert pages[3].slug == items[2].href;
    assert pages[4].slug == items[3].href;
    assert pages[5].slug == items[4].href;
  }

  predicate HasHero(blocks: seq<ContentBlock>) { exists i :: 0 <= i < |blocks| && blocks[i].Hero? }

  predicate HasText(blocks: seq<ContentBlock>) { exists i :: 0 <= i < |blocks| && blocks[i].Text? }

  predicate AllCards(blocks: seq<ContentBlock>) { forall i :: 0 <= i < |blocks| ==> blocks[i].Card? }

  /** In the data, each section's template has the blocks that template reads. */
  predicate TemplateFits(s: Section)
  {
    && (s.kind == "hero" ==> HasHero(s.blocks))
    && (s.kind == "cards" ==> AllCards(s.blocks))
    && (s.kind == "text" ==> HasText(s.blocks))
  }

  lemma TemplatesFitBlocks()
    ensures forall p :: p in Pages() ==> forall s :: s in p.sections ==> TemplateFits(s)
  {
    assert HomePage().sections[0].blocks[0].Hero?;
    assert HomePage().sections[2].blocks[0].Text?;
    assert ProductsPage().sections[0].blocks[0].Hero?;
    assert SolutionsPage().sections[0].blocks[0].Hero?;
    assert PricingPage().sections[0].blocks[0].Hero?;
    assert AboutPage().sections[0].blocks[0].Hero?;
    assert AboutPage().sections[1].blocks[0].Text?;
    assert BlogPage().sections[0].blocks[0].Hero?;
  }
}
