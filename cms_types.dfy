/**
 * The content model of the site: polymorphic blocks, sections whose layout
 * template is an open-ended string, pages, and a navigation tree.
 */
module CmsTypes {
  import opened Wrappers

  datatype Image = Image(src: string, alt: string, width: Option<real>, height: Option<real>)

  /** A link; `caption` is the `label` field (a reserved word here). */
  datatype Link = Link(caption: string, href: string, external: Option<bool>)

  datatype HeroBlock = HeroBlock(
    heading: string,
    subheading: Option<string>,
    image: Option<Image>,
    cta: Option<Link>,
    secondaryCta: Option<Link>)

  datatype CardBlock = CardBlock(
    title: string,
    description: string,
    image: Option<Image>,
    link: Option<Link>)

  datatype TextBlock = TextBlock(heading: Option<string>, body: string)

  /** A content block is exactly one of the three block kinds. */
  datatype ContentBlock = Hero(hero: HeroBlock) | Card(card: CardBlock) | Text(text: TextBlock)

  /** A section; `kind` is the `type` field, which names a layout template and is any string. */
  datatype Section = Section(
    id: string,
    kind: string,
    heading: Option<string>,
    subheading: Option<string>,
    blocks: seq<ContentBlock>)

  datatype Page = Page(slug: string, title: string, description: Option<string>, sections: seq<Section>)

  /** A navigation item; `caption` is its `label`, `children` nest to any depth. */
  datatype NavItem = NavItem(caption: string, href: string, children: Children)

  /** The optional `children` array of a navigation item. */
  datatype Children = NoChildren | Nested(items: seq<NavItem>)

  datatype SiteNavigation = SiteNavigation(items: seq<NavItem>)

  /** The `type` discriminant a block carries; it identifies the block kind. */
  function TypeTag(b: ContentBlock): (tag: string)
    ensures tag == "hero" <==> b.Hero?
    ensures tag == "card" <==> b.Card?
    ensures tag == "text" <==> b.Text?
  {
    match b
    case Hero(_) => "hero"
    case Card(_) => "card"
    case Text(_) => "text"
  }

  /** Depth of a navigation tree: 1 for an item without children. */
  function Depth(item: NavItem): (d: nat)
    ensures d >= 1
    decreases item
  {
    1 + ChildrenDepth(item.children)
  }

  function ChildrenDepth(children: Children): (d: nat)
    decreases children
  {
    match children
    case NoChildren => 0
    case Nested(kids) => MaxDepth(kids)
  }

  function MaxDepth(items: seq<NavItem>): (d: nat)
    ensures forall i :: 0 <= i < |items| ==> Depth(items[i]) <= d
    ensures items == [] ==> d == 0
    decreases items
  {
    if items == [] then 0
    else
      var rest := MaxDepth(items[1..]);
      var first := Depth(items[0]);
      if first >= rest then first else rest
  }

  /** A chain of `n` nested items below a root; used to show the nesting is unbounded. */
  function Chain(n: nat): NavItem
  {
    if n == 0 then NavItem("", "", NoChildren) else NavItem("", "", Nested([Chain(n - 1)]))
  }

  /** Navigation items nest to any depth. */
  lemma {:induction false} NavNestsToAnyDepth(n: nat)
    ensures Depth(Chain(n)) == n + 1
  {
    if n > 0 {
      NavNestsToAnyDepth(n - 1);
      assert MaxDepth([Chain(n - 1)]) == Depth(Chain(n - 1)) by {
        assert [Chain(n - 1)][1..] == [];
      }
    }
  }
}
