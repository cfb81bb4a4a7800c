/**
 * The `cards` section template: it keeps only the card blocks of a section,
 * lays them out one grid item per card, and shows the section's heading
 * group only when there is something in it.
 */
module CardsSection {
  import opened Wrappers
  import opened CmsTypes

  /** Column spans of a grid item: default, at the `sm` and at the `lg` breakpoint. */
  datatype Span = Span(base: nat, sm: nat, lg: nat)

  /** One grid cell: the card's title, description and optional link. */
  datatype GridItem = GridItem(span: Span, title: string, description: string, link: Option<Link>)

  /** The heading group; each part is present only when it is shown. */
  datatype HeadingGroup = HeadingGroup(heading: Option<string>, subheading: Option<string>)

  /** The rendered `<section>`: its element id, the optional heading group and the grid. */
  datatype CardsView = CardsView(id: string, headingGroup: Option<HeadingGroup>, items: seq<GridItem>)

  const CardSpan := Span(12, 6, 4)

  /** `section.blocks.filter((b) => b.type === "card")`. */
  function CardBlocks(blocks: seq<ContentBlock>): (cards: seq<CardBlock>)
    ensures |cards| <= |blocks|
    ensures forall c :: c in cards <==> Card(c) in blocks
  {
    if blocks == [] then []
    else
      var rest := CardBlocks(blocks[1..]);
      assert forall c :: Card(c) in blocks <==> Card(c) == blocks[0] || Card(c) in blocks[1..];
      if blocks[0].Card? then [blocks[0].card] + rest else rest
  }

  /** The number of blocks tagged `card`. */
  function CountCards(blocks: seq<ContentBlock>): nat
  {
    if blocks == [] then 0 else (if blocks[0].Card? then 1 else 0) + CountCards(blocks[1..])
  }

  /** The filter distributes over concatenation, so it keeps the blocks' relative order. */
  lemma {:induction false} CardBlocksAppend(a: seq<ContentBlock>, b: seq<ContentBlock>)
    ensures CardBlocks(a + b) == CardBlocks(a) + CardBlocks(b)
  {
    if a == [] {
      assert a + b == b;
    } else {
      assert (a + b)[1..] == a[1..] + b;
      CardBlocksAppend(a[1..], b);
    }
  }

  /** A single block yields its card, or nothing when it is not a card. */
  lemma CardBlocksSingle(b: ContentBlock)
    ensures CardBlocks([b]) == if b.Card? then [b.card] else []
  {
    assert [b][1..] == [];
  }

  /** There are exactly as many extracted cards as blocks tagged `card`. */
  lemma {:induction false} CardBlocksCount(blocks: seq<ContentBlock>)
    ensures |CardBlocks(blocks)| == CountCards(blocks)
  {
    if blocks != [] {
      CardBlocksCount(blocks[1..]);
    }
  }

  /** Blocks of other kinds never reach the grid. */
  lemma {:induction false} CardBlocksIgnoresOthers(blocks: seq<ContentBlock>)
    requires forall i :: 0 <= i < |blocks| ==> !blocks[i].Card?
    ensures CardBlocks(blocks) == []
  {
    if blocks != [] {
      CardBlocksIgnoresOthers(blocks[1..]);
    }
  }

  /** A section whose blocks are all cards shows every one of them, in order. */
  lemma {:induction false} CardBlocksAllCards(blocks: seq<ContentBlock>)
    requires forall i :: 0 <= i < |blocks| ==> blocks[i].Card?
    ensures |CardBlocks(blocks)| == |blocks|
    ensures forall i :: 0 <= i < |blocks| ==> blocks[i] == Card(CardBlocks(blocks)[i])
  {
    if blocks != [] {
      CardBlocksAllCards(blocks[1..]);
    }
  }

  function ItemFor(card: CardBlock): (item: GridItem)
    ensures item.span == Span(12, 6, 4)
    ensures item.title == card.title && item.description == card.description
    ensures item.link.Some? <==> card.link.Some?
    ensures item.link.Some? ==> item.link.value == card.link.value
  {
    GridItem(CardSpan, card.title, card.description, card.link)
  }

  /** `CardsSection({ section })`. */
  function View(section: Section): (v: CardsView)
    ensures v.id == section.id
    ensures v.headingGroup.Some? <==> Truthy(section.heading) || Truthy(section.subheading)
    ensures v.headingGroup.Some? ==>
              && (v.headingGroup.value.heading.Some? <==> Truthy(section.heading))
              && (v.headingGroup.value.heading.Some? ==> v.headingGroup.value.heading == section.heading)
              && (v.headingGroup.value.subheading.Some? <==> Truthy(section.subheading))
              && (v.headingGroup.value.subheading.Some? ==> v.headingGroup.value.subheading == section.subheading)
    ensures |v.items| == |CardBlocks(section.blocks)|
    ensures forall i :: 0 <= i < |v.items| ==>
              var card := CardBlocks(section.blocks)[i];
              && v.items[i].span == Span(12, 6, 4)
              && v.items[i].title == card.title
              && v.items[i].description == card.description
              && v.items[i].link == card.link
  {
    var cards := CardBlocks(section.blocks);
    var group :=
      if Truthy(section.heading) || Truthy(section.subheading) then
        Some(HeadingGroup(
          if Truthy(section.heading) then section.heading else None,
          if Truthy(section.subheading) then section.subheading else None))
      else None;
    CardsView(section.id, group, seq(|cards|, i requires 0 <= i < |cards| => ItemFor(cards[i])))
  }

  /** With no card blocks the section still renders, with its heading group and an empty grid. */
  lemma EmptyGridKeepsShell(section: Section)
    requires forall i :: 0 <= i < |section.blocks| ==> !section.blocks[i].Card?
    ensures View(section).items == []
    ensures View(section).id == section.id
    ensures Truthy(section.heading) ==> View(section).headingGroup.Some?
  {
    CardBlocksIgnoresOthers(section.blocks);
  }
}
