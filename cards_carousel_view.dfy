/**
 * The `CardsCarousel` component: renders one card per offset of the
 * carousel's window, dispatches a click on a side card to `goTo` and a click
 * on the centred card to `onSelect`, and wires the two navigation buttons and
 * the pointer events of the stage to the carousel.
 */
module CardsCarouselView {
  import opened Wrappers
  import opened UseCardsCarousel

  /** An item to show; its `render(isCenter)` is represented by the `center` flag a card carries. */
  datatype Item = Item(id: string)

  /** One rendered card: its offset, the item index and id it shows, whether it is centred, its style. */
  datatype RenderedCard = RenderedCard(offset: int, index: int, id: string, center: bool, style: CardStyle)

  /** One `onSelect(id, index)` call. */
  datatype Selection = Selection(id: string, index: int)

  /** The card rendered at offset `k`. */
  function CardAt(items: seq<Item>, c: Carousel, k: int): (card: RenderedCard)
    reads c
    requires c.total == |items| > 0 && IsIndex(c.current, c.total)
    ensures card.offset == k && card.index == Wrap(c.current + k, c.total)
    ensures card.id == items[card.index].id
    ensures card.center <==> card.index == c.current
    ensures card.style == StyleForOffset(k, c.geometry)
  {
    var idx := c.IndexAtOffset(k);
    WrapOfIndex(idx, c.total);
    RenderedCard(k, idx, items[idx].id, c.IsCenterIndex(idx), StyleForOffset(k, c.geometry))
  }

  /** `offsetWindow.map(k => ...)`: the cards rendered for the carousel's current state. */
  function Render(items: seq<Item>, c: Carousel): (cards: seq<RenderedCard>)
    reads c
    requires c.total == |items| > 0 && IsIndex(c.current, c.total)
    ensures |cards| == |c.Window()|
    ensures forall j :: 0 <= j < |cards| ==> cards[j] == CardAt(items, c, c.Window()[j])
  {
    CardsAt(items, c, c.Window())
  }

  /** The cards for the offsets `ks`, in order. */
  function CardsAt(items: seq<Item>, c: Carousel, ks: seq<int>): (cards: seq<RenderedCard>)
    reads c
    requires c.total == |items| > 0 && IsIndex(c.current, c.total)
    ensures |cards| == |ks|
    ensures forall j :: 0 <= j < |ks| ==> cards[j] == CardAt(items, c, ks[j])
  {
    if ks == [] then [] else [CardAt(items, c, ks[0])] + CardsAt(items, c, ks[1..])
  }

  /** Within less than one full turn of a valid centre, only the offset 0 lands on the centre. */
  lemma OnlyZeroOffsetCentres(c: int, k: int, total: int)
    requires total > 0 && 0 <= c < total && -total < k < total
    ensures Wrap(c + k, total) == c <==> k == 0
  {
    var s := c + k;
    if 0 <= s < total {
      ModOfIndex(s, total);
    } else if s >= total {
      ModUnique(s, total, 1, s - total);
    } else {
      ModUnique(s, total, -1, s + total);
    }
  }

  /** Two offsets closer than one full turn show different items. */
  lemma NearOffsetsDiffer(c: int, k1: int, k2: int, total: int)
    requires total > 0 && 0 <= c < total && k1 < k2 && k2 - k1 < total
    ensures Wrap(c + k1, total) != Wrap(c + k2, total)
  {
    var c1 := Wrap(c + k1, total);
    WrapAddWrap(c + k1, k2 - k1, total);
    OnlyZeroOffsetCentres(c1, k2 - k1, total);
  }

  /** The card at position `left` of the window is the centred one and shows the current item. */
  lemma RenderCentre(items: seq<Item>, c: Carousel)
    requires c.total == |items| > 0 && IsIndex(c.current, c.total)
    ensures var cards := Render(items, c);
      Len(c.Left()) < |cards| && cards[Len(c.Left())].center && cards[Len(c.Left())].index == c.current
  {
    var w := c.Window();
    assert w[Len(c.Left())] == 0;
    WrapOfIndex(c.current, c.total);
  }

  /** Among offsets closer to 0 than one full turn, only offset 0 is centred. */
  lemma CardsCentreWithinTurn(items: seq<Item>, c: Carousel, ks: seq<int>)
    requires c.total == |items| > 0 && IsIndex(c.current, c.total)
    requires forall j :: 0 <= j < |ks| ==> -c.total < ks[j] < c.total
    ensures var cards := CardsAt(items, c, ks);
      forall j :: 0 <= j < |cards| ==> (cards[j].center <==> ks[j] == 0)
  {
    var cards := CardsAt(items, c, ks);
    forall j | 0 <= j < |cards|
      ensures cards[j].center <==> ks[j] == 0
    {
      OnlyZeroOffsetCentres(c.current, ks[j], c.total);
    }
  }

  /** Increasing offsets spanning less than one full turn show distinct items. */
  lemma CardsDistinctWithinTurn(items: seq<Item>, c: Carousel, ks: seq<int>)
    requires c.total == |items| > 0 && IsIndex(c.current, c.total)
    requires forall i, j :: 0 <= i < j < |ks| ==> ks[i] < ks[j] && ks[j] - ks[i] < c.total
    ensures var cards := CardsAt(items, c, ks);
      forall i, j :: 0 <= i < j < |cards| ==> cards[i].index != cards[j].index
  {
    var cards := CardsAt(items, c, ks);
    forall i, j | 0 <= i < j < |cards|
      ensures cards[i].index != cards[j].index
    {
      NearOffsetsDiffer(c.current, ks[i], ks[j], c.total);
    }
  }

  /**
   * When the window is no wider than the item count, the card at position
   * `left` is the only centred one and no item is shown twice.
   */
  lemma RenderWithinTurn(items: seq<Item>, c: Carousel)
    requires c.total == |items| > 0 && IsIndex(c.current, c.total)
    requires |c.Window()| <= c.total
    ensures var cards := Render(items, c);
      && (forall j :: 0 <= j < |cards| ==> (cards[j].center <==> j == Len(c.Left())))
      && (forall i, j :: 0 <= i < j < |cards| ==> cards[i].index != cards[j].index)
  {
    var w := c.Window();
    assert forall j :: 0 <= j < |w| ==> w[j] == j - Len(c.Left());
    CardsCentreWithinTurn(items, c, w);
    CardsDistinctWithinTurn(items, c, w);
  }

  /** The React keys `${idx}-${k}` are distinct: no two cards share an offset. */
  lemma RenderKeysDistinct(items: seq<Item>, c: Carousel)
    requires c.total == |items| > 0 && IsIndex(c.current, c.total)
    ensures var cards := Render(items, c);
      forall i, j :: 0 <= i < j < |cards| ==> cards[i].offset < cards[j].offset
  {
  }

  /** One mounted component: its items, the carousel it drives and the `onSelect` calls it made. */
  class View {
    const items: seq<Item>
    const carousel: Carousel
    /** Whether an `onSelect` callback was given. */
    const hasOnSelect: bool
    var selections: seq<Selection>

    ghost predicate Valid()
      reads this, carousel
    {
      && carousel.Valid()
      && carousel.total == |items| > 0
    }

    /** The cards on screen. */
    function Cards(): seq<RenderedCard>
      reads this, carousel
      requires Valid()
    {
      Render(items, carousel)
    }

    /** Mounting with `total: items.length` and the configuration passed through unchanged. */
    constructor (items: seq<Item>, cardWidth: Option<real>, gap: Option<real>, depth: Option<real>,
                 tilt: Option<real>, sideCounts: Option<SideCounts>, hasOnSelect: bool, viewportWidth: real)
      requires |items| > 0
      ensures Valid() && fresh(carousel)
      ensures this.items == items && this.hasOnSelect == hasOnSelect && selections == []
      ensures carousel.total == |items| && carousel.current == 0 && carousel.sideCounts == sideCounts
      ensures carousel.geometry == Geometry(cardWidth.GetOr(420.0), gap.GetOr(32.0), depth.GetOr(120.0), tilt.GetOr(14.0))
      ensures carousel.autoSides == ResponsiveSidesPerSide(viewportWidth, carousel.geometry.cardWidth, carousel.geometry.gap)
      ensures !carousel.isDragging && carousel.dragAccum == 0.0
    {
      this.items := items;
      this.hasOnSelect := hasOnSelect;
      selections := [];
      carousel := new Carousel(|items|, cardWidth, gap, depth, tilt, sideCounts, viewportWidth);
    }

    /**
     * A click on card `j`: a side card is brought to the centre; the centred
     * card is reported to `onSelect` with its id and index.
     */
    method ClickCard(j: int)
      requires Valid() && 0 <= j < |Cards()|
      modifies carousel`current, this`selections
      ensures Valid()
      ensures !old(Cards()[j].center) ==>
        carousel.current == old(Cards()[j].index) && selections == old(selections)
      ensures old(Cards()[j].center) ==> carousel.current == old(carousel.current)
      ensures old(Cards()[j].center) && hasOnSelect ==>
        selections == old(selections) + [Selection(old(Cards()[j].id), old(Cards()[j].index))]
      ensures old(Cards()[j].center) && !hasOnSelect ==> selections == old(selections)
    {
      var card := Cards()[j];
      if !card.center {
        carousel.GoTo(card.index);
        WrapOfIndex(card.index, carousel.total);
      } else if hasOnSelect {
        selections := selections + [Selection(card.id, card.index)];
      }
    }

    /** The left button (`prev`). */
    method ClickPrevButton()
      requires Valid()
      modifies carousel`current
      ensures Valid() && carousel.current == Wrap(old(carousel.current) - 1, carousel.total)
    {
      carousel.Prev();
    }

    /** The right button (`next`). */
    method ClickNextButton()
      requires Valid()
      modifies carousel`current
      ensures Valid() && carousel.current == Wrap(old(carousel.current) + 1, carousel.total)
    {
      carousel.Next();
    }

    /** `onPointerDown` on the stage. */
    method StagePointerDown(clientX: Option<real>)
      requires Valid()
      modifies carousel`isDragging, carousel`dragStartX, carousel`dragAccum
      ensures Valid() && carousel.DragState() == PointerDownStep(clientX)
    {
      carousel.PointerDown(clientX);
    }

    /** `onPointerMove` on the stage. */
    method StagePointerMove(clientX: Option<real>)
      requires Valid()
      modifies carousel`dragStartX, carousel`dragAccum, carousel`current
      ensures Valid()
      ensures var step := PointerMoveStep(old(carousel.DragState()), clientX, DragThreshold(carousel.geometry));
        carousel.DragState() == step.0 && carousel.current == ApplyNav(old(carousel.current), step.1, carousel.total)
    {
      carousel.PointerMove(clientX);
    }

    /** `onPointerUp`, `onPointerCancel` and `onPointerLeave` on the stage all end the drag. */
    method StagePointerEnd()
      requires Valid()
      modifies carousel`isDragging, carousel`dragAccum
      ensures Valid() && carousel.DragState() == PointerUpStep(old(carousel.DragState()))
      ensures !carousel.isDragging && carousel.dragAccum == 0.0
    {
      carousel.PointerUp();
    }
  }

  /**
   * Eight items, two cards on each side: clicking the card left of the centre
   * brings item 7 to the centre, and clicking the centre then reports it.
   */
  method ClickScenario()
  {
    var items := [Item("Anemo"), Item("Aurora"), Item("Dendro"), Item("Elementis"),
                  Item("Geo"), Item("Malvrec"), Item("Pyro"), Item("Veneno")];
    var view := new View(items, None, None, None, None, Some(SideCounts(Some(2), Some(2))), true, 1920.0);
    assert view.Cards()[1].offset == -1;
    assert view.Cards()[1].index == 7;
    view.ClickCard(1);
    assert view.carousel.current == 7;
    RenderCentre(items, view.carousel);
    view.ClickCard(2);
    assert view.selections == [Selection("Veneno", 7)];
  }
}
