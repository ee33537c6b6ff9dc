/** `getItemCardsFromMenu`: flatten a menu response into its item cards, taking
    each top-level card's direct `itemCards` and then the `itemCards` of every
    sub-card under `groupedCard.cardGroupMap.REGULAR.cards`. */
module MenuHelpers {
  import opened Optional

  /** An item card; the helper passes these through untouched. */
  datatype ItemCard = ItemCard(id: string, name: string)

  /** A JSON slot the code inspects: missing or null, present but not an
      array, or an array. */
  datatype Field<T> = Missing | NotArray | Arr(elems: seq<T>)

  /** The response: `menuData.cards`, when present, is the list of cards. */
  datatype MenuData = MenuData(cards: Option<seq<Card>>)

  /** A card as it appears in a list: the payload sits at `card.card`. */
  datatype Card = Card(card: Option<CardWrapper>)
  datatype CardWrapper = CardWrapper(card: Option<CardBody>)

  datatype CardBody = CardBody(itemCards: Field<ItemCard>, groupedCard: Option<GroupedCard>)
  datatype GroupedCard = GroupedCard(cardGroupMap: Option<CardGroupMap>)
  datatype CardGroupMap = CardGroupMap(regular: Option<RegularGroup>)
  datatype RegularGroup = RegularGroup(cards: Field<Card>)

  /** `card?.card?.card` */
  function Body(card: Card): Option<CardBody> {
    if card.card.Some? then card.card.value.card else None
  }

  /** The elements of a slot that is an array, nothing otherwise. */
  function ArrayElems<T>(f: Field<T>): seq<T> {
    if f.Arr? then f.elems else []
  }

  /** A card's direct `itemCards`. */
  function DirectItems(card: Card): seq<ItemCard> {
    if Body(card).Some? then ArrayElems(Body(card).value.itemCards) else []
  }

  /** `c?.groupedCard?.cardGroupMap?.REGULAR?.cards` */
  function RegularCards(card: Card): Field<Card> {
    var c := Body(card);
    if c.Some? && c.value.groupedCard.Some? && c.value.groupedCard.value.cardGroupMap.Some?
       && c.value.groupedCard.value.cardGroupMap.value.regular.Some?
    then c.value.groupedCard.value.cardGroupMap.value.regular.value.cards
    else Missing
  }

  /** The `itemCards` of each sub-card, in order; a sub-card whose `itemCards`
      is not an array adds nothing. */
  function GroupedItems(subCards: seq<Card>): seq<ItemCard> {
    if |subCards| == 0 then []
    else GroupedItems(subCards[..|subCards| - 1]) + DirectItems(subCards[|subCards| - 1])
  }

  /** What one top-level card adds: its direct items, then its grouped items. */
  function Contribution(card: Card): seq<ItemCard> {
    DirectItems(card) + GroupedItems(ArrayElems(RegularCards(card)))
  }

  /** The reference definition: the contributions of the cards, concatenated
      in card order. */
  function Flatten(cards: seq<Card>): seq<ItemCard> {
    if |cards| == 0 then []
    else Flatten(cards[..|cards| - 1]) + Contribution(cards[|cards| - 1])
  }

  /** The inner loop: append the `itemCards` of each sub-card that has an
      array of them. */
  method AppendGroupedItems(acc: seq<ItemCard>, subCards: seq<Card>) returns (r: seq<ItemCard>)
    ensures r == acc + GroupedItems(subCards)
  {
    r := acc;
    var j := 0;
    while j < |subCards|
      invariant 0 <= j <= |subCards|
      invariant r == acc + GroupedItems(subCards[..j])
    {
      var body := Body(subCards[j]);
      if body.Some? && body.value.itemCards.Arr? {
        r := r + body.value.itemCards.elems;
      }
      assert subCards[..j + 1][..j] == subCards[..j];
      j := j + 1;
    }
    assert subCards[..j] == subCards;
  }

  /** The reference definition takes one more card by appending its
      contribution. */
  lemma FlattenPrefix(cards: seq<Card>, i: int)
    requires 0 <= i < |cards|
    ensures Flatten(cards[..i + 1]) == Flatten(cards[..i]) + Contribution(cards[i])
  {
    assert cards[..i + 1][..i] == cards[..i];
  }

  /** One pass of the outer loop: append the card's direct items, then the
      item cards of its regular group. */
  method AppendContribution(acc: seq<ItemCard>, card: Card) returns (r: seq<ItemCard>)
    ensures r == acc + Contribution(card)
  {
    r := acc;
    var c := Body(card);
    if c.Some? && c.value.itemCards.Arr? {
      r := r + c.value.itemCards.elems;
    }
    assert r == acc + DirectItems(card);
    var grouped := RegularCards(card);
    if grouped.Arr? {
      r := AppendGroupedItems(r, grouped.elems);
    }
  }

  /** The helper itself, written as the loops of the source: the result is the
      in-order concatenation of every card's contribution, or empty when the
      response or its `cards` is missing. */
  method GetItemCardsFromMenu(menuData: Option<MenuData>) returns (itemCards: seq<ItemCard>)
    ensures menuData.None? || menuData.value.cards.None? ==> itemCards == []
    ensures menuData.Some? && menuData.value.cards.Some? ==> itemCards == Flatten(menuData.value.cards.value)
  {
    if menuData.None? || menuData.value.cards.None? {
      return [];
    }
    var cards := menuData.value.cards.value;
    itemCards := [];
    var i := 0;
    while i < |cards|
      invariant 0 <= i <= |cards|
      invariant itemCards == Flatten(cards[..i])
    {
      itemCards := AppendContribution(itemCards, cards[i]);
      FlattenPrefix(cards, i);
      i := i + 1;
    }
    assert cards[..i] == cards;
  }

  /** One more card at the end contributes after all the others. */
  lemma FlattenSnoc(cards: seq<Card>, card: Card)
    ensures Flatten(cards + [card]) == Flatten(cards) + Contribution(card)
  {
    var t := cards + [card];
    assert t[..|t| - 1] == cards;
  }

  /** The in-order concatenation of `f` over the cards; flattening is this
      fold with `Contribution`, and its laws are proved once for any `f`. */
  function ConcatMap(cards: seq<Card>, f: Card -> seq<ItemCard>): seq<ItemCard> {
    if |cards| == 0 then []
    else ConcatMap(cards[..|cards| - 1], f) + f(cards[|cards| - 1])
  }

  lemma {:induction false} ConcatMapConcat(a: seq<Card>, b: seq<Card>, f: Card -> seq<ItemCard>)
    ensures ConcatMap(a + b, f) == ConcatMap(a, f) + ConcatMap(b, f)
    decreases |b|
  {
    if |b| == 0 {
      assert a + b == a;
    } else {
      var n := |b| - 1;
      assert (a + b)[..|a + b| - 1] == a + b[..n];
      ConcatMapConcat(a, b[..n], f);
    }
  }

  lemma {:induction false} FlattenIsConcatMap(cards: seq<Card>)
    ensures Flatten(cards) == ConcatMap(cards, Contribution)
    decreases |cards|
  {
    if |cards| > 0 {
      FlattenIsConcatMap(cards[..|cards| - 1]);
    }
  }

  /** Flattening distributes over concatenation: the cards of a longer list
      contribute after those of a prefix, so item order follows card order. */
  lemma FlattenConcat(a: seq<Card>, b: seq<Card>)
    ensures Flatten(a + b) == Flatten(a) + Flatten(b)
  {
    FlattenIsConcatMap(a + b);
    FlattenIsConcatMap(a);
    FlattenIsConcatMap(b);
    ConcatMapConcat(a, b, Contribution);
  }

  function ContributionLengths(cards: seq<Card>): nat {
    if |cards| == 0 then 0
    else ContributionLengths(cards[..|cards| - 1]) + |Contribution(cards[|cards| - 1])|
  }

  /** The result has as many items as the cards contribute in total. */
  lemma {:induction false} FlattenLength(cards: seq<Card>)
    ensures |Flatten(cards)| == ContributionLengths(cards)
    decreases |cards|
  {
    if |cards| > 0 {
      FlattenLength(cards[..|cards| - 1]);
    }
  }

  predicate Contributes(card: Card, x: ItemCard) {
    x in Contribution(card)
  }

  lemma FlattenStep(cards: seq<Card>)
    requires |cards| > 0
    ensures forall x :: x in Flatten(cards) <==>
      x in Flatten(cards[..|cards| - 1]) || Contributes(cards[|cards| - 1], x)
  {
  }

  lemma {:induction false} FlattenSound(cards: seq<Card>, x: ItemCard)
    ensures x in Flatten(cards) ==> exists i :: 0 <= i < |cards| && Contributes(cards[i], x)
    decreases |cards|
  {
    if |cards| > 0 && x in Flatten(cards) {
      var n := |cards| - 1;
      var init := cards[..n];
      FlattenStep(cards);
      if x in Flatten(init) {
        FlattenSound(init, x);
        var i :| 0 <= i < n && Contributes(init[i], x);
        assert init[i] == cards[i];
      } else {
        assert Contributes(cards[n], x);
      }
    }
  }

  lemma {:induction false} FlattenComplete(cards: seq<Card>, i: int, x: ItemCard)
    requires 0 <= i < |cards| && Contributes(cards[i], x)
    ensures x in Flatten(cards)
    decreases |cards|
  {
    var n := |cards| - 1;
    var init, last := Flatten(cards[..n]), Contribution(cards[n]);
    assert Flatten(cards) == init + last;
    if i < n {
      assert cards[..n][i] == cards[i];
      FlattenComplete(cards[..n], i, x);
      assert x in init;
    } else {
      assert x in last;
    }
  }

  /** An item is in the result exactly when some card contributes it. */
  lemma FlattenMembership(cards: seq<Card>, x: ItemCard)
    ensures x in Flatten(cards) <==> exists i :: 0 <= i < |cards| && Contributes(cards[i], x)
  {
    FlattenSound(cards, x);
    if exists i :: 0 <= i < |cards| && Contributes(cards[i], x) {
      var i :| 0 <= i < |cards| && Contributes(cards[i], x);
      FlattenComplete(cards, i, x);
    }
  }

  /** A card with neither a direct `itemCards` array nor a `REGULAR` cards
      array contributes nothing. */
  lemma EmptyCardContributesNothing(card: Card)
    requires Body(card).None? || !Body(card).value.itemCards.Arr?
    requires !RegularCards(card).Arr?
    ensures Contribution(card) == []
  {
  }

  /** The grouped sub-cards of the second test response yield "Pizza" before
      "Pasta". */
  lemma GroupedOrderExample()
    ensures var pizza, pasta := ItemCard("1", "Pizza"), ItemCard("2", "Pasta");
      var sub1 := Card(Some(CardWrapper(Some(CardBody(Arr([pizza]), None)))));
      var sub2 := Card(Some(CardWrapper(Some(CardBody(Arr([pasta]), None)))));
      var grouped := GroupedCard(Some(CardGroupMap(Some(RegularGroup(Arr([sub1, sub2]))))));
      var top := Card(Some(CardWrapper(Some(CardBody(Missing, Some(grouped))))));
      Flatten([top]) == [pizza, pasta]
  {
    var pizza, pasta := ItemCard("1", "Pizza"), ItemCard("2", "Pasta");
    var sub1 := Card(Some(CardWrapper(Some(CardBody(Arr([pizza]), None)))));
    var sub2 := Card(Some(CardWrapper(Some(CardBody(Arr([pasta]), None)))));
    var subs := [sub1, sub2];
    assert subs[..1] == [sub1];
    assert DirectItems(sub1) == [pizza];
    assert DirectItems(sub2) == [pasta];
    assert [sub1][..0] == [];
    assert GroupedItems([sub1]) == GroupedItems([]) + DirectItems(sub1) == [pizza];
    assert GroupedItems(subs) == GroupedItems([sub1]) + DirectItems(sub2) == [pizza, pasta];
    var top := Card(Some(CardWrapper(Some(CardBody(Missing, Some(GroupedCard(Some(CardGroupMap(Some(RegularGroup(Arr(subs))))))))))));
    assert [top][..0] == [];
  }
}
