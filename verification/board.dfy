/**
 * The Kanban board of `components/board-view.tsx`: dropping a dragged card
 * onto a list or onto another card moves it, after the server accepted the
 * move, from its list to the end of the target list.
 */
module Board {
  import opened Common

  datatype Card = Card(id: string, title: string, listId: string, order: int)

  datatype CardList = CardList(id: string, title: string, cards: seq<Card>)

  /** `list.cards.find((c) => c.id === id)`. */
  function CardById(cards: seq<Card>, id: string): Option<Card> {
    Find(cards, (c: Card) => c.id == id)
  }

  // ---------------------------------------------------------------------------
  // Locating the dragged card

  /** What the scan for the dragged id finds. */
  datatype ActiveSearch = ActiveCard(card: Card, listId: string) | DraggingList | NotOnBoard

  /** The scan for the dragged id stops at a list that holds such a card, or that has that id itself. */
  predicate StopsActive(l: CardList, activeId: string) {
    CardById(l.cards, activeId).Some? || l.id == activeId
  }

  /** The position of the first list that stops the scan, or the number of lists. */
  function ActiveIndex(lists: seq<CardList>, activeId: string): (i: nat)
    ensures i <= |lists|
    ensures forall j :: 0 <= j < i ==> !StopsActive(lists[j], activeId)
    ensures i < |lists| ==> StopsActive(lists[i], activeId)
  {
    if lists == [] then 0
    else if StopsActive(lists[0], activeId) then 0
    else
      var i := 1 + ActiveIndex(lists[1..], activeId);
      assert forall j :: 1 <= j < |lists| ==> lists[1..][j - 1] == lists[j];
      i
  }

  /**
   * Lists are scanned in board order; in each list the cards are searched
   * before the list's own id is compared, and the first list that stops the
   * scan decides.
   */
  function ActiveOf(lists: seq<CardList>, activeId: string): (r: ActiveSearch)
    ensures r.NotOnBoard? <==> forall l :: l in lists ==> !StopsActive(l, activeId)
    ensures r.ActiveCard? ==>
      && r.card.id == activeId
      && exists l :: l in lists && l.id == r.listId && r.card in l.cards
    ensures var i := ActiveIndex(lists, activeId);
      && (i < |lists| && CardById(lists[i].cards, activeId).Some? ==>
            r == ActiveCard(CardById(lists[i].cards, activeId).value, lists[i].id))
      && (i < |lists| && CardById(lists[i].cards, activeId).None? ==> r.DraggingList? && lists[i].id == activeId)
  {
    var i := ActiveIndex(lists, activeId);
    if i == |lists| then NotOnBoard
    else
      assert lists[i] in lists;
      match CardById(lists[i].cards, activeId)
      case Some(c) => ActiveCard(c, lists[i].id)
      case None => DraggingList
  }

  /**
   * A list is taken as dragged exactly when some list has the dragged id and
   * neither it nor any list before it holds a card with that id.
   */
  lemma {:induction false} ActiveOfDraggingList(lists: seq<CardList>, activeId: string)
    ensures ActiveOf(lists, activeId).DraggingList? <==>
      exists i :: 0 <= i < |lists| && lists[i].id == activeId
        && forall j :: 0 <= j <= i ==> CardById(lists[j].cards, activeId).None?
  {
    var k := ActiveIndex(lists, activeId);
    if ActiveOf(lists, activeId).DraggingList? {
      assert forall j :: 0 <= j <= k ==> CardById(lists[j].cards, activeId).None?;
    }
    if exists i :: 0 <= i < |lists| && lists[i].id == activeId
        && forall j :: 0 <= j <= i ==> CardById(lists[j].cards, activeId).None? {
      var i :| 0 <= i < |lists| && lists[i].id == activeId
        && forall j :: 0 <= j <= i ==> CardById(lists[j].cards, activeId).None?;
      assert StopsActive(lists[i], activeId);
      assert k <= i;
    }
  }

  /** The first loop of `handleDragEnd`. */
  method FindActive(lists: seq<CardList>, activeId: string) returns (r: ActiveSearch)
    ensures r == ActiveOf(lists, activeId)
  {
    var i := 0;
    while i < |lists|
      invariant 0 <= i <= |lists|
      invariant forall j :: 0 <= j < i ==> !StopsActive(lists[j], activeId)
    {
      var card := CardById(lists[i].cards, activeId);
      if card.Some? {
        return ActiveCard(card.value, lists[i].id);
      }
      if lists[i].id == activeId {
        return DraggingList;
      }
      i := i + 1;
    }
    return NotOnBoard;
  }

  // ---------------------------------------------------------------------------
  // Resolving the drop target

  /** The scan for the drop target stops at the list with that id, or at a list holding a card with that id. */
  predicate StopsOver(l: CardList, overId: string) {
    l.id == overId || CardById(l.cards, overId).Some?
  }

  /**
   * The target list: the id of the first list that either is `overId` or
   * holds a card `overId`; in the second case it is that card's `listId`.
   */
  function TargetOf(lists: seq<CardList>, overId: string): (r: Option<string>)
    ensures r.None? <==> forall l :: l in lists ==> !StopsOver(l, overId)
    ensures forall i ::
      (0 <= i < |lists| && lists[i].id == overId
        && forall j :: 0 <= j < i ==> !StopsOver(lists[j], overId))
      ==> r == Some(overId)
    ensures r.Some? && r.value != overId ==>
      exists l, c :: l in lists && c in l.cards && c.id == overId && c.listId == r.value
  {
    var i := IndexWhere(lists, (l: CardList) => StopsOver(l, overId));
    if i == |lists| then None
    else if lists[i].id == overId then Some(overId)
    else Some(CardById(lists[i].cards, overId).value.listId)
  }

  /** The second loop of `handleDragEnd`. */
  method FindTarget(lists: seq<CardList>, overId: string) returns (r: Option<string>)
    ensures r == TargetOf(lists, overId)
  {
    var i := 0;
    while i < |lists|
      invariant 0 <= i <= |lists|
      invariant forall j :: 0 <= j < i ==> !StopsOver(lists[j], overId)
    {
      if lists[i].id == overId {
        return Some(lists[i].id);
      }
      var card := CardById(lists[i].cards, overId);
      if card.Some? {
        return Some(card.value.listId);
      }
      i := i + 1;
    }
    return None;
  }

  // ---------------------------------------------------------------------------
  // The new lists

  /** `list.cards.filter((c) => c.id !== id)`. */
  function Without(cards: seq<Card>, id: string): seq<Card> {
    Filter(cards, (c: Card) => c.id != id)
  }

  /** How a list looks after the move: the source test comes first, so a list that is both only loses the card. */
  function MovedList(l: CardList, source: string, target: string, activeId: string, card: Card): CardList {
    if l.id == source then l.(cards := Without(l.cards, activeId))
    else if l.id == target then l.(cards := l.cards + [card.(listId := target)])
    else l
  }

  /** The `prev.lists.map(...)` of the state update. */
  function MoveCard(lists: seq<CardList>, source: string, target: string, activeId: string, card: Card): (r: seq<CardList>)
    ensures |r| == |lists|
    ensures forall i :: 0 <= i < |r| ==> r[i].id == lists[i].id && r[i].title == lists[i].title
    ensures forall i :: 0 <= i < |r| && lists[i].id != source && lists[i].id != target ==> r[i] == lists[i]
  {
    Map(lists, (l: CardList) => MovedList(l, source, target, activeId, card))
  }

  /** With different source and target lists, the source loses the card and the target gains it last, retagged. */
  lemma MoveBetweenLists(lists: seq<CardList>, source: string, target: string, activeId: string, card: Card)
    requires source != target
    ensures var r := MoveCard(lists, source, target, activeId, card);
      forall i :: 0 <= i < |lists| ==>
        && (lists[i].id == source ==>
              r[i].cards == Without(lists[i].cards, activeId)
              && (forall c :: c in r[i].cards <==> c in lists[i].cards && c.id != activeId)
              && (forall c :: multiset(r[i].cards)[c] == (if c.id != activeId then multiset(lists[i].cards)[c] else 0)))
        && (lists[i].id == target ==>
              r[i].cards == lists[i].cards + [card.(listId := target)]
              && r[i].cards[|r[i].cards| - 1].listId == target)
  {
  }

  /** When the card is dropped on its own list, that list loses the card and nothing is appended. */
  lemma MoveWithinList(lists: seq<CardList>, source: string, activeId: string, card: Card)
    ensures var r := MoveCard(lists, source, source, activeId, card);
      forall i :: 0 <= i < |lists| && lists[i].id == source ==>
        r[i].cards == Without(lists[i].cards, activeId)
        && (forall c :: c in r[i].cards <==> c in lists[i].cards && c.id != activeId)
        && (forall c :: multiset(r[i].cards)[c] == (if c.id != activeId then multiset(lists[i].cards)[c] else 0))
        && |r[i].cards| <= |lists[i].cards|
  {
  }

  // ---------------------------------------------------------------------------
  // Card accounting

  /** The number of cards on the board. */
  function TotalCards(lists: seq<CardList>): nat {
    if lists == [] then 0 else |lists[0].cards| + TotalCards(lists[1..])
  }

  /** How many cards with the dragged id the lists named `source` hold. */
  function CopiesIn(lists: seq<CardList>, source: string, activeId: string): nat {
    if lists == [] then 0
    else
      var here := if lists[0].id == source then Count(lists[0].cards, (c: Card) => c.id == activeId) else 0;
      here + CopiesIn(lists[1..], source, activeId)
  }

  /** How many lists carry the id `id`. */
  function ListsNamed(lists: seq<CardList>, id: string): nat {
    if lists == [] then 0 else (if lists[0].id == id then 1 else 0) + ListsNamed(lists[1..], id)
  }

  lemma {:induction false} WithoutCount(cards: seq<Card>, activeId: string)
    ensures |Without(cards, activeId)| + Count(cards, (c: Card) => c.id == activeId) == |cards|
  {
    CountSplit(cards, (c: Card) => c.id == activeId, (c: Card) => c.id != activeId);
  }

  /**
   * The card balance of a move: every copy of the dragged card in a source
   * list leaves the board and every list carrying the target id gains one
   * card, unless it is also the source.
   */
  lemma {:induction false} MoveCardBalance(lists: seq<CardList>, source: string, target: string, activeId: string, card: Card)
    ensures TotalCards(MoveCard(lists, source, target, activeId, card)) + CopiesIn(lists, source, activeId)
      == TotalCards(lists) + (if source == target then 0 else ListsNamed(lists, target))
  {
    if lists != [] {
      var r := MoveCard(lists, source, target, activeId, card);
      assert r[1..] == MoveCard(lists[1..], source, target, activeId, card);
      MoveCardBalance(lists[1..], source, target, activeId, card);
      WithoutCount(lists[0].cards, activeId);
    }
  }

  /** Moving between two different lists, each named once, with one copy of the card, keeps the number of cards. */
  lemma MoveConservesCards(lists: seq<CardList>, source: string, target: string, activeId: string, card: Card)
    requires source != target
    requires ListsNamed(lists, target) == 1
    requires CopiesIn(lists, source, activeId) == 1
    ensures TotalCards(MoveCard(lists, source, target, activeId, card)) == TotalCards(lists)
  {
    MoveCardBalance(lists, source, target, activeId, card);
  }

  /** Dropping the card on its own list loses every copy of it from the board. */
  lemma MoveWithinListLosesCard(lists: seq<CardList>, source: string, activeId: string, card: Card)
    ensures TotalCards(MoveCard(lists, source, source, activeId, card))
      == TotalCards(lists) - CopiesIn(lists, source, activeId)
  {
    MoveCardBalance(lists, source, source, activeId, card);
  }

  // ---------------------------------------------------------------------------
  // handleDragEnd

  /**
   * The board after a drop: `overId` is the drop target (none when dropped
   * outside), `patchOk` whether the server accepted the card's new list.
   */
  function DragEnd(lists: seq<CardList>, activeId: string, overId: Option<string>, patchOk: bool): (r: seq<CardList>)
    ensures overId.None? ==> r == lists
    ensures ActiveOf(lists, activeId).DraggingList? ==> r == lists
    ensures ActiveOf(lists, activeId).NotOnBoard? ==> r == lists
    ensures overId.Some? && TargetOf(lists, overId.value).None? ==> r == lists
    ensures !patchOk ==> r == lists
    ensures overId.Some? && ActiveOf(lists, activeId).ActiveCard? && TargetOf(lists, overId.value).Some? ==>
      var source, target := ActiveOf(lists, activeId).listId, TargetOf(lists, overId.value).value;
      && (!Truthy(source) || !Truthy(target) ==> r == lists)
      && (Truthy(source) && Truthy(target) && patchOk ==>
            r == MoveCard(lists, source, target, activeId, ActiveOf(lists, activeId).card))
    ensures |r| == |lists| && forall i :: 0 <= i < |r| ==> r[i].id == lists[i].id
  {
    if overId.None? then lists
    else
      match ActiveOf(lists, activeId)
      case ActiveCard(card, source) =>
        var target := TargetOf(lists, overId.value);
        if !Truthy(source) || target.None? || !Truthy(target.value) || !patchOk then lists
        else MoveCard(lists, source, target.value, activeId, card)
      case _ => lists
  }

  /** A successful drop of a card between two different lists keeps the number of cards on a well-formed board. */
  lemma DragEndConservesCards(lists: seq<CardList>, activeId: string, overId: string)
    requires ActiveOf(lists, activeId).ActiveCard?
    requires TargetOf(lists, overId).Some?
    requires ActiveOf(lists, activeId).listId != TargetOf(lists, overId).value
    requires ListsNamed(lists, TargetOf(lists, overId).value) == 1
    requires CopiesIn(lists, ActiveOf(lists, activeId).listId, activeId) == 1
    ensures TotalCards(DragEnd(lists, activeId, Some(overId), true)) == TotalCards(lists)
  {
    var a := ActiveOf(lists, activeId);
    var t := TargetOf(lists, overId).value;
    if Truthy(a.listId) && Truthy(t) {
      MoveConservesCards(lists, a.listId, t, activeId, a.card);
    }
  }

  /** The React component's state. */
  class BoardView {
    var lists: seq<CardList>
    var activeId: Option<string>

    constructor (initial: seq<CardList>)
      ensures lists == initial && activeId == None
    {
      lists := initial;
      activeId := None;
    }

    method HandleDragStart(id: string)
      modifies this
      ensures activeId == Some(id) && lists == old(lists)
    {
      activeId := Some(id);
    }

    /** `handleDragEnd`: the PATCH request is abstracted by `patchOk`. */
    method HandleDragEnd(dragged: string, overId: Option<string>, patchOk: bool)
      modifies this
      ensures activeId == None
      ensures lists == DragEnd(old(lists), dragged, overId, patchOk)
    {
      activeId := None;
      if overId.None? {
        return;
      }
      var active := FindActive(lists, dragged);
      if active.DraggingList? {
        return;
      }
      var target := FindTarget(lists, overId.value);
      if !active.ActiveCard? || !Truthy(active.listId) || target.None? || !Truthy(target.value) {
        return;
      }
      if !patchOk {
        return;
      }
      lists := MoveCard(lists, active.listId, target.value, dragged, active.card);
    }
  }
}
