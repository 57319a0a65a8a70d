/** The shopping-cart store: an ordered list of cart lines with unique book ids and two
    stored totals that every reducer recomputes. The pure functions give the list each
    reducer produces; the class `CartStore` updates its fields in place as the reducers do. */
module CartSlice {
  import opened Books
  import Seqs

  /** A cart line: the fields of the book that was added, plus its quantity. */
  datatype CartItem = CartItem(book: Book, quantity: int) {
    function Id(): int { book.id }
    function Price(): int { book.price }
  }

  /** `items.reduce((total, item) => total + item.quantity, 0)` */
  function SumQuantities(items: seq<CartItem>): int {
    if items == [] then 0 else items[0].quantity + SumQuantities(items[1..])
  }

  /** `items.reduce((total, item) => total + item.price * item.quantity, 0)`, in cents. */
  function SumAmounts(items: seq<CartItem>): int {
    if items == [] then 0 else items[0].Price() * items[0].quantity + SumAmounts(items[1..])
  }

  predicate HasId(items: seq<CartItem>, id: int) {
    exists i :: 0 <= i < |items| && items[i].Id() == id
  }

  predicate UniqueIds(items: seq<CartItem>) {
    forall i, j :: 0 <= i < j < |items| ==> items[i].Id() != items[j].Id()
  }

  predicate PositiveQuantities(items: seq<CartItem>) {
    forall i :: 0 <= i < |items| ==> items[i].quantity >= 1
  }

  /** What every reachable cart satisfies: one line per id, every quantity at least 1. */
  predicate WellFormed(items: seq<CartItem>) {
    UniqueIds(items) && PositiveQuantities(items)
  }

  /** `i` is the index `items.find(item => item.id === id)` lands on. */
  predicate IsFirstIndex(items: seq<CartItem>, id: int, i: int) {
    0 <= i < |items| && items[i].Id() == id && forall j :: 0 <= j < i ==> items[j].Id() != id
  }

  /** The lines after `addToCart(book)`: the first line with the book's id gets one more
      copy; without such a line, a new line with quantity 1 goes at the end. */
  function AddItem(items: seq<CartItem>, book: Book): (r: seq<CartItem>)
    ensures HasId(r, book.id)
    ensures |r| == if HasId(items, book.id) then |items| else |items| + 1
  {
    if items == [] then
      var r := [CartItem(book, 1)];
      assert r[0].Id() == book.id;
      r
    else if items[0].Id() == book.id then
      var r := [items[0].(quantity := items[0].quantity + 1)] + items[1..];
      assert r[0].Id() == book.id;
      r
    else
      var rest := AddItem(items[1..], book);
      var r := [items[0]] + rest;
      HasIdCons(items, book.id);
      HasIdCons(r, book.id);
      assert r[1..] == rest;
      r
  }

  /** A line list whose head has another id holds `id` exactly when its tail does. */
  lemma HasIdCons(items: seq<CartItem>, id: int)
    requires items != [] && items[0].Id() != id
    ensures HasId(items, id) <==> HasId(items[1..], id)
  {
    if HasId(items, id) {
      var k :| 0 <= k < |items| && items[k].Id() == id;
      assert items[1..][k - 1].Id() == id;
    }
    if HasId(items[1..], id) {
      var k :| 0 <= k < |items[1..]| && items[1..][k].Id() == id;
      assert items[k + 1].Id() == id;
    }
  }

  /** The lines after `removeFromCart(id)`. */
  function RemoveItems(items: seq<CartItem>, id: int): (r: seq<CartItem>)
    ensures |r| <= |items|
    ensures forall i :: 0 <= i < |r| ==> r[i].Id() != id && r[i] in items
  {
    Seqs.Filter(items, (item: CartItem) => item.Id() != id)
  }

  /** Adding a book already in the cart bumps the quantity of its line and adds no line. */
  lemma {:induction false} AddItemExisting(items: seq<CartItem>, book: Book, i: int)
    requires IsFirstIndex(items, book.id, i)
    ensures AddItem(items, book) == items[i := items[i].(quantity := items[i].quantity + 1)]
  {
    if i > 0 {
      var bumped := items[i].(quantity := items[i].quantity + 1);
      assert IsFirstIndex(items[1..], book.id, i - 1);
      AddItemExisting(items[1..], book, i - 1);
      assert AddItem(items, book) == [items[0]] + AddItem(items[1..], book);
      assert items[i := bumped] == [items[0]] + items[1..][i - 1 := bumped];
    }
  }

  /** Adding a new book appends exactly one line with quantity 1 and leaves the rest alone. */
  lemma {:induction false} AddItemNew(items: seq<CartItem>, book: Book)
    requires !HasId(items, book.id)
    ensures AddItem(items, book) == items + [CartItem(book, 1)]
  {
    if items != [] {
      assert items[0].Id() != book.id;
      AddItemNew(items[1..], book);
      assert [items[0]] + (items[1..] + [CartItem(book, 1)]) == items + [CartItem(book, 1)];
    }
  }

  /** Bumping one quantity raises the item total by one and the amount by that line's price. */
  lemma {:induction false} BumpTotals(items: seq<CartItem>, i: int)
    requires 0 <= i < |items|
    ensures SumQuantities(items[i := items[i].(quantity := items[i].quantity + 1)]) == SumQuantities(items) + 1
    ensures SumAmounts(items[i := items[i].(quantity := items[i].quantity + 1)]) == SumAmounts(items) + items[i].Price()
  {
    var bumped := items[i := items[i].(quantity := items[i].quantity + 1)];
    if i > 0 {
      assert bumped[1..] == items[1..][i - 1 := items[i].(quantity := items[i].quantity + 1)];
      BumpTotals(items[1..], i - 1);
    } else {
      assert bumped[1..] == items[1..];
    }
  }

  lemma {:induction false} AppendTotals(items: seq<CartItem>, item: CartItem)
    ensures SumQuantities(items + [item]) == SumQuantities(items) + item.quantity
    ensures SumAmounts(items + [item]) == SumAmounts(items) + item.Price() * item.quantity
  {
    if items != [] {
      assert (items + [item])[1..] == items[1..] + [item];
      AppendTotals(items[1..], item);
    }
  }

  /** Whatever the cart, adding a book raises `totalItems` by exactly one. */
  lemma AddItemTotalItems(items: seq<CartItem>, book: Book)
    ensures SumQuantities(AddItem(items, book)) == SumQuantities(items) + 1
  {
    if HasId(items, book.id) {
      var i := FirstIndexExists(items, book.id);
      AddItemExisting(items, book, i);
      BumpTotals(items, i);
    } else {
      AddItemNew(items, book);
      AppendTotals(items, CartItem(book, 1));
    }
  }

  /** Adding a book raises `totalAmount` by the price of the line that grew: the stored
      line's price when the id was already present, the book's price otherwise. */
  lemma AddItemTotalAmount(items: seq<CartItem>, book: Book)
    ensures HasId(items, book.id) ==> forall i :: IsFirstIndex(items, book.id, i) ==>
      SumAmounts(AddItem(items, book)) == SumAmounts(items) + items[i].Price()
    ensures !HasId(items, book.id) ==> SumAmounts(AddItem(items, book)) == SumAmounts(items) + book.price
  {
    if HasId(items, book.id) {
      forall i | IsFirstIndex(items, book.id, i)
        ensures SumAmounts(AddItem(items, book)) == SumAmounts(items) + items[i].Price()
      {
        AddItemExisting(items, book, i);
        BumpTotals(items, i);
      }
    } else {
      AddItemNew(items, book);
      AppendTotals(items, CartItem(book, 1));
    }
  }

  lemma {:induction false} FirstIndexExists(items: seq<CartItem>, id: int) returns (i: int)
    requires HasId(items, id)
    ensures IsFirstIndex(items, id, i)
  {
    if items[0].Id() == id {
      i := 0;
    } else {
      assert HasId(items[1..], id) by {
        var k :| 0 <= k < |items| && items[k].Id() == id;
        assert items[1..][k - 1].Id() == id;
      }
      var j := FirstIndexExists(items[1..], id);
      i := j + 1;
    }
  }

  /** `addToCart` keeps one line per id and every quantity positive. */
  lemma AddItemWellFormed(items: seq<CartItem>, book: Book)
    requires WellFormed(items)
    ensures WellFormed(AddItem(items, book))
  {
    if HasId(items, book.id) {
      var i := FirstIndexExists(items, book.id);
      AddItemExisting(items, book, i);
      BumpWellFormed(items, i);
    } else {
      AddItemNew(items, book);
      AppendWellFormed(items, CartItem(book, 1));
    }
  }

  lemma BumpWellFormed(items: seq<CartItem>, i: int)
    requires WellFormed(items) && 0 <= i < |items|
    ensures WellFormed(items[i := items[i].(quantity := items[i].quantity + 1)])
  {
    var r := items[i := items[i].(quantity := items[i].quantity + 1)];
    assert forall k :: 0 <= k < |r| ==> r[k].Id() == items[k].Id();
  }

  lemma AppendWellFormed(items: seq<CartItem>, x: CartItem)
    requires WellFormed(items) && x.quantity >= 1 && !HasId(items, x.Id())
    ensures WellFormed(items + [x])
  {
    var r := items + [x];
    forall p, q | 0 <= p < q < |r| ensures r[p].Id() != r[q].Id() {
      assert r[p] == items[p];
      if q < |items| {
        assert r[q] == items[q];
      }
    }
  }

  /** After `removeFromCart(id)` no line has that id. */
  lemma RemoveItemsDropsId(items: seq<CartItem>, id: int)
    ensures !HasId(RemoveItems(items, id), id)
  {
    var r := RemoveItems(items, id);
    assert forall k :: 0 <= k < |r| ==> r[k].Id() != id;
  }

  /** Removing an id that is not in the cart leaves the lines, hence the totals, as they were. */
  lemma RemoveItemsAbsent(items: seq<CartItem>, id: int)
    requires !HasId(items, id)
    ensures RemoveItems(items, id) == items
  {
    Seqs.FilterAllKept(items, (item: CartItem) => item.Id() != id);
  }

  /** Every line whose id differs from the removed one survives the removal, and the kept
      lines stay in their original order. */
  lemma RemoveItemsSublist(items: seq<CartItem>, id: int)
    ensures forall i :: 0 <= i < |items| && items[i].Id() != id ==> items[i] in RemoveItems(items, id)
    ensures Seqs.IsSublist(RemoveItems(items, id), items)
  {
    Seqs.FilterIsSublist(items, (item: CartItem) => item.Id() != id);
  }

  lemma {:induction false} RemoveItemsWellFormed(items: seq<CartItem>, id: int)
    requires WellFormed(items)
    ensures WellFormed(RemoveItems(items, id))
  {
    if items != [] {
      WellFormedTail(items);
      RemoveItemsWellFormed(items[1..], id);
      RemoveItemsCons(items, id);
      KeepHeadWellFormed(items, RemoveItems(items[1..], id), id);
    }
  }

  /** Putting back the head of a well-formed cart in front of lines taken from its tail. */
  lemma KeepHeadWellFormed(items: seq<CartItem>, rest: seq<CartItem>, id: int)
    requires items != [] && WellFormed(items) && WellFormed(rest)
    requires forall k :: 0 <= k < |rest| ==> rest[k] in items[1..]
    ensures WellFormed(if items[0].Id() != id then [items[0]] + rest else rest)
  {
    if items[0].Id() != id {
      forall k | 0 <= k < |rest| ensures rest[k].Id() != items[0].Id() {
        var m :| 0 <= m < |items[1..]| && items[1..][m] == rest[k];
        assert items[m + 1] == rest[k];
      }
      WellFormedCons(items[0], rest);
    }
  }

  /** `RemoveItems` unfolded once. */
  lemma RemoveItemsCons(items: seq<CartItem>, id: int)
    requires items != []
    ensures RemoveItems(items, id) ==
      if items[0].Id() != id then [items[0]] + RemoveItems(items[1..], id) else RemoveItems(items[1..], id)
  {
    Seqs.FilterCons(items, (item: CartItem) => item.Id() != id);
  }

  lemma WellFormedTail(items: seq<CartItem>)
    requires items != [] && WellFormed(items)
    ensures WellFormed(items[1..])
  {
    var t := items[1..];
    forall i, j | 0 <= i < j < |t| ensures t[i].Id() != t[j].Id() {
      assert t[i] == items[i + 1] && t[j] == items[j + 1];
    }
  }

  lemma WellFormedCons(x: CartItem, rest: seq<CartItem>)
    requires WellFormed(rest) && x.quantity >= 1
    requires forall k :: 0 <= k < |rest| ==> rest[k].Id() != x.Id()
    ensures WellFormed([x] + rest)
  {
    var r := [x] + rest;
    forall i, j | 0 <= i < j < |r| ensures r[i].Id() != r[j].Id() {
      assert r[j] == rest[j - 1];
      if i > 0 {
        assert r[i] == rest[i - 1];
      }
    }
  }

  /** The reducer actions. */
  datatype CartAction = AddToCart(book: Book) | RemoveFromCart(id: int) | ClearCart

  function Step(items: seq<CartItem>, action: CartAction): seq<CartItem> {
    match action
    case AddToCart(book) => AddItem(items, book)
    case RemoveFromCart(id) => RemoveItems(items, id)
    case ClearCart => []
  }

  function Run(items: seq<CartItem>, actions: seq<CartAction>): seq<CartItem>
    decreases |actions|
  {
    if actions == [] then items else Run(Step(items, actions[0]), actions[1..])
  }

  /** From the empty initial cart, any sequence of the three reducers keeps one line per id
      and every quantity at least 1. */
  lemma {:induction false} RunWellFormed(items: seq<CartItem>, actions: seq<CartAction>)
    requires WellFormed(items)
    ensures WellFormed(Run(items, actions))
    decreases |actions|
  {
    if actions != [] {
      match actions[0] {
        case AddToCart(book) => AddItemWellFormed(items, book);
        case RemoveFromCart(id) => RemoveItemsWellFormed(items, id);
        case ClearCart =>
      }
      RunWellFormed(Step(items, actions[0]), actions[1..]);
    }
  }

  lemma InitialRunWellFormed(actions: seq<CartAction>)
    ensures WellFormed(Run([], actions))
  {
    RunWellFormed([], actions);
  }

  /** With every quantity at least 1, the item count is at least the number of lines. */
  lemma {:induction false} SumQuantitiesAtLeastLines(items: seq<CartItem>)
    requires PositiveQuantities(items)
    ensures SumQuantities(items) >= |items|
  {
    if items != [] {
      SumQuantitiesAtLeastLines(items[1..]);
    }
  }

  /** `items.find(item => item.id === id)`, as the index of the line found, or -1. */
  method FindItem(items: seq<CartItem>, id: int) returns (i: int)
    ensures i == -1 <==> !HasId(items, id)
    ensures i != -1 ==> IsFirstIndex(items, id, i)
  {
    i := 0;
    while i < |items|
      invariant 0 <= i <= |items|
      invariant forall j :: 0 <= j < i ==> items[j].Id() != id
    {
      if items[i].Id() == id {
        return;
      }
      i := i + 1;
    }
    i := -1;
  }

  /** The cart slice of the store. */
  class CartStore {
    var items: seq<CartItem>
    var totalItems: int
    var totalAmount: int

    /** The stored totals always equal their sums, and the lines are well formed. */
    ghost predicate Valid()
      reads this
    {
      WellFormed(items) && totalItems == SumQuantities(items) && totalAmount == SumAmounts(items)
    }

    /** `initialState`: no lines, both totals zero. */
    constructor ()
      ensures Valid()
      ensures items == [] && totalItems == 0 && totalAmount == 0
    {
      items := [];
      totalItems := 0;
      totalAmount := 0;
    }

    method AddToCart(book: Book)
      requires Valid()
      modifies this
      ensures Valid()
      ensures items == AddItem(old(items), book)
      ensures totalItems == old(totalItems) + 1
      ensures old(HasId(items, book.id)) ==> |items| == old(|items|)
      ensures !old(HasId(items, book.id)) ==> items == old(items) + [CartItem(book, 1)]
    {
      var lines := items;
      var i := FindItem(lines, book.id);
      var next: seq<CartItem>;
      if i != -1 {
        AddItemExisting(lines, book, i);
        next := lines[i := lines[i].(quantity := lines[i].quantity + 1)];
      } else {
        AddItemNew(lines, book);
        next := lines + [CartItem(book, 1)];
      }
      AddItemWellFormed(lines, book);
      AddItemTotalItems(lines, book);
      items := next;
      totalItems := SumQuantities(next);
      totalAmount := SumAmounts(next);
    }

    method RemoveFromCart(id: int)
      requires Valid()
      modifies this
      ensures Valid()
      ensures items == RemoveItems(old(items), id)
      ensures !old(HasId(items, id)) ==>
        items == old(items) && totalItems == old(totalItems) && totalAmount == old(totalAmount)
    {
      RemoveItemsWellFormed(items, id);
      if !HasId(items, id) {
        RemoveItemsAbsent(items, id);
      }
      items := RemoveItems(items, id);
      totalItems := SumQuantities(items);
      totalAmount := SumAmounts(items);
    }

    method ClearCart()
      requires Valid()
      modifies this
      ensures Valid()
      ensures items == [] && totalItems == 0 && totalAmount == 0
    {
      items := [];
      totalItems := 0;
      totalAmount := 0;
    }

    /** `selectCartItems`: the lines, one per id. */
    function SelectCartItems(): (r: seq<CartItem>)
      reads this
      requires Valid()
      ensures UniqueIds(r) && r == items
    {
      items
    }

    /** `selectCartTotal`: the number of copies in the cart, not the money amount. */
    function SelectCartTotal(): (n: int)
      reads this
      requires Valid()
      ensures n == SumQuantities(items) && n >= |items|
    {
      SumQuantitiesAtLeastLines(items);
      totalItems
    }
  }
}
