/** The pure part of the cart routes (backend/routes/cartRoutes.js): the
    total price, the search for a line by its (productId, size, color) key,
    and the edits the POST, PUT, DELETE and merge handlers make to a cart's
    list of lines.

    Besides the total, a list of lines is read through `QtyOf`, the
    quantity it holds for one key; on a list with unique keys that is the
    quantity of the single line with that key, or 0. */
module CartLines {
  import opened Common
  import opened CartModel
  import opened Seqs

  /** `calculateTotalPrice`: a left fold of price * quantity starting at 0. */
  function TotalPrice(lines: seq<LineItem>): (r: int)
    ensures (forall j :: 0 <= j < |lines| ==> lines[j].price >= 0 && lines[j].quantity >= 0) ==> r >= 0
    decreases |lines|
  {
    if lines == [] then 0
    else TotalPrice(lines[..|lines| - 1]) + lines[|lines| - 1].price * lines[|lines| - 1].quantity
  }

  /** The share of one line in the quantity held for key k. */
  function Share(item: LineItem, k: Key): int {
    if KeyOf(item) == k then item.quantity else 0
  }

  /** The total quantity the lines hold for key k. */
  function QtyOf(lines: seq<LineItem>, k: Key): int
  {
    if lines == [] then 0 else QtyOf(lines[..|lines| - 1], k) + Share(lines[|lines| - 1], k)
  }

  ghost predicate UniqueKeys(lines: seq<LineItem>) {
    forall i, j :: 0 <= i < j < |lines| ==> KeyOf(lines[i]) != KeyOf(lines[j])
  }

  /** `products.findIndex(p => key matches)`: the first line with key k, or -1. */
  function FindLine(lines: seq<LineItem>, k: Key): (r: int)
    ensures -1 <= r < |lines|
    ensures r >= 0 ==> KeyOf(lines[r]) == k
    ensures r >= 0 ==> forall j :: 0 <= j < r ==> KeyOf(lines[j]) != k
    ensures r == -1 <==> forall j :: 0 <= j < |lines| ==> KeyOf(lines[j]) != k
  {
    if lines == [] then -1
    else if KeyOf(lines[0]) == k then 0
    else
      var r := FindLine(lines[1..], k);
      assert forall j :: 1 <= j < |lines| ==> lines[j] == lines[1..][j - 1];
      if r == -1 then -1 else r + 1
  }

  /** The add step shared by POST /api/cart and the merge loop: the line
      with the item's key grows by the item's quantity; without one, the
      item is appended. */
  function AddLine(lines: seq<LineItem>, item: LineItem): (r: seq<LineItem>)
    ensures var i := FindLine(lines, KeyOf(item));
      i >= 0 ==>
        && |r| == |lines|
        && r[i] == lines[i].(quantity := lines[i].quantity + item.quantity)
        && forall j :: 0 <= j < |lines| && j != i ==> r[j] == lines[j]
    ensures FindLine(lines, KeyOf(item)) == -1 ==> r == lines + [item]
  {
    var i := FindLine(lines, KeyOf(item));
    if i > -1 then lines[i := lines[i].(quantity := lines[i].quantity + item.quantity)]
    else lines + [item]
  }

  /** The PUT edit: None when no line has key k; otherwise a positive
      quantity replaces that line's quantity and any other quantity removes
      the line. */
  function UpdateLine(lines: seq<LineItem>, k: Key, quantity: int): (r: Option<seq<LineItem>>)
    ensures r.None? <==> forall j :: 0 <= j < |lines| ==> KeyOf(lines[j]) != k
    ensures var i := FindLine(lines, k);
      r.Some? && quantity > 0 ==>
        && |r.value| == |lines|
        && r.value[i] == lines[i].(quantity := quantity)
        && forall j :: 0 <= j < |lines| && j != i ==> r.value[j] == lines[j]
    ensures r.Some? && quantity <= 0 ==> r.value == RemoveAt(lines, FindLine(lines, k))
  {
    var i := FindLine(lines, k);
    if i == -1 then None
    else if quantity > 0 then Some(lines[i := lines[i].(quantity := quantity)])
    else Some(RemoveAt(lines, i))
  }

  /** The DELETE edit: None when no line has key k; otherwise the first line
      with key k is removed and the others keep their order. */
  function RemoveLine(lines: seq<LineItem>, k: Key): (r: Option<seq<LineItem>>)
    ensures r.None? <==> forall j :: 0 <= j < |lines| ==> KeyOf(lines[j]) != k
    ensures r.Some? ==> r.value == RemoveAt(lines, FindLine(lines, k))
  {
    var i := FindLine(lines, k);
    if i == -1 then None else Some(RemoveAt(lines, i))
  }

  /** The guest lines folded into the user lines, in order, by AddLine. */
  function MergeAll(userLines: seq<LineItem>, guestLines: seq<LineItem>): (r: seq<LineItem>)
    ensures |userLines| <= |r| <= |userLines| + |guestLines|
    decreases |guestLines|
  {
    if guestLines == [] then userLines
    else AddLine(MergeAll(userLines, guestLines[..|guestLines| - 1]), guestLines[|guestLines| - 1])
  }

  /** One more guest line folds in one more `AddLine`. */
  lemma MergeAllStep(userLines: seq<LineItem>, guestLines: seq<LineItem>, n: nat)
    requires n < |guestLines|
    ensures MergeAll(userLines, guestLines[..n + 1]) == AddLine(MergeAll(userLines, guestLines[..n]), guestLines[n])
  {
    assert guestLines[..n + 1][..n] == guestLines[..n];
  }

  // ---------------------------------------------------------------------
  // The total price

  lemma {:induction false} TotalPriceAppend(a: seq<LineItem>, b: seq<LineItem>)
    ensures TotalPrice(a + b) == TotalPrice(a) + TotalPrice(b)
    decreases |b|
  {
    if b == [] {
      assert a + b == a;
    } else {
      var b' := b[..|b| - 1];
      assert (a + b)[..|a + b| - 1] == a + b';
      TotalPriceAppend(a, b');
    }
  }

  /** A single line's total is its price * quantity. */
  lemma TotalPriceSingle(x: LineItem)
    ensures TotalPrice([x]) == x.price * x.quantity
  {
    assert [x][..0] == [];
  }

  /** Replacing one line changes the total by the difference of the two
      lines' price * quantity. */
  lemma TotalPriceReplace(lines: seq<LineItem>, i: nat, x: LineItem)
    requires i < |lines|
    ensures TotalPrice(lines[i := x])
         == TotalPrice(lines) - lines[i].price * lines[i].quantity + x.price * x.quantity
  {
    var pre, post := lines[..i], lines[i + 1..];
    Around(lines, i);
    Around(lines[i := x], i);
    assert lines[i := x][..i] == pre && lines[i := x][i + 1..] == post;
    TotalPriceAppend(pre + [lines[i]], post);
    TotalPriceAppend(pre + [x], post);
    TotalPriceAppend(pre, [lines[i]]);
    TotalPriceAppend(pre, [x]);
    TotalPriceSingle(x);
    TotalPriceSingle(lines[i]);
  }

  /** Removing one line lowers the total by that line's price * quantity. */
  lemma TotalPriceRemoveAt(lines: seq<LineItem>, i: nat)
    requires i < |lines|
    ensures TotalPrice(RemoveAt(lines, i)) == TotalPrice(lines) - lines[i].price * lines[i].quantity
  {
    var pre, x, post := lines[..i], lines[i], lines[i + 1..];
    TotalPriceAppend(pre + [x], post);
    TotalPriceAppend(pre, [x]);
    TotalPriceAppend(pre, post);
    TotalPriceSingle(x);
    Around(lines, i);
  }

  /** Adding moves the total by the quantity added, priced at the matched
      line's stored price (which may differ from the item's), or at the
      item's price when the item is appended. */
  lemma AddLineTotal(lines: seq<LineItem>, item: LineItem)
    ensures var i := FindLine(lines, KeyOf(item));
      TotalPrice(AddLine(lines, item))
        == TotalPrice(lines) + (if i >= 0 then lines[i].price else item.price) * item.quantity
  {
    var i := FindLine(lines, KeyOf(item));
    if i >= 0 {
      var line := lines[i];
      var grown := line.(quantity := line.quantity + item.quantity);
      assert AddLine(lines, item) == lines[i := grown];
      TotalPriceReplace(lines, i, grown);
      MulDistributes(line.price, line.quantity, item.quantity);
    } else {
      assert AddLine(lines, item) == lines + [item];
      TotalPriceAppend(lines, [item]);
      TotalPriceSingle(item);
    }
  }

  lemma MulDistributes(p: int, a: int, b: int)
    ensures p * (a + b) == p * a + p * b
  {
  }

  // ---------------------------------------------------------------------
  // Quantities per key

  lemma {:induction false} QtyOfAppend(a: seq<LineItem>, b: seq<LineItem>, k: Key)
    ensures QtyOf(a + b, k) == QtyOf(a, k) + QtyOf(b, k)
    decreases |b|
  {
    if b == [] {
      assert a + b == a;
    } else {
      var b' := b[..|b| - 1];
      assert (a + b)[..|a + b| - 1] == a + b';
      QtyOfAppend(a, b', k);
    }
  }

  lemma QtyOfSingle(x: LineItem, k: Key)
    ensures QtyOf([x], k) == Share(x, k)
  {
    assert [x][..0] == [];
  }

  lemma QtyOfReplace(lines: seq<LineItem>, i: nat, x: LineItem, k: Key)
    requires i < |lines|
    ensures QtyOf(lines[i := x], k) == QtyOf(lines, k) - Share(lines[i], k) + Share(x, k)
  {
    assert lines == lines[..i] + [lines[i]] + lines[i + 1..];
    assert lines[i := x] == lines[..i] + [x] + lines[i + 1..];
    QtyOfAppend(lines[..i] + [lines[i]], lines[i + 1..], k);
    QtyOfAppend(lines[..i] + [x], lines[i + 1..], k);
    QtyOfAppend(lines[..i], [lines[i]], k);
    QtyOfAppend(lines[..i], [x], k);
    QtyOfSingle(x, k);
    QtyOfSingle(lines[i], k);
  }

  lemma QtyOfRemoveAt(lines: seq<LineItem>, i: nat, k: Key)
    requires i < |lines|
    ensures QtyOf(RemoveAt(lines, i), k) == QtyOf(lines, k) - Share(lines[i], k)
  {
    assert lines == lines[..i] + [lines[i]] + lines[i + 1..];
    QtyOfAppend(lines[..i] + [lines[i]], lines[i + 1..], k);
    QtyOfAppend(lines[..i], [lines[i]], k);
    QtyOfAppend(lines[..i], lines[i + 1..], k);
    QtyOfSingle(lines[i], k);
  }

  lemma {:induction false} QtyOfAbsent(lines: seq<LineItem>, k: Key)
    requires forall j :: 0 <= j < |lines| ==> KeyOf(lines[j]) != k
    ensures QtyOf(lines, k) == 0
    decreases |lines|
  {
    if lines != [] {
      QtyOfAbsent(lines[..|lines| - 1], k);
    }
  }

  /** With unique keys, the quantity held for a key is that of its line. */
  lemma QtyOfUnique(lines: seq<LineItem>, k: Key)
    requires UniqueKeys(lines)
    ensures var i := FindLine(lines, k);
      QtyOf(lines, k) == if i >= 0 then lines[i].quantity else 0
  {
    var i := FindLine(lines, k);
    if i < 0 {
      QtyOfAbsent(lines, k);
    } else {
      assert lines == lines[..i] + [lines[i]] + lines[i + 1..];
      QtyOfAppend(lines[..i] + [lines[i]], lines[i + 1..], k);
      QtyOfAppend(lines[..i], [lines[i]], k);
      QtyOfSingle(lines[i], k);
      QtyOfAbsent(lines[..i], k);
      QtyOfAbsent(lines[i + 1..], k);
    }
  }

  /** Adding an item raises the quantity held for its key by the item's
      quantity and leaves every other key's quantity alone. */
  lemma AddLineQty(lines: seq<LineItem>, item: LineItem, k: Key)
    ensures QtyOf(AddLine(lines, item), k) == QtyOf(lines, k) + Share(item, k)
  {
    var i := FindLine(lines, KeyOf(item));
    if i >= 0 {
      QtyOfReplace(lines, i, lines[i].(quantity := lines[i].quantity + item.quantity), k);
    } else {
      QtyOfAppend(lines, [item], k);
      QtyOfSingle(item, k);
    }
  }

  // ---------------------------------------------------------------------
  // Key uniqueness

  lemma RemoveAtUnique(lines: seq<LineItem>, i: nat)
    requires i < |lines| && UniqueKeys(lines)
    ensures UniqueKeys(RemoveAt(lines, i))
  {
    var r := RemoveAt(lines, i);
    forall a, b | 0 <= a < b < |r| ensures KeyOf(r[a]) != KeyOf(r[b]) {
      var a' := if a < i then a else a + 1;
      var b' := if b < i then b else b + 1;
      assert r[a] == lines[a'] && r[b] == lines[b'];
    }
  }

  /** Adding never creates a second line with an existing key. */
  lemma AddLineUnique(lines: seq<LineItem>, item: LineItem)
    requires UniqueKeys(lines)
    ensures UniqueKeys(AddLine(lines, item))
  {
    var i := FindLine(lines, KeyOf(item));
    var r := AddLine(lines, item);
    forall a, b | 0 <= a < b < |r| ensures KeyOf(r[a]) != KeyOf(r[b]) {
      if i == -1 && b == |lines| {
        assert r[a] == lines[a];
      } else {
        assert KeyOf(r[a]) == KeyOf(lines[a]) && KeyOf(r[b]) == KeyOf(lines[b]);
      }
    }
  }

  /** A successful PUT keeps keys unique; a positive quantity is then the
      quantity held for the key, a non-positive one removes the key, and
      every other key keeps its quantity. */
  lemma UpdateLineEffect(lines: seq<LineItem>, k: Key, quantity: int, k': Key)
    requires UniqueKeys(lines)
    requires UpdateLine(lines, k, quantity).Some?
    ensures UniqueKeys(UpdateLine(lines, k, quantity).value)
    ensures QtyOf(UpdateLine(lines, k, quantity).value, k) == if quantity > 0 then quantity else 0
    ensures quantity <= 0 ==> FindLine(UpdateLine(lines, k, quantity).value, k) == -1
    ensures k' != k ==> QtyOf(UpdateLine(lines, k, quantity).value, k') == QtyOf(lines, k')
  {
    var i := FindLine(lines, k);
    var r := UpdateLine(lines, k, quantity).value;
    QtyOfUnique(lines, k);
    if quantity > 0 {
      assert forall j :: 0 <= j < |r| ==> KeyOf(r[j]) == KeyOf(lines[j]);
      QtyOfReplace(lines, i, lines[i].(quantity := quantity), k);
      QtyOfReplace(lines, i, lines[i].(quantity := quantity), k');
    } else {
      RemoveAtUnique(lines, i);
      QtyOfRemoveAt(lines, i, k);
      QtyOfRemoveAt(lines, i, k');
      forall j | 0 <= j < |r| ensures KeyOf(r[j]) != k {
        if j < i {
        } else {
          assert r[j] == lines[j + 1];
        }
      }
    }
  }

  /** A successful DELETE keeps keys unique, leaves no line with the key,
      and keeps every other key's quantity. */
  lemma RemoveLineEffect(lines: seq<LineItem>, k: Key, k': Key)
    requires UniqueKeys(lines)
    requires RemoveLine(lines, k).Some?
    ensures UniqueKeys(RemoveLine(lines, k).value)
    ensures FindLine(RemoveLine(lines, k).value, k) == -1
    ensures k' != k ==> QtyOf(RemoveLine(lines, k).value, k') == QtyOf(lines, k')
  {
    var i := FindLine(lines, k);
    var r := RemoveLine(lines, k).value;
    RemoveAtUnique(lines, i);
    QtyOfRemoveAt(lines, i, k');
    forall j | 0 <= j < |r| ensures KeyOf(r[j]) != k {
      if j >= i {
        assert r[j] == lines[j + 1];
      }
    }
  }

  // ---------------------------------------------------------------------
  // Merging a guest cart into a user cart

  /** Merging keeps a user cart with unique keys unique, whatever the guest
      lines are. */
  lemma {:induction false} MergeAllUnique(userLines: seq<LineItem>, guestLines: seq<LineItem>)
    requires UniqueKeys(userLines)
    ensures UniqueKeys(MergeAll(userLines, guestLines))
    decreases |guestLines|
  {
    if guestLines != [] {
      var g' := guestLines[..|guestLines| - 1];
      MergeAllUnique(userLines, g');
      AddLineUnique(MergeAll(userLines, g'), guestLines[|guestLines| - 1]);
    }
  }

  /** After the merge each key holds the user quantity plus the guest
      quantity. */
  lemma {:induction false} MergeAllQty(userLines: seq<LineItem>, guestLines: seq<LineItem>, k: Key)
    ensures QtyOf(MergeAll(userLines, guestLines), k) == QtyOf(userLines, k) + QtyOf(guestLines, k)
    decreases |guestLines|
  {
    if guestLines != [] {
      var g' := guestLines[..|guestLines| - 1];
      MergeAllQty(userLines, g', k);
      AddLineQty(MergeAll(userLines, g'), guestLines[|guestLines| - 1], k);
    }
  }

  /** The user's lines stay where they were, changed at most in quantity;
      every further line is a guest line appended in guest order. */
  lemma {:induction false} MergeAllKeepsUserLines(userLines: seq<LineItem>, guestLines: seq<LineItem>)
    ensures |userLines| <= |MergeAll(userLines, guestLines)| <= |userLines| + |guestLines|
    ensures forall j :: 0 <= j < |userLines| ==>
      MergeAll(userLines, guestLines)[j] == userLines[j].(quantity := MergeAll(userLines, guestLines)[j].quantity)
    decreases |guestLines|
  {
    if guestLines != [] {
      var g' := guestLines[..|guestLines| - 1];
      MergeAllKeepsUserLines(userLines, g');
    }
  }

  /** When every line of the two carts with the same key carries the same
      price, the merged total is the sum of the two totals. */
  lemma {:induction false} MergeAllTotal(userLines: seq<LineItem>, guestLines: seq<LineItem>, price: Key -> int)
    requires forall j :: 0 <= j < |userLines| ==> userLines[j].price == price(KeyOf(userLines[j]))
    requires forall j :: 0 <= j < |guestLines| ==> guestLines[j].price == price(KeyOf(guestLines[j]))
    ensures TotalPrice(MergeAll(userLines, guestLines)) == TotalPrice(userLines) + TotalPrice(guestLines)
    ensures forall j :: 0 <= j < |MergeAll(userLines, guestLines)| ==>
      MergeAll(userLines, guestLines)[j].price == price(KeyOf(MergeAll(userLines, guestLines)[j]))
    decreases |guestLines|
  {
    if guestLines != [] {
      var g' := guestLines[..|guestLines| - 1];
      var last := guestLines[|guestLines| - 1];
      var m := MergeAll(userLines, g');
      MergeAllTotal(userLines, g', price);
      AddLineTotal(m, last);
      TotalPriceAppend(g', [last]);
      InitLast(guestLines);
      TotalPriceSingle(last);
    }
  }
}
