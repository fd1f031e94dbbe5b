/**
 * The quote comparison table (src/components/VendorTable.tsx).
 *
 * The table gets two optional lists of quotes: the open ones and the locked
 * ones (whose transporter is not revealed).  It shows both together,
 * cheapest first, masks what a locked quote hides, and keeps a per-row
 * expand/collapse map.  Everything here is a function of its inputs.
 */
module VendorTable {
  import opened JsText

  /**
   * The fields of a quote the table decides on.  `estimatedTime` is the
   * quote's time converted by `Number`, `None` standing for NaN; the other
   * fields of the detail view are only printed and are not modelled.
   */
  datatype Quote = Quote(
    transporterName: Option<string>,
    estimatedTime: Option<real>,
    chargeableWeight: Option<real>,
    totalCharges: real,
    price: real)

  function OrEmpty(qs: Option<seq<Quote>>): seq<Quote> {
    if qs.Some? then qs.value else []
  }

  // ---------------------------------------------------------------------------
  // Ordering: `[...(data || []), ...(hiddendata || [])].sort((a, b) => a.price - b.price)`

  predicate SortedByPrice(s: seq<Quote>) {
    forall i, j :: 0 <= i < j < |s| ==> s[i].price <= s[j].price
  }

  /** Puts `x` in front of the first quote that costs at least as much. */
  function Insert(x: Quote, t: seq<Quote>): (r: seq<Quote>)
    ensures |r| == |t| + 1
  {
    if t == [] || x.price <= t[0].price then [x] + t
    else [t[0]] + Insert(x, t[1..])
  }

  /** Inserting adds `x` to the quotes, and nothing else. */
  lemma {:induction false} InsertPermutes(x: Quote, t: seq<Quote>)
    ensures multiset(Insert(x, t)) == multiset(t) + multiset{x}
  {
    if !(t == [] || x.price <= t[0].price) {
      InsertPermutes(x, t[1..]);
      assert t == [t[0]] + t[1..];
    }
  }

  /** Inserting into a sorted list keeps it sorted, and nothing cheaper than `x` or the old head appears. */
  lemma {:induction false} InsertSorted(x: Quote, t: seq<Quote>)
    requires SortedByPrice(t)
    ensures SortedByPrice(Insert(x, t))
    ensures forall k :: 0 <= k < |Insert(x, t)| ==>
      Insert(x, t)[k].price >= if t == [] || x.price <= t[0].price then x.price else t[0].price
  {
    if !(t == [] || x.price <= t[0].price) {
      InsertSorted(x, t[1..]);
    }
  }

  /**
   * A stable sort by price: the order of a sort whose equal elements keep
   * their input order, as `Array.prototype.sort` guarantees since
   * ECMAScript 2019.
   */
  function SortByPrice(s: seq<Quote>): (r: seq<Quote>)
    ensures SortedByPrice(r)
    ensures multiset(r) == multiset(s)
    ensures |r| == |s|
  {
    if s == [] then []
    else
      var t := SortByPrice(s[1..]);
      InsertSorted(s[0], t);
      InsertPermutes(s[0], t);
      assert s == [s[0]] + s[1..];
      Insert(s[0], t)
  }

  /** The quotes of price `p`, in order. */
  function AtPrice(s: seq<Quote>, p: real): seq<Quote> {
    if s == [] then [] else (if s[0].price == p then [s[0]] else []) + AtPrice(s[1..], p)
  }

  lemma {:induction false} AtPriceOfConcat(a: seq<Quote>, b: seq<Quote>, p: real)
    ensures AtPrice(a + b, p) == AtPrice(a, p) + AtPrice(b, p)
  {
    if a == [] {
      assert a + b == b;
    } else {
      var ab := a + b;
      assert ab[0] == a[0] && ab[1..] == a[1..] + b;
      var head := if a[0].price == p then [a[0]] else [];
      assert AtPrice(ab, p) == head + AtPrice(a[1..] + b, p);
      AtPriceOfConcat(a[1..], b, p);
    }
  }

  /** Inserting into a sorted list puts `x` in front of the quotes of its own price. */
  lemma {:induction false} AtPriceOfInsert(x: Quote, t: seq<Quote>, p: real)
    requires SortedByPrice(t)
    ensures AtPrice(Insert(x, t), p) == (if x.price == p then [x] else []) + AtPrice(t, p)
  {
    if t == [] || x.price <= t[0].price {
      assert Insert(x, t) == [x] + t;
      AtPriceOfConcat([x], t, p);
    } else {
      var rest := Insert(x, t[1..]);
      assert Insert(x, t) == [t[0]] + rest;
      AtPriceOfConcat([t[0]], rest, p);
      AtPriceOfInsert(x, t[1..], p);
      assert AtPrice(t, p) == AtPrice([t[0]], p) + AtPrice(t[1..], p) by {
        assert t == [t[0]] + t[1..];
        AtPriceOfConcat([t[0]], t[1..], p);
      }
    }
  }

  /** Stability: the quotes of any one price come out in the order they went in. */
  lemma {:induction false} SortByPriceStable(s: seq<Quote>, p: real)
    ensures AtPrice(SortByPrice(s), p) == AtPrice(s, p)
  {
    if s != [] {
      SortByPriceStable(s[1..], p);
      AtPriceOfInsert(s[0], SortByPrice(s[1..]), p);
    }
  }

  /** The rows of the table, in display order. */
  function Rows(data: Option<seq<Quote>>, hidden: Option<seq<Quote>>): seq<Quote> {
    SortByPrice(OrEmpty(data) + OrEmpty(hidden))
  }

  /**
   * The rows are the open and the locked quotes together, cheapest first;
   * of two quotes with the same price, the open one comes first, and within
   * each list the order is kept.
   */
  lemma RowsOrder(data: Option<seq<Quote>>, hidden: Option<seq<Quote>>, p: real)
    ensures SortedByPrice(Rows(data, hidden))
    ensures multiset(Rows(data, hidden)) == multiset(OrEmpty(data)) + multiset(OrEmpty(hidden))
    ensures AtPrice(Rows(data, hidden), p) == AtPrice(OrEmpty(data), p) + AtPrice(OrEmpty(hidden), p)
  {
    SortByPriceStable(OrEmpty(data) + OrEmpty(hidden), p);
    AtPriceOfConcat(OrEmpty(data), OrEmpty(hidden), p);
  }

  // ---------------------------------------------------------------------------
  // One row

  /** A locked quote is one without a transporter name. */
  predicate IsHidden(q: Quote) { q.transporterName.None? }

  /** `Math.floor(Number(estimatedTime)) + 2`; NaN stays NaN. */
  function Days(q: Quote): (d: Option<int>)
    ensures d.None? <==> q.estimatedTime.None?
    ensures d.Some? ==> (d.value - 2) as real <= q.estimatedTime.value < (d.value - 1) as real
  {
    match q.estimatedTime
    case None => None
    case Some(t) => Some(t.Floor + 2)
  }

  /** A cell either shows its value or a blurred placeholder. */
  datatype Cell<T> = Masked(placeholder: string) | Shown(value: T)

  /** The last column: a link to the pricing page, or the bifurcation toggle with its current state. */
  datatype Action = BuyNow | ToggleDetails(expanded: bool)

  datatype RowView = RowView(
    name: Cell<string>,
    days: Cell<Option<int>>,
    weight: Cell<real>,
    total: real,
    action: Action,
    detailDays: Option<Option<int>>)

  /** One rendered row, `detailDays` being present exactly when the bifurcation row is shown. */
  function RenderRow(q: Quote, expanded: bool): (v: RowView)
    ensures IsHidden(q) ==> v.name == Masked("XXXXXXXX") && v.days == Masked("XX Days") && v.action == BuyNow
    ensures !IsHidden(q) ==>
      v.name == Shown(q.transporterName.value) && v.days == Shown(Days(q)) && v.action == ToggleDetails(expanded)
    ensures v.weight == if q.chargeableWeight.None? then Masked("XX") else Shown(q.chargeableWeight.value)
    ensures v.total == q.totalCharges
    ensures v.detailDays.Some? <==> expanded && !IsHidden(q)
    ensures v.detailDays.Some? ==> v.detailDays.value == Days(q)
  {
    var hidden := IsHidden(q);
    RowView(
      if hidden then Masked("XXXXXXXX") else Shown(q.transporterName.value),
      if hidden then Masked("XX Days") else Shown(Days(q)),
      if q.chargeableWeight.None? then Masked("XX") else Shown(q.chargeableWeight.value),
      q.totalCharges,
      if hidden then BuyNow else ToggleDetails(expanded),
      if expanded && !hidden then Some(Days(q)) else None)
  }

  // ---------------------------------------------------------------------------
  // The expand/collapse map

  /** `expandedRows[index]` in a condition: a missing entry counts as collapsed. */
  function IsExpanded(m: map<int, bool>, i: int): bool {
    i in m && m[i]
  }

  /** `toggleRow`: flips entry `i` and keeps every other entry. */
  function ToggleRow(m: map<int, bool>, i: int): (r: map<int, bool>)
    ensures r.Keys == m.Keys + {i}
    ensures forall j :: j in m && j != i ==> r[j] == m[j]
    ensures IsExpanded(r, i) == !IsExpanded(m, i)
  {
    m[i := !IsExpanded(m, i)]
  }

  /** Toggling a row twice shows every row as before. */
  lemma ToggleRowTwice(m: map<int, bool>, i: int)
    ensures forall j :: IsExpanded(ToggleRow(ToggleRow(m, i), i), j) == IsExpanded(m, j)
  {
  }

  /** The whole table body. */
  function RenderTable(data: Option<seq<Quote>>, hidden: Option<seq<Quote>>, expanded: map<int, bool>): (vs: seq<RowView>)
    ensures |vs| == |OrEmpty(data)| + |OrEmpty(hidden)|
    ensures forall i :: 0 <= i < |vs| ==> vs[i] == RenderRow(Rows(data, hidden)[i], IsExpanded(expanded, i))
  {
    var rows := Rows(data, hidden);
    seq(|rows|, i requires 0 <= i < |rows| => RenderRow(rows[i], IsExpanded(expanded, i)))
  }
}
