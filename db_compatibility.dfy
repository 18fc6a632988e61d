/**
 * Reading categories and transactions from a database that may hold either
 * the new schema (`categories`, `subcategories`, joined names) or the legacy
 * one (`main_categories`, `categories_with_hierarchy`), and the payload that
 * assigns a category to a transaction.
 *
 * A query result is `None` when the client returns no data (an error) and
 * otherwise the rows of the table; ordering by name is the order of the input.
 */
module DbCompatibility {
  import opened Common

  /** A category-like row; `parent` is `category_id` in the new table and `parent_id` in the legacy one. */
  datatype Row = Row(id: string, name: string, parent: Option<string>)

  // ---------------------------------------------------------------------------
  // getCategories / getSubcategories
  // ---------------------------------------------------------------------------

  /**
   * The fallback of both readers: the new table's rows when there are any,
   * else the legacy rows when that query returned data, else the empty list.
   */
  function Fallback<T>(primary: Option<seq<T>>, legacy: Option<seq<T>>): (r: seq<T>)
  {
    var chosen := if primary.None? || primary.value == [] then (if legacy.Some? then legacy else primary) else primary;
    GetOr(chosen, [])
  }

  /** The three outcomes of the fallback, as the readers promise them. */
  lemma FallbackCases<T>(primary: Option<seq<T>>, legacy: Option<seq<T>>)
    ensures primary.Some? && primary.value != [] ==> Fallback(primary, legacy) == primary.value
    ensures (primary.None? || primary.value == []) && legacy.Some? ==> Fallback(primary, legacy) == legacy.value
    ensures (primary.None? || primary.value == []) && legacy.None? ==> Fallback(primary, legacy) == []
  {
  }

  /** Every row the fallback returns comes from the new table, or from the legacy one when the new had none. */
  lemma FallbackSource<T>(primary: Option<seq<T>>, legacy: Option<seq<T>>, x: T)
    requires x in Fallback(primary, legacy)
    ensures (primary.Some? && x in primary.value) || (legacy.Some? && x in legacy.value && (primary.None? || primary.value == []))
  {
  }

  /** `getCategories`. */
  function GetCategories(categories: Option<seq<Row>>, mainCategories: Option<seq<Row>>): seq<Row>
  {
    Fallback(categories, mainCategories)
  }

  /** `.eq(column, categoryId)` on the parent column. */
  function ChildrenOf(rows: seq<Row>, categoryId: string): (r: seq<Row>)
    ensures forall x :: x in r <==> x in rows && x.parent == Some(categoryId)
  {
    if rows == [] then []
    else
      var init := ChildrenOf(rows[..|rows| - 1], categoryId);
      var x := rows[|rows| - 1];
      assert rows == rows[..|rows| - 1] + [x];
      if x.parent == Some(categoryId) then init + [x] else init
  }

  function ChildrenIn(rows: Option<seq<Row>>, categoryId: string): Option<seq<Row>>
  {
    match rows
    case None => None
    case Some(rs) => Some(ChildrenOf(rs, categoryId))
  }

  /** `getSubcategories`: the new table by `category_id`, else the legacy table by `parent_id`, else none. */
  function GetSubcategories(categoryId: string, subcategories: Option<seq<Row>>, hierarchy: Option<seq<Row>>)
      : seq<Row>
  {
    Fallback(ChildrenIn(subcategories, categoryId), ChildrenIn(hierarchy, categoryId))
  }

  /**
   * The subcategories returned all belong to the category, taken from the new
   * table when it has any for that category and from the legacy table otherwise.
   */
  lemma SubcategoriesOfCategory(categoryId: string, subcategories: Option<seq<Row>>, hierarchy: Option<seq<Row>>)
    ensures forall x :: x in GetSubcategories(categoryId, subcategories, hierarchy) ==>
      x.parent == Some(categoryId) &&
      ((subcategories.Some? && x in subcategories.value) || (hierarchy.Some? && x in hierarchy.value))
    ensures subcategories.Some? && ChildrenOf(subcategories.value, categoryId) != [] ==>
      GetSubcategories(categoryId, subcategories, hierarchy) == ChildrenOf(subcategories.value, categoryId)
  {
    forall x | x in GetSubcategories(categoryId, subcategories, hierarchy)
      ensures x.parent == Some(categoryId)
      ensures (subcategories.Some? && x in subcategories.value) || (hierarchy.Some? && x in hierarchy.value)
    {
      FallbackSource(ChildrenIn(subcategories, categoryId), ChildrenIn(hierarchy, categoryId), x);
    }
  }

  // ---------------------------------------------------------------------------
  // getTransactionsWithCategories
  // ---------------------------------------------------------------------------

  /** A joined `categories (name)` or `subcategories (name)` object. */
  datatype Joined = Joined(name: string)

  datatype TxRow = TxRow(
    id: string,
    status: Option<string>,
    direction: Option<string>,
    categoryId: Option<string>,
    subcategoryId: Option<string>,
    categories: Option<Joined>,
    subcategories: Option<Joined>)

  /** The query options that narrow the rows; a falsy option adds no filter. */
  datatype Options = Options(status: Option<string>, direction: Option<string>, limit: nat)

  /** `.eq("status", s)` and `.eq("direction", d)` for the options given. */
  function Matching(rows: seq<TxRow>, opts: Options): (r: seq<TxRow>)
    ensures forall t :: t in r <==>
      (t in rows && (Truthy(opts.status) ==> t.status == opts.status) &&
       (Truthy(opts.direction) ==> t.direction == opts.direction))
  {
    if rows == [] then []
    else
      var init := Matching(rows[..|rows| - 1], opts);
      var t := rows[|rows| - 1];
      assert rows == rows[..|rows| - 1] + [t];
      if (Truthy(opts.status) ==> t.status == opts.status) && (Truthy(opts.direction) ==> t.direction == opts.direction)
      then init + [t] else init
  }

  /** The query: the filters, then `.limit(n)` when `n` is not 0. */
  function Query(rows: seq<TxRow>, opts: Options): (r: seq<TxRow>)
    ensures opts.limit == 0 ==> r == Matching(rows, opts)
    ensures opts.limit != 0 ==>
      var m := Matching(rows, opts);
      |r| == (if opts.limit < |m| then opts.limit else |m|) && r == m[..|r|]
  {
    var m := Matching(rows, opts);
    if opts.limit != 0 && opts.limit < |m| then m[..opts.limit] else m
  }

  /** `.eq("id", id).single()` on a legacy table, as the joined object. */
  function LookupName(rows: seq<Row>, id: string): Option<Joined>
  {
    var hits := WithId(rows, id);
    if |hits| == 1 then Some(Joined(hits[0].name)) else None
  }

  function WithId(rows: seq<Row>, id: string): (r: seq<Row>)
    ensures forall x :: x in r ==> x in rows && x.id == id
  {
    if rows == [] then []
    else
      var init := WithId(rows[..|rows| - 1], id);
      var x := rows[|rows| - 1];
      if x.id == id then init + [x] else init
  }

  /** `.eq("id", id)` selects every legacy row with the id, and only those. */
  lemma {:induction false} WithIdMembers(rows: seq<Row>, id: string)
    ensures forall x :: x in WithId(rows, id) <==> x in rows && x.id == id
  {
    if rows != [] {
      var init := rows[..|rows| - 1];
      WithIdMembers(init, id);
      assert rows == init + [rows[|rows| - 1]];
    }
  }

  /** The loop body: fill a missing join from the legacy table when the row names an id. */
  function Filled(tx: TxRow, mainCategories: seq<Row>, hierarchy: seq<Row>): TxRow
  {
    var categories :=
      if tx.categories.None? && Truthy(tx.categoryId) && LookupName(mainCategories, tx.categoryId.value).Some?
      then LookupName(mainCategories, tx.categoryId.value) else tx.categories;
    var subcategories :=
      if tx.subcategories.None? && Truthy(tx.subcategoryId) && LookupName(hierarchy, tx.subcategoryId.value).Some?
      then LookupName(hierarchy, tx.subcategoryId.value) else tx.subcategories;
    tx.(categories := categories, subcategories := subcategories)
  }

  /**
   * A join is never overwritten, is filled only when it is missing and the row
   * has the id, and is then the name of the legacy row with that id; nothing
   * else in the row changes.
   */
  lemma FillRule(tx: TxRow, mainCategories: seq<Row>, hierarchy: seq<Row>)
    ensures var t := Filled(tx, mainCategories, hierarchy);
      && t.(categories := tx.categories, subcategories := tx.subcategories) == tx
      && (tx.categories.Some? ==> t.categories == tx.categories)
      && (tx.subcategories.Some? ==> t.subcategories == tx.subcategories)
      && (t.categories != tx.categories ==>
            Truthy(tx.categoryId) &&
            exists c :: c in mainCategories && c.id == tx.categoryId.value && t.categories == Some(Joined(c.name)))
      && (t.subcategories != tx.subcategories ==>
            Truthy(tx.subcategoryId) &&
            exists c :: c in hierarchy && c.id == tx.subcategoryId.value && t.subcategories == Some(Joined(c.name)))
  {
    var t := Filled(tx, mainCategories, hierarchy);
    if t.categories != tx.categories {
      var c := WithId(mainCategories, tx.categoryId.value)[0];
      assert c in WithId(mainCategories, tx.categoryId.value);
    }
    if t.subcategories != tx.subcategories {
      var c := WithId(hierarchy, tx.subcategoryId.value)[0];
      assert c in WithId(hierarchy, tx.subcategoryId.value);
    }
  }

  /** Filling twice is filling once. */
  lemma FillIdempotent(tx: TxRow, mainCategories: seq<Row>, hierarchy: seq<Row>)
    ensures Filled(Filled(tx, mainCategories, hierarchy), mainCategories, hierarchy) == Filled(tx, mainCategories, hierarchy)
  {
  }

  /**
   * `getTransactionsWithCategories`: the queried rows, each with its missing
   * joins filled in place, in order; no data gives the empty list.
   */
  method TransactionsWithCategories(table: Option<seq<TxRow>>, opts: Options, mainCategories: seq<Row>,
                                    hierarchy: seq<Row>)
      returns (r: seq<TxRow>)
    ensures table.None? ==> r == []
    ensures table.Some? ==>
      var rows := Query(table.value, opts);
      |r| == |rows| && forall i :: 0 <= i < |rows| ==> r[i] == Filled(rows[i], mainCategories, hierarchy)
  {
    if table.None? {
      return [];
    }
    r := Query(table.value, opts);
    ghost var rows := r;
    for i := 0 to |r|
      invariant |r| == |rows|
      invariant forall j :: 0 <= j < i ==> r[j] == Filled(rows[j], mainCategories, hierarchy)
      invariant forall j :: i <= j < |r| ==> r[j] == rows[j]
    {
      var tx := r[i];
      if tx.categories.None? && Truthy(tx.categoryId) {
        var cat := LookupName(mainCategories, tx.categoryId.value);
        if cat.Some? {
          tx := tx.(categories := cat);
        }
      }
      if tx.subcategories.None? && Truthy(tx.subcategoryId) {
        var sub := LookupName(hierarchy, tx.subcategoryId.value);
        if sub.Some? {
          tx := tx.(subcategories := sub);
        }
      }
      r := r[i := tx];
    }
  }

  // ---------------------------------------------------------------------------
  // updateTransactionCategory
  // ---------------------------------------------------------------------------

  /** The update object: `category_id` always, `subcategory_id` when present. */
  datatype Payload = Payload(categoryId: string, subcategoryId: Option<string>)

  function CategoryPayload(categoryId: string, subcategoryId: Option<string>): (r: Payload)
    ensures r.categoryId == categoryId
    ensures r.subcategoryId.Some? <==> Truthy(subcategoryId) && subcategoryId.value != "skip"
    ensures r.subcategoryId.Some? ==> r.subcategoryId == subcategoryId
  {
    var data := Payload(categoryId, None);
    if Truthy(subcategoryId) && subcategoryId.value != "skip" then data.(subcategoryId := subcategoryId) else data
  }

  /** `.update(payload).eq("id", txId)`: only the fields the payload holds change, on rows with the id. */
  function ApplyPayload(rows: seq<TxRow>, txId: string, p: Payload): (r: seq<TxRow>)
    ensures |r| == |rows|
    ensures forall i :: 0 <= i < |rows| ==>
      r[i] == if rows[i].id != txId then rows[i]
              else rows[i].(categoryId := Some(p.categoryId),
                            subcategoryId := if p.subcategoryId.Some? then p.subcategoryId else rows[i].subcategoryId)
  {
    seq(|rows|, i requires 0 <= i < |rows| =>
      if rows[i].id != txId then rows[i]
      else rows[i].(categoryId := Some(p.categoryId),
                    subcategoryId := if p.subcategoryId.Some? then p.subcategoryId else rows[i].subcategoryId))
  }

  /** The same update twice leaves the table as one does. */
  lemma ApplyPayloadIdempotent(rows: seq<TxRow>, txId: string, p: Payload)
    ensures ApplyPayload(ApplyPayload(rows, txId, p), txId, p) == ApplyPayload(rows, txId, p)
  {
    var once := ApplyPayload(rows, txId, p);
    forall i | 0 <= i < |rows| ensures ApplyPayload(once, txId, p)[i] == once[i] {
      assert once[i].id == rows[i].id;
    }
  }

  /**
   * Of two updates of one transaction the later one decides its category, and
   * its subcategory when the later one carries one.
   */
  lemma LaterPayloadWins(rows: seq<TxRow>, txId: string, p: Payload, q: Payload)
    ensures var r := ApplyPayload(ApplyPayload(rows, txId, p), txId, q);
      forall i :: 0 <= i < |rows| && rows[i].id == txId ==>
        r[i].categoryId == Some(q.categoryId) &&
        (q.subcategoryId.Some? ==> r[i].subcategoryId == q.subcategoryId)
  {
    var once := ApplyPayload(rows, txId, p);
    forall i | 0 <= i < |rows| && rows[i].id == txId ensures once[i].id == txId {
    }
  }

  /** Skipping the subcategory, or giving none, keeps the one the transaction had. */
  lemma SkipKeepsSubcategory(rows: seq<TxRow>, txId: string, categoryId: string, subcategoryId: Option<string>)
    requires subcategoryId.None? || subcategoryId.value in {"", "skip"}
    ensures var r := ApplyPayload(rows, txId, CategoryPayload(categoryId, subcategoryId));
      forall i :: 0 <= i < |rows| ==> r[i].subcategoryId == rows[i].subcategoryId
  {
  }
}
