/**
 * The last steps of an ingested transaction: the three pickers that collect
 * category, subcategory and source of funds through callback data, and the
 * mapping that turns the `ingest_transactions` row into a `transactions` row,
 * inserted before the ingest row is deleted.
 */
module IngestHelpers {
  import opened Common
  import opened Keyboard

  /** The fixed user every finalised transaction belongs to. */
  const BotUserId: string := "354ef27f-64ae-4c6a-8833-2ee14885331e"

  // ---------------------------------------------------------------------------
  // Pickers
  // ---------------------------------------------------------------------------

  /** `ingest_cat:${ingestId}:` */
  function CategoryPrefix(ingestId: string): string
  {
    "ingest_cat:" + ingestId + ":"
  }

  /** `ingest_sub:${ingestId}:${catId}:` */
  function SubcategoryPrefix(ingestId: string, catId: string): string
  {
    "ingest_sub:" + ingestId + ":" + catId + ":"
  }

  /** `ingest_fund:${ingestId}:${catId}:${subId}:` */
  function FundPrefix(ingestId: string, catId: string, subId: string): string
  {
    "ingest_fund:" + ingestId + ":" + catId + ":" + subId + ":"
  }

  /** A category button's data splits into the action, the ingest row and the category. */
  lemma CategoryRoute(ingestId: string, cats: seq<Choice>, i: nat)
    requires ':' !in ingestId && i < |cats| && ':' !in cats[i].id
    ensures Split(ChoiceButtons(CategoryPrefix(ingestId), cats)[i].callbackData, ':') == ["ingest_cat", ingestId, cats[i].id]
  {
    assert ["ingest_cat", ingestId][1..] == [ingestId];
    assert Join(["ingest_cat", ingestId], ':') + ":" == CategoryPrefix(ingestId);
    ChoiceRoute(["ingest_cat", ingestId], cats, i);
  }

  /**
   * The picks travel in the callback data: a fund button's data splits into
   * the action, the ingest row, the category and subcategory picked before,
   * and the fund, the arguments `processIngestedTransaction` is called with.
   */
  lemma FundRoute(ingestId: string, catId: string, subId: string, funds: seq<Choice>, i: nat)
    requires ':' !in ingestId && ':' !in catId && ':' !in subId
    requires i < |funds| && ':' !in funds[i].id
    ensures Split(ChoiceButtons(FundPrefix(ingestId, catId, subId), funds)[i].callbackData, ':') ==
            ["ingest_fund", ingestId, catId, subId, funds[i].id]
  {
    var head := ["ingest_fund", ingestId, catId, subId];
    assert head[1..] == [ingestId, catId, subId] && head[1..][1..] == [catId, subId] && head[1..][1..][1..] == [subId];
    assert Join([catId, subId], ':') == catId + [':'] + subId;
    assert Join(head[1..], ':') == ingestId + [':'] + (catId + [':'] + subId);
    assert Join(head, ':') == "ingest_fund" + [':'] + (ingestId + [':'] + (catId + [':'] + subId));
    assert Join(head, ':') + ":" == FundPrefix(ingestId, catId, subId);
    ChoiceRoute(head, funds, i);
  }

  /** A subcategory button's data splits into the action, the ingest row, the category and the subcategory. */
  lemma SubcategoryRoute(ingestId: string, catId: string, subs: seq<Choice>, i: nat)
    requires ':' !in ingestId && ':' !in catId
    requires i < |subs| && ':' !in subs[i].id
    ensures Split(ChoiceButtons(SubcategoryPrefix(ingestId, catId), subs)[i].callbackData, ':') ==
            ["ingest_sub", ingestId, catId, subs[i].id]
  {
    var head := ["ingest_sub", ingestId, catId];
    assert head[1..] == [ingestId, catId] && head[1..][1..] == [catId];
    assert Join(head[1..], ':') == ingestId + [':'] + catId;
    assert Join(head, ':') == "ingest_sub" + [':'] + (ingestId + [':'] + catId);
    assert Join(head, ':') + ":" == SubcategoryPrefix(ingestId, catId);
    ChoiceRoute(head, subs, i);
  }

  function SkipButton(ingestId: string, catId: string): Button
  {
    Button("Skip Subcategory", "ingest_sub:" + ingestId + ":" + catId + ":skip")
  }

  /** A picker: every button once, in order, two to a row. */
  predicate PicksAll(r: Reply, prompt: string, buttons: seq<Button>)
  {
    r.Menu? && r.prompt == prompt && Flatten(r.rows) == buttons && PairRows(r.rows)
  }

  /** `showCategoriesForIngested`. */
  method CategoriesForIngested(ingestId: string, cats: seq<Choice>) returns (r: Reply)
    ensures cats == [] ==> r == Notice("No categories found.")
    ensures cats != [] ==> PicksAll(r, "Select Category for this transaction:", ChoiceButtons(CategoryPrefix(ingestId), cats))
  {
    if cats == [] {
      return Notice("No categories found.");
    }
    var rows := ChunkPairs(ChoiceButtons(CategoryPrefix(ingestId), cats));
    r := Menu("Select Category for this transaction:", rows);
  }

  /** `showSubcategoriesForIngested`: the subcategories, then always a Skip row of its own. */
  method SubcategoriesForIngested(ingestId: string, catId: string, subs: seq<Choice>) returns (r: Reply)
    ensures r.Menu? && |r.rows| >= 1
    ensures r.rows[|r.rows| - 1] == [SkipButton(ingestId, catId)]
    ensures PicksAll(Menu(r.prompt, r.rows[..|r.rows| - 1]), "Select Subcategory:",
                     ChoiceButtons(SubcategoryPrefix(ingestId, catId), subs))
  {
    var rows := ChunkPairs(ChoiceButtons(SubcategoryPrefix(ingestId, catId), subs));
    var buttons := rows + [[SkipButton(ingestId, catId)]];
    assert buttons[..|buttons| - 1] == rows;
    r := Menu("Select Subcategory:", buttons);
  }

  /** `showFundsForIngested`: a missing or empty `funds` result gives a notice. */
  method FundsForIngested(ingestId: string, catId: string, subId: string, funds: Option<seq<Choice>>)
      returns (r: Reply)
    ensures (funds.None? || funds.value == []) ==> r == Notice("No funds found.")
    ensures funds.Some? && funds.value != [] ==>
      PicksAll(r, "Select Source of Funds:", ChoiceButtons(FundPrefix(ingestId, catId, subId), funds.value))
  {
    if funds.None? || funds.value == [] {
      return Notice("No funds found.");
    }
    var rows := ChunkPairs(ChoiceButtons(FundPrefix(ingestId, catId, subId), funds.value));
    r := Menu("Select Source of Funds:", rows);
  }

  // ---------------------------------------------------------------------------
  // processIngestedTransaction
  // ---------------------------------------------------------------------------

  /** An `ingest_transactions` row, as far as the finalisation reads it. */
  datatype IngestRow = IngestRow(
    id: string,
    amount: int,
    merchant: Option<string>,
    direction: Option<string>,
    happenedAt: Option<string>)

  /** The `transactions` row the finalisation inserts. */
  datatype FinalTx = FinalTx(
    userId: string,
    amount: int,
    description: string,
    category: Option<string>,
    subcategory: Option<string>,
    kind: string,
    status: string,
    date: string,
    sourceOfFundsId: string,
    happenedAt: Option<string>,
    direction: Option<string>)

  /** The transaction type: income exactly for a credit. */
  function KindOf(direction: Option<string>): (r: string)
    ensures r == "income" <==> direction == Some("credit")
    ensures r == "expense" <==> direction != Some("credit")
  {
    if direction == Some("credit") then "income"
    else if direction == Some("debit") then "expense"
    else "expense"
  }

  /** A picked id, where "skip" stands for none. */
  function Picked(id: string): (r: Option<string>)
    ensures r.None? <==> id == "skip"
    ensures r.Some? ==> r.value == id
  {
    if id != "skip" then Some(id) else None
  }

  /** The date part of `happened_at`, else of the current ISO timestamp. */
  function DateOf(happenedAt: Option<string>, nowIso: string): (r: string)
    ensures var src := if Truthy(happenedAt) then happenedAt.value else nowIso;
      StartsWith(src, r) && 'T' !in r && (|r| < |src| ==> src[|r|] == 'T')
  {
    var src := if Truthy(happenedAt) then happenedAt.value else nowIso;
    SplitHead(src, 'T');
    Split(src, 'T')[0]
  }

  /** The row inserted for an ingest row and the picked category, subcategory and fund. */
  function FinalRow(row: IngestRow, catId: string, subId: string, fundId: string, nowIso: string): FinalTx
  {
    FinalTx(BotUserId, row.amount, OrElse(row.merchant, "No description"), Picked(catId), Picked(subId),
            KindOf(row.direction), "paid", DateOf(row.happenedAt, nowIso), fundId, row.happenedAt, row.direction)
  }

  /**
   * The inserted row belongs to the bot's user, is paid, carries the ingest
   * row's amount, direction and timestamp and the picked fund, describes itself
   * by the merchant when there is one, and its date is the text of `happened_at`
   * (else of the current ISO timestamp) before the first 'T', or all of it when
   * there is no 'T'.
   */
  lemma FinalRowFields(row: IngestRow, catId: string, subId: string, fundId: string, nowIso: string)
    ensures var t := FinalRow(row, catId, subId, fundId, nowIso);
      && t.userId == BotUserId && t.status == "paid" && t.sourceOfFundsId == fundId
      && t.amount == row.amount && t.direction == row.direction && t.happenedAt == row.happenedAt
      && t.description == (if Truthy(row.merchant) then row.merchant.value else "No description")
      && (t.kind == "income" <==> row.direction == Some("credit"))
      && (t.category.None? <==> catId == "skip") && (t.subcategory.None? <==> subId == "skip")
      && (t.category.Some? ==> t.category.value == catId) && (t.subcategory.Some? ==> t.subcategory.value == subId)
      && var src := if Truthy(row.happenedAt) then row.happenedAt.value else nowIso;
         StartsWith(src, t.date) && 'T' !in t.date && (|t.date| < |src| ==> src[|t.date|] == 'T')
  {
  }

  /** `.eq("id", id)` on `ingest_transactions`. */
  function WithId(rows: seq<IngestRow>, id: string): (r: seq<IngestRow>)
    ensures |r| <= |rows|
  {
    if rows == [] then []
    else
      var init := WithId(rows[..|rows| - 1], id);
      if rows[|rows| - 1].id == id then init + [rows[|rows| - 1]] else init
  }

  /** `.eq("id", id)` selects every row with the id, and only those. */
  lemma {:induction false} WithIdMembers(rows: seq<IngestRow>, id: string)
    ensures forall r :: r in WithId(rows, id) <==> r in rows && r.id == id
  {
    if rows != [] {
      var init := rows[..|rows| - 1];
      WithIdMembers(init, id);
      assert rows == init + [rows[|rows| - 1]];
    }
  }

  /** `.delete().eq("id", id)`: the rows without that id, in order. */
  function Without(rows: seq<IngestRow>, id: string): (r: seq<IngestRow>)
    ensures |r| <= |rows|
  {
    if rows == [] then []
    else
      var init := Without(rows[..|rows| - 1], id);
      if rows[|rows| - 1].id == id then init else init + [rows[|rows| - 1]]
  }

  /** The delete removes exactly the rows with the id: every other row stays. */
  lemma {:induction false} WithoutExactly(rows: seq<IngestRow>, id: string)
    ensures forall r :: r in Without(rows, id) <==> r in rows && r.id != id
  {
    if rows != [] {
      WithoutExactly(rows[..|rows| - 1], id);
      assert rows == rows[..|rows| - 1] + [rows[|rows| - 1]];
    }
  }

  /** After the delete, the id selects nothing. */
  lemma {:induction false} NothingLeft(rows: seq<IngestRow>, id: string)
    ensures WithId(Without(rows, id), id) == []
  {
    if rows != [] {
      var init := rows[..|rows| - 1];
      NothingLeft(init, id);
      if rows[|rows| - 1].id != id {
        assert Without(rows, id) == Without(init, id) + [rows[|rows| - 1]];
        assert (Without(init, id) + [rows[|rows| - 1]])[..|Without(init, id)|] == Without(init, id);
      }
    }
  }

  /** The message the finalisation shows in place of the picker. */
  datatype Outcome = NotFound | SaveFailed(message: string) | Processed

  class IngestQueue {
    var ingest: seq<IngestRow>
    var transactions: seq<FinalTx>

    constructor (rows: seq<IngestRow>, txs: seq<FinalTx>)
      ensures ingest == rows && transactions == txs
    {
      ingest, transactions := rows, txs;
    }

    /**
     * `processIngestedTransaction`: look the ingest row up, insert the mapped
     * row, and only after a successful insert delete the ingest row. The
     * delete's own failure goes unreported.
     */
    method ProcessIngested(ingestId: string, catId: string, subId: string, fundId: string, nowIso: string,
                           insertError: Option<string>, deleteFails: bool)
        returns (outcome: Outcome)
      modifies this
      ensures var found := Single(WithId(old(ingest), ingestId));
        && (found.None? ==> outcome == NotFound && unchanged(this))
        && (found.Some? && insertError.Some? ==> outcome == SaveFailed(insertError.value) && unchanged(this))
        && (found.Some? && insertError.None? ==>
              && outcome == Processed
              && transactions == old(transactions) + [FinalRow(found.value, catId, subId, fundId, nowIso)]
              && ingest == if deleteFails then old(ingest) else Without(old(ingest), ingestId))
    {
      var found := Single(WithId(ingest, ingestId));
      if found.None? {
        return NotFound;
      }
      if insertError.Some? {
        return SaveFailed(insertError.value);
      }
      transactions := transactions + [FinalRow(found.value, catId, subId, fundId, nowIso)];
      if !deleteFails {
        ingest := Without(ingest, ingestId);
      }
      outcome := Processed;
    }
  }

  /**
   * Once processed and deleted, the ingest row cannot be processed again: a
   * second attempt with the same id finds nothing.
   */
  lemma ProcessedOnce(rows: seq<IngestRow>, id: string)
    ensures Single(WithId(Without(rows, id), id)).None?
  {
    NothingLeft(rows, id);
  }
}
