/**
 * Inline keyboards sent with Telegram messages, and the loop that the category,
 * subcategory and fund pickers share: buttons are pushed onto a row, and a row
 * is closed after its second button, with a last partial row kept.
 */
module Keyboard {
  import opened Common

  /** One inline button: its label and the callback data it sends back. */
  datatype Button = Button(text: string, callbackData: string)

  /**
   * What a handler sends: a plain notice, a prompt with an inline keyboard, or
   * a prompt with a persistent reply keyboard whose keys send their own text.
   */
  datatype Reply =
    | Notice(text: string)
    | Menu(prompt: string, rows: seq<seq<Button>>)
    | Keys(prompt: string, keys: seq<seq<string>>)

  /** The items of all rows, row by row. */
  function Flatten<T>(rows: seq<seq<T>>): seq<T>
  {
    if rows == [] then [] else Flatten(rows[..|rows| - 1]) + rows[|rows| - 1]
  }

  lemma FlattenAppend<T>(rows: seq<seq<T>>, row: seq<T>)
    ensures Flatten(rows + [row]) == Flatten(rows) + row
  {
    assert (rows + [row])[..|rows|] == rows;
  }

  lemma {:induction false} FlattenConcat<T>(a: seq<seq<T>>, b: seq<seq<T>>)
    ensures Flatten(a + b) == Flatten(a) + Flatten(b)
    decreases |b|
  {
    if b == [] {
      assert a + b == a;
    } else {
      var last := b[|b| - 1];
      var init := b[..|b| - 1];
      assert a + b == (a + init) + [last];
      assert b == init + [last];
      FlattenAppend(a + init, last);
      FlattenAppend(init, last);
      FlattenConcat(a, init);
    }
  }

  /** A category, subcategory or fund offered by a picker: its id and display name. */
  datatype Choice = Choice(id: string, name: string)

  /** One button per choice, labelled with its name, whose data is `prefix` followed by its id. */
  function ChoiceButtons(prefix: string, choices: seq<Choice>): (r: seq<Button>)
    ensures |r| == |choices|
  {
    seq(|choices|, i requires 0 <= i < |choices| => Button(choices[i].name, prefix + choices[i].id))
  }

  /**
   * A picker button routes back to its choice: when the prefix is the parts
   * `head` joined and closed by ':', the callback handler's `split(':')` of the
   * button's data gives those parts followed by the choice's id, and the label
   * is the choice's name.
   */
  lemma ChoiceRoute(head: seq<string>, choices: seq<Choice>, i: nat)
    requires head != [] && forall k :: 0 <= k < |head| ==> ':' !in head[k]
    requires i < |choices| && ':' !in choices[i].id
    ensures var b := ChoiceButtons(Join(head, ':') + ":", choices)[i];
      b.text == choices[i].name && Split(b.callbackData, ':') == head + [choices[i].id]
  {
    var id := choices[i].id;
    JoinSnoc(head, id, ':');
    assert Join(head, ':') + ":" + id == Join(head, ':') + [':'] + id;
    SplitJoin(head + [id], ':');
  }

  /** Rows of one or two items, where only the last row may be short. */
  predicate PairRows<T>(rows: seq<seq<T>>)
  {
    && (forall i :: 0 <= i < |rows| ==> 1 <= |rows[i]| <= 2)
    && (forall i :: 0 <= i < |rows| - 1 ==> |rows[i]| == 2)
  }

  /**
   * The row-building loop: every item appears once, in order, in rows of two,
   * with a last row of one when the count is odd.
   */
  method ChunkPairs<T>(items: seq<T>) returns (rows: seq<seq<T>>)
    ensures Flatten(rows) == items
    ensures PairRows(rows)
    ensures |rows| == (|items| + 1) / 2
  {
    rows := [];
    var row: seq<T> := [];
    for k := 0 to |items|
      invariant Flatten(rows) + row == items[..k]
      invariant |row| == k % 2 && |rows| == k / 2
      invariant forall i :: 0 <= i < |rows| ==> |rows[i]| == 2
    {
      assert items[..k + 1] == items[..k] + [items[k]];
      row := row + [items[k]];
      if |row| == 2 {
        FlattenAppend(rows, row);
        rows := rows + [row];
        row := [];
      }
    }
    assert items[..|items|] == items;
    if |row| > 0 {
      FlattenAppend(rows, row);
      rows := rows + [row];
    }
  }
}
