/**
 * The Telegram bot's conversation logic: the per-chat session and its state
 * machine for manual entry, the dispatch of commands, the callback buttons
 * that change transactions and sessions, and the data behind the paginated
 * transaction list and the category keyboards.
 *
 * The `bot_sessions` and `transactions` tables are fields of a class. The rows
 * a handler receives from the reporting and category queries, the ids the
 * database hands out, the clock, and the failure of a store write are inputs.
 * Messages are returned as values instead of being sent.
 */
module BotLogic {
  import opened Common
  import opened Keyboard

  type Id = string

  datatype State = Idle | AwaitAmount | AwaitDirection | AwaitMerchant | AwaitDate | Saving

  /** A value of the JSON session context: a string or a number. */
  datatype Value = Text(s: string) | Int(n: int)

  /** The session context; `{ ...context, key: v }` is `context[key := v]`. */
  type Context = map<string, Value>

  datatype Session = Session(id: Id, chatId: int, userId: int, state: State, context: Context)

  /** A `transactions` row, as far as the bot reads and writes it. */
  datatype Tx = Tx(
    id: Id,
    status: string,
    categoryId: Option<Id>,
    subcategoryId: Option<Id>,
    amount: Option<Value>,
    direction: Option<Value>,
    merchant: Option<Value>,
    happenedAt: Option<Value>,
    source: string,
    currency: string)

  function Get(ctx: Context, key: string): (r: Option<Value>)
    ensures r.Some? <==> key in ctx
  {
    if key in ctx then Some(ctx[key]) else None
  }

  /** A template literal prints a missing value as "undefined". */
  function Str(o: Option<string>): string
  {
    GetOr(o, "undefined")
  }

  const InvalidAmount: string := "Invalid amount. Please enter a number."
  const AskDirection: string := "Is this an expense or income?"
  const AskDate: string := "Enter date (YYYY-MM-DD) or type 'today':"
  const Saved: string := "\U{2705} Transaction saved!"
  const AskAmount: string := "Enter amount (e.g. 50000):"
  const Help: string := "I didn't understand that. Try /pending, /new, /today, /month or /period."
  const Welcome: string := "Welcome to WalleTracker! \U{1F916}\U{1F4B0}\nSelect an option below:"
  const WebAppUsage: string := "Please provide the Web App URL. Usage: /setwebapp https://your-app.com"
  const WebAppSet: string := "\U{2705} Web App button set! Restart Telegram to see it."
  const MenuUpdated: string := "\U{2705} Menu commands updated and button reset to 'Menu'. Restart app if needed."
  const MenuReset: string := "\U{2705} Menu button reset to standard Commands list."
  const UnknownCommandText: string := "Unknown command."
  const Confirmed: string := "\U{2705} Transaction confirmed and saved."
  const Rejected: string := "\U{274C} Transaction rejected."
  const Categorized: string := "\U{2705} Transaction categorized and saved!"
  const Recalculating: string := "\U{23F3} Recalculating budget summaries... this may take a moment."

  // ---------------------------------------------------------------------------
  // Commands
  // ---------------------------------------------------------------------------

  /** The texts of the persistent reply keyboard, which act as commands. */
  const MenuTexts: seq<string> := ["Period", "Recalculate", "Today", "Pending"]

  /** The persistent reply keyboard `/start` sends, two keys per row. */
  const MainKeys: seq<seq<string>> := [["Period", "Today"], ["Recalculate", "Pending"]]

  predicate IsCommand(text: string)
  {
    StartsWith(text, "/") || text in MenuTexts
  }

  /** The handler `handleCommand` runs. */
  datatype Action =
    | Start | ShowPending | NewEntry | ShowBudget | ShowToday | ShowPeriodMenu | Recalculate
    | SetMenu | ResetMenu | SetWebApp(url: Option<string>) | UnknownCommand

  /** The dispatch of `handleCommand` on the first blank-separated word, in its order of tests. */
  function CommandAction(text: string): Action
  {
    var words := Split(text, ' ');
    var command := words[0];
    if command == "/start" then Start
    else if command == "/pending" || text == "Pending" then ShowPending
    else if command == "/new" then NewEntry
    else if command == "/budget" || command == "/month" then ShowBudget
    else if command == "/today" || text == "Today" then ShowToday
    else if command == "/period" || text == "Period" then ShowPeriodMenu
    else if command == "/recalculate" || text == "Recalculate" then Recalculate
    else if command == "/setmenu" then SetMenu
    else if command == "/resetmenu" then ResetMenu
    else if command == "/setwebapp" then SetWebApp(if Truthy(At(words, 1)) then At(words, 1) else None)
    else UnknownCommand
  }

  /** `/new` starts a manual entry exactly when it is the first word of the text. */
  lemma NewEntryIffCommand(text: string)
    ensures CommandAction(text) == NewEntry <==> Split(text, ' ')[0] == "/new"
  {
    if text == "Pending" {
      SplitFree(text, ' ');
    }
  }

  /**
   * The messages a command sends itself, before any report; the report
   * handlers format the results of the reporting queries.
   */
  function CommandReplies(action: Action): seq<Reply>
  {
    match action
    case Start => [Keys(Welcome, MainKeys)]
    case NewEntry => [Notice(AskAmount)]
    case Recalculate => [Notice(Recalculating)]
    case SetMenu => [Notice(MenuUpdated)]
    case ResetMenu => [Notice(MenuReset)]
    case SetWebApp(url) => if url.None? then [Notice(WebAppUsage)] else [Notice(WebAppSet)]
    case UnknownCommand => [Notice(UnknownCommandText)]
    case _ => []
  }

  /** `/start` sends the welcome with the reply keyboard, whose keys are the menu texts. */
  lemma StartSendsKeys()
    ensures CommandReplies(CommandAction("/start")) == [Keys(Welcome, MainKeys)]
    ensures Flatten(MainKeys) == ["Period", "Today", "Recalculate", "Pending"]
    ensures forall k :: k in Flatten(MainKeys) ==> k in MenuTexts && IsCommand(k)
  {
    SplitFree("/start", ' ');
    assert MainKeys[..1] == [["Period", "Today"]];
    assert MainKeys[..1][..0] == [];
  }

  /** Every menu text is a single word without a slash, so `PlainWordAction` dispatches it by its text. */
  lemma MenuTextsArePlainWords()
    ensures forall k :: k in MenuTexts ==> k != [] && k[0] != '/' && ' ' !in k
  {
    assert ' ' !in "Period" && ' ' !in "Today";
    assert ' ' !in "Recalculate" && ' ' !in "Pending";
  }

  /** A single word without a slash runs a handler only when it is one of the menu texts. */
  lemma {:induction false} PlainWordAction(k: string)
    requires k != [] && k[0] != '/' && ' ' !in k
    ensures CommandAction(k) == (if k == "Pending" then ShowPending
                                 else if k == "Today" then ShowToday
                                 else if k == "Period" then ShowPeriodMenu
                                 else if k == "Recalculate" then Recalculate
                                 else UnknownCommand)
  {
    SplitFree(k, ' ');
  }

  // ---------------------------------------------------------------------------
  // Sessions
  // ---------------------------------------------------------------------------

  /** One `updateSession(id, state, context)`. */
  datatype Write = Write(state: State, context: Context)

  /** `.eq("chat_id", chatId).eq("user_id", userId)` on `bot_sessions`. */
  function WithKey(sessions: seq<Session>, chatId: int, userId: int): (r: seq<Session>)
    ensures |r| <= |sessions|
    ensures forall s :: s in r ==> s in sessions && s.chatId == chatId && s.userId == userId
  {
    if sessions == [] then []
    else
      var init := WithKey(sessions[..|sessions| - 1], chatId, userId);
      var s := sessions[|sessions| - 1];
      if s.chatId == chatId && s.userId == userId then init + [s] else init
  }

  /** `.eq("id", id)` on `bot_sessions`; a missing id selects nothing. */
  function WithId(sessions: seq<Session>, id: Option<Id>): (r: seq<Session>)
    ensures |r| <= |sessions|
    ensures forall s :: s in r ==> s in sessions && Some(s.id) == id
  {
    if sessions == [] then []
    else
      var init := WithId(sessions[..|sessions| - 1], id);
      var s := sessions[|sessions| - 1];
      if Some(s.id) == id then init + [s] else init
  }

  /** The lookup selects every session with both keys, and only those. */
  lemma {:induction false} WithKeyMembers(sessions: seq<Session>, chatId: int, userId: int)
    ensures forall s :: s in WithKey(sessions, chatId, userId) <==>
      s in sessions && s.chatId == chatId && s.userId == userId
  {
    if sessions != [] {
      var init := sessions[..|sessions| - 1];
      WithKeyMembers(init, chatId, userId);
      assert sessions == init + [sessions[|sessions| - 1]];
    }
  }

  /** `.eq("id", id)` selects every session with the id, and only those. */
  lemma {:induction false} WithIdMembers(sessions: seq<Session>, id: Option<Id>)
    ensures forall s :: s in WithId(sessions, id) <==> s in sessions && Some(s.id) == id
  {
    if sessions != [] {
      var init := sessions[..|sessions| - 1];
      WithIdMembers(init, id);
      assert sessions == init + [sessions[|sessions| - 1]];
    }
  }

  /** The lookup keeps the table's order: it distributes over concatenation. */
  lemma {:induction false} WithKeyAppend(a: seq<Session>, b: seq<Session>, chatId: int, userId: int)
    ensures WithKey(a + b, chatId, userId) == WithKey(a, chatId, userId) + WithKey(b, chatId, userId)
    decreases |b|
  {
    if b == [] {
      assert a + b == a;
    } else {
      var init := b[..|b| - 1];
      assert (a + b)[..|a + b| - 1] == a + init;
      assert (a + b)[|a + b| - 1] == b[|b| - 1];
      WithKeyAppend(a, init, chatId, userId);
    }
  }

  function NewSession(id: Id, chatId: int, userId: int): Session
  {
    Session(id, chatId, userId, Idle, map[])
  }

  /** The session `handleMessage` works with: the one found, else the one it inserts, else none. */
  function Current(sessions: seq<Session>, chatId: int, userId: int, newId: Id, insertFails: bool): Option<Session>
  {
    var found := Single(WithKey(sessions, chatId, userId));
    if found.Some? then found
    else if insertFails then None
    else Some(NewSession(newId, chatId, userId))
  }

  /** The table after the lookup: a session is inserted when none was found and the insert succeeds. */
  function AfterLookup(sessions: seq<Session>, chatId: int, userId: int, newId: Id, insertFails: bool): seq<Session>
  {
    if Single(WithKey(sessions, chatId, userId)).None? && !insertFails
    then sessions + [NewSession(newId, chatId, userId)]
    else sessions
  }

  /** A session that is the only one with its chat and user is reused, and nothing is inserted. */
  lemma LoneSessionReused(before: seq<Session>, s: Session, after: seq<Session>, newId: Id, insertFails: bool)
    requires forall t :: t in before + after ==> !(t.chatId == s.chatId && t.userId == s.userId)
    ensures var sessions := before + [s] + after;
      && Current(sessions, s.chatId, s.userId, newId, insertFails) == Some(s)
      && AfterLookup(sessions, s.chatId, s.userId, newId, insertFails) == sessions
  {
    WithKeyMembers(before, s.chatId, s.userId);
    WithKeyMembers(after, s.chatId, s.userId);
    if WithKey(before, s.chatId, s.userId) != [] {
      assert WithKey(before, s.chatId, s.userId)[0] in WithKey(before, s.chatId, s.userId);
    }
    if WithKey(after, s.chatId, s.userId) != [] {
      assert WithKey(after, s.chatId, s.userId)[0] in WithKey(after, s.chatId, s.userId);
    }
    WithKeyAppend(before, [s], s.chatId, s.userId);
    WithKeyAppend(before + [s], after, s.chatId, s.userId);
    assert [s][..0] == [];
  }

  /** The update: every session with the id gets the state and the context; nothing else changes. */
  function UpdateSessions(sessions: seq<Session>, id: Id, state: State, ctx: Context): (r: seq<Session>)
    ensures |r| == |sessions|
    ensures forall i :: 0 <= i < |sessions| ==>
      r[i] == if sessions[i].id == id then sessions[i].(state := state, context := ctx) else sessions[i]
  {
    seq(|sessions|, i requires 0 <= i < |sessions| =>
      if sessions[i].id == id then sessions[i].(state := state, context := ctx) else sessions[i])
  }

  /** A sequence of updates of one session, in order. */
  function ApplyWrites(sessions: seq<Session>, id: Id, writes: seq<Write>): (r: seq<Session>)
    ensures |r| == |sessions|
    // sessions with another id are untouched
    ensures forall i :: 0 <= i < |sessions| && sessions[i].id != id ==> r[i] == sessions[i]
  {
    if writes == [] then sessions
    else
      var w := writes[|writes| - 1];
      UpdateSessions(ApplyWrites(sessions, id, writes[..|writes| - 1]), id, w.state, w.context)
  }

  /** A later update of the same session replaces all that an earlier one wrote. */
  lemma UpdateOverrides(sessions: seq<Session>, id: Id, a: Write, b: Write)
    ensures UpdateSessions(UpdateSessions(sessions, id, a.state, a.context), id, b.state, b.context) ==
            UpdateSessions(sessions, id, b.state, b.context)
  {
  }

  /** After several updates of a session, the last one alone decides its state and context. */
  lemma {:induction false} LastWriteWins(sessions: seq<Session>, id: Id, writes: seq<Write>)
    requires writes != []
    ensures var w := writes[|writes| - 1];
      ApplyWrites(sessions, id, writes) == UpdateSessions(sessions, id, w.state, w.context)
  {
    var init := writes[..|writes| - 1];
    var w := writes[|writes| - 1];
    if init != [] {
      LastWriteWins(sessions, id, init);
      UpdateOverrides(sessions, id, init[|init| - 1], w);
    }
  }

  /** What a command writes: the reset of a busy session, then `/start`'s or `/new`'s own update. */
  function CommandWrites(s: Session, action: Action): seq<Write>
  {
    (if s.state != Idle then [Write(Idle, map[])] else [])
    + (match action
       case Start => [Write(Idle, map[])]
       case NewEntry => [Write(AwaitAmount, map["type" := Text("manual_entry")])]
       case _ => [])
  }

  /**
   * A command cancels a manual entry in progress: afterwards the session is idle
   * with an empty context, except after `/new`, which starts a fresh entry.
   */
  lemma CommandCancels(sessions: seq<Session>, s: Session, action: Action)
    ensures var after := ApplyWrites(sessions, s.id, CommandWrites(s, action));
      forall i :: 0 <= i < |sessions| && sessions[i].id == s.id ==>
        && (action == NewEntry ==> after[i].state == AwaitAmount && after[i].context == map["type" := Text("manual_entry")])
        && (action != NewEntry && (s.state != Idle || action == Start) ==>
              after[i].state == Idle && after[i].context == map[])
    ensures s.state == Idle && action != Start && action != NewEntry ==>
      ApplyWrites(sessions, s.id, CommandWrites(s, action)) == sessions
  {
    var writes := CommandWrites(s, action);
    if writes != [] {
      LastWriteWins(sessions, s.id, writes);
    }
  }

  /** `text.toLowerCase() === "today" ? now : text`. */
  function EntryDate(text: string, now: string): string
  {
    if Lower(text) == "today" then now else text
  }

  /** What `handleStateInput` writes to the session, given the entered date. */
  function InputWrites(s: Session, text: string, date: string): seq<Write>
  {
    match s.state
    case AwaitAmount =>
      var ds := DigitsOf(text);
      if ds == [] then [] else [Write(AwaitDirection, s.context["amount" := Int(NatOf(ds))])]
    case AwaitMerchant => [Write(AwaitDate, s.context["merchant" := Text(text)])]
    case AwaitDate => [Write(Saving, s.context["happened_at" := Text(date)]), Write(Idle, map[])]
    case _ => []
  }

  /** The manual transaction `await_date` inserts, built from the context. */
  function ManualTx(ctx: Context, date: string, id: Id): Tx
  {
    var c := ctx["happened_at" := Text(date)];
    Tx(id, "completed", None, None, Get(c, "amount"), Get(c, "direction"), Get(c, "merchant"), Get(c, "happened_at"),
       "manual", "IDR")
  }

  /** The two direction buttons; each sends the session id back. */
  function DirectionRows(sessionId: Id): seq<seq<Button>>
  {
    [[Button("\U{1F4B8} Expense (Debit)", "tx_dir:" + sessionId + ":debit")],
     [Button("\U{1F4B0} Income (Credit)", "tx_dir:" + sessionId + ":credit")]]
  }

  /**
   * In `await_amount` the amount is `parseInt` of the text's digits: text
   * without a digit is NaN and leaves the session as it is.
   */
  lemma AmountStep(s: Session, text: string, date: string)
    requires s.state == AwaitAmount
    ensures InputWrites(s, text, date) ==
      match ParseInt(DigitsOf(text))
      case None => []
      case Some(n) => [Write(AwaitDirection, s.context["amount" := Int(n)])]
  {
    ParseIntOfDigits(DigitsOf(text));
  }

  /** Every key of the context before a step is still there after it, unless the entry ends. */
  lemma InputKeepsContext(s: Session, text: string, date: string)
    requires InputWrites(s, text, date) != []
    ensures var w := InputWrites(s, text, date)[0];
      forall k :: k in s.context ==> k in w.context
  {
  }

  // ---------------------------------------------------------------------------
  // Transactions changed by callbacks
  // ---------------------------------------------------------------------------

  datatype Patch = SetStatus(status: string) | SetCategory(categoryId: Id) | SetSubcategory(subcategoryId: Id)

  function Patched(t: Tx, p: Patch): Tx
  {
    match p
    case SetStatus(st) => t.(status := st)
    case SetCategory(c) => t.(categoryId := Some(c))
    case SetSubcategory(c) => t.(subcategoryId := Some(c))
  }

  /** `.update(patch).eq("id", id)`: every row with the id is patched; a missing id matches nothing. */
  function PatchTxs(txs: seq<Tx>, id: Option<Id>, p: Patch): (r: seq<Tx>)
    ensures |r| == |txs|
    ensures forall i :: 0 <= i < |txs| ==> r[i] == if Some(txs[i].id) == id then Patched(txs[i], p) else txs[i]
  {
    seq(|txs|, i requires 0 <= i < |txs| => if Some(txs[i].id) == id then Patched(txs[i], p) else txs[i])
  }

  /** A repeated callback (the same button pressed twice) leaves the table as the first press did. */
  lemma PatchTxsIdempotent(txs: seq<Tx>, id: Option<Id>, p: Patch)
    ensures PatchTxs(PatchTxs(txs, id, p), id, p) == PatchTxs(txs, id, p)
  {
    var once := PatchTxs(txs, id, p);
    forall i | 0 <= i < |txs| ensures PatchTxs(once, id, p)[i] == once[i] {
      assert once[i].id == txs[i].id;
    }
  }

  /** Patches of different fields commute: confirming and categorising can happen in either order. */
  lemma PatchTxsCommute(txs: seq<Tx>, id: Option<Id>, p: Patch, q: Patch)
    requires p.SetStatus? != q.SetStatus? || p.SetCategory? != q.SetCategory?
    ensures PatchTxs(PatchTxs(txs, id, p), id, q) == PatchTxs(PatchTxs(txs, id, q), id, p)
  {
    var pq := PatchTxs(PatchTxs(txs, id, p), id, q);
    var qp := PatchTxs(PatchTxs(txs, id, q), id, p);
    forall i | 0 <= i < |txs| ensures pq[i] == qp[i] {
      assert PatchTxs(txs, id, p)[i].id == txs[i].id && PatchTxs(txs, id, q)[i].id == txs[i].id;
    }
  }

  /** An id that names no transaction (or a missing one) changes nothing. */
  lemma PatchMissingId(txs: seq<Tx>, id: Option<Id>, p: Patch)
    requires forall i :: 0 <= i < |txs| ==> Some(txs[i].id) != id
    ensures PatchTxs(txs, id, p) == txs
  {
  }

  // ---------------------------------------------------------------------------
  // tx_dir: the direction of a manual entry
  // ---------------------------------------------------------------------------

  /** `{ ...ctx, direction }`; a missing direction is dropped when the object is stored as JSON. */
  function WithDirection(ctx: Context, direction: Option<string>): Context
  {
    match direction
    case Some(d) => ctx["direction" := Text(d)]
    case None => ctx - {"direction"}
  }

  /**
   * The `tx_dir` branch as written: it first stores `{ direction }` as the whole
   * context, then re-reads the session, so the context it merges is that one.
   */
  function TxDirAsWritten(sessions: seq<Session>, sessionId: Option<Id>, direction: Option<string>): seq<Session>
  {
    var first := if sessionId.Some? then UpdateSessions(sessions, sessionId.value, AwaitMerchant,
                                                         WithDirection(map[], direction))
                 else sessions;
    match Single(WithId(first, sessionId))
    case None => first
    case Some(s) => UpdateSessions(first, s.id, AwaitMerchant, WithDirection(s.context, direction))
  }

  /** An update changes no session's id, so `.eq("id", id)` selects as many rows after it as before. */
  lemma {:induction false} UpdateKeepsIdCount(sessions: seq<Session>, key: Id, state: State, ctx: Context, id: Option<Id>)
    ensures |WithId(UpdateSessions(sessions, key, state, ctx), id)| == |WithId(sessions, id)|
  {
    if sessions != [] {
      var init := sessions[..|sessions| - 1];
      var after := UpdateSessions(sessions, key, state, ctx);
      assert after[..|after| - 1] == UpdateSessions(init, key, state, ctx);
      assert after[|after| - 1].id == sessions[|sessions| - 1].id;
      UpdateKeepsIdCount(init, key, state, ctx, id);
    }
  }

  /** The `tx_dir` branch as intended: the session's own context with the direction added. */
  function TxDir(sessions: seq<Session>, sessionId: Option<Id>, direction: Option<string>): seq<Session>
  {
    match Single(WithId(sessions, sessionId))
    case None => sessions
    case Some(s) => UpdateSessions(sessions, s.id, AwaitMerchant, WithDirection(s.context, direction))
  }

  /** As written, a session holding an amount loses it when the direction is chosen. */
  lemma TxDirLosesAmount()
    ensures var before := [Session("s1", 7, 7, AwaitDirection, map["type" := Text("manual_entry"), "amount" := Int(50000)])];
      var after := TxDirAsWritten(before, Some("s1"), Some("debit"));
      |after| == 1 && "amount" !in after[0].context && "type" !in after[0].context
  {
    var before := [Session("s1", 7, 7, AwaitDirection, map["type" := Text("manual_entry"), "amount" := Int(50000)])];
    var first := UpdateSessions(before, "s1", AwaitMerchant, map["direction" := Text("debit")]);
    assert first[0].id == "s1";
    assert first[..0] == [];
    assert WithId(first, Some("s1")) == [first[0]];
  }

  /**
   * As intended, the chosen session moves to `await_merchant` with every key it
   * had plus the direction, and no other session changes.
   */
  lemma TxDirKeepsContext(sessions: seq<Session>, sessionId: Id, direction: string)
    requires |WithId(sessions, Some(sessionId))| == 1
    ensures var s := WithId(sessions, Some(sessionId))[0];
      var after := TxDir(sessions, Some(sessionId), Some(direction));
      forall i :: 0 <= i < |sessions| ==>
        if sessions[i].id == sessionId
        then after[i].state == AwaitMerchant && after[i].context == s.context["direction" := Text(direction)]
        else after[i] == sessions[i]
  {
    var s := WithId(sessions, Some(sessionId))[0];
    assert s in WithId(sessions, Some(sessionId));
  }

  /**
   * As intended (with the corrected `TxDir` merge), a manual entry keeps its
   * amount up to the insert: amount, then direction, merchant and date give a
   * transaction with that amount. The code as written loses it; see
   * `ManualEntryLosesAmount`.
   */
  lemma ManualEntryKeepsAmount(s: Session, amountText: string, direction: string, merchant: string, date: string, id: Id)
    requires s.state == AwaitAmount && DigitsOf(amountText) != []
    ensures var n := NatOf(DigitsOf(amountText));
      var c1 := InputWrites(s, amountText, date)[0].context;
      var c2 := WithDirection(c1, Some(direction));
      var c3 := InputWrites(Session(s.id, s.chatId, s.userId, AwaitMerchant, c2), merchant, date)[0].context;
      var tx := ManualTx(c3, date, id);
      tx.amount == Some(Int(n)) && tx.direction == Some(Text(direction)) && tx.merchant == Some(Text(merchant))
  {
    var n := NatOf(DigitsOf(amountText));
    var c1 := s.context["amount" := Int(n)];
    assert InputWrites(s, amountText, date) == [Write(AwaitDirection, c1)];
    var c2 := WithDirection(c1, Some(direction));
    assert c2 == c1["direction" := Text(direction)];
    var c3 := c2["merchant" := Text(merchant)];
    assert InputWrites(Session(s.id, s.chatId, s.userId, AwaitMerchant, c2), merchant, date) == [Write(AwaitDate, c3)];
    var c := c3["happened_at" := Text(date)];
    assert c["amount"] == Int(n) && c["direction"] == Text(direction) && c["merchant"] == Text(merchant);
  }

  /**
   * As written, the same entry reaches the insert without its amount: after the
   * `tx_dir` callback the session's context holds the direction alone, so the
   * merchant step and the insert see no amount.
   */
  lemma ManualEntryLosesAmount(s: Session, amountText: string, direction: string, merchant: string, date: string, id: Id)
    requires s.state == AwaitAmount && DigitsOf(amountText) != []
    ensures var c1 := InputWrites(s, amountText, date)[0].context;
      var after := TxDirAsWritten([Session(s.id, s.chatId, s.userId, AwaitDirection, c1)], Some(s.id), Some(direction));
      && |after| == 1 && after[0].state == AwaitMerchant
      && ManualTx(InputWrites(after[0], merchant, date)[0].context, date, id).amount == None
  {
    var c1 := InputWrites(s, amountText, date)[0].context;
    var only := map["direction" := Text(direction)];
    TxDirOverwrites(Session(s.id, s.chatId, s.userId, AwaitDirection, c1), direction);
    var after := Session(s.id, s.chatId, s.userId, AwaitMerchant, only);
    assert InputWrites(after, merchant, date) == [Write(AwaitDate, only["merchant" := Text(merchant)])];
    assert "amount" !in only["merchant" := Text(merchant)]["happened_at" := Text(date)];
  }

  /** As written, `tx_dir` on a lone session leaves `{direction}` as its whole context. */
  lemma TxDirOverwrites(sess: Session, direction: string)
    ensures TxDirAsWritten([sess], Some(sess.id), Some(direction)) ==
            [Session(sess.id, sess.chatId, sess.userId, AwaitMerchant, map["direction" := Text(direction)])]
  {
    var only := map["direction" := Text(direction)];
    assert WithDirection(map[], Some(direction)) == only;
    var first := UpdateSessions([sess], sess.id, AwaitMerchant, only);
    assert first == [Session(sess.id, sess.chatId, sess.userId, AwaitMerchant, only)];
    assert first[..0] == [];
    assert Single(WithId(first, Some(sess.id))) == Some(first[0]);
    assert WithDirection(only, Some(direction)) == only;
    assert UpdateSessions(first, sess.id, AwaitMerchant, only) == first;
  }


  // ---------------------------------------------------------------------------
  // Callback data
  // ---------------------------------------------------------------------------

  /** What a callback leads to besides its store writes. */
  datatype CallbackOutcome =
    | ShowPeriod(start: Option<string>, end: Option<string>)
    | ShowYear(year: Option<string>)
    | ListRequest(listStart: Option<string>, listEnd: Option<string>, kind: Option<string>, page: Option<int>)
    | Edited(text: string)
    | Sent(reply: Reply)
    | DirectionSet(direction: string)
    | Ignored

  /** `parseInt(parts[4] || "0", 10)`: a missing or empty page is page 0. */
  function PageOf(parts: seq<string>): Option<int>
  {
    ParseInt(OrElse(At(parts, 4), "0"))
  }

  // ---------------------------------------------------------------------------
  // Category keyboards
  // ---------------------------------------------------------------------------

  /** The data prefix of the category picker: `set_cat:${txId}:`. */
  function CategoryPrefix(txId: string): string
  {
    "set_cat:" + txId + ":"
  }

  /** The data prefix of the subcategory picker: `set_sub:${txId}:`. */
  function SubcategoryPrefix(txId: string): string
  {
    "set_sub:" + txId + ":"
  }

  /** A category button's data splits into `set_cat`, the transaction and the category, as `set_cat` reads it. */
  lemma CategoryRoute(txId: string, cats: seq<Choice>, i: nat)
    requires ':' !in txId && i < |cats| && ':' !in cats[i].id
    ensures Split(ChoiceButtons(CategoryPrefix(txId), cats)[i].callbackData, ':') == ["set_cat", txId, cats[i].id]
  {
    assert ["set_cat", txId][1..] == [txId];
    assert Join(["set_cat", txId], ':') + ":" == CategoryPrefix(txId);
    ChoiceRoute(["set_cat", txId], cats, i);
  }

  /** A subcategory button's data splits into `set_sub`, the transaction and the subcategory, as `set_sub` reads it. */
  lemma SubcategoryRoute(txId: string, subs: seq<Choice>, i: nat)
    requires ':' !in txId && i < |subs| && ':' !in subs[i].id
    ensures Split(ChoiceButtons(SubcategoryPrefix(txId), subs)[i].callbackData, ':') == ["set_sub", txId, subs[i].id]
  {
    assert ["set_sub", txId][1..] == [txId];
    assert Join(["set_sub", txId], ':') + ":" == SubcategoryPrefix(txId);
    ChoiceRoute(["set_sub", txId], subs, i);
  }

  function SkipButton(txId: string): Button
  {
    Button("Skip Subcategory", "set_sub:" + txId + ":skip")
  }

  /** `showCategories`: a notice without categories, else every category once, in order, two per row. */
  predicate IsCategoryMenu(r: Reply, txId: string, cats: seq<Choice>)
  {
    && (cats == [] ==> r == Notice("No categories found."))
    && (cats != [] ==> r.Menu? && r.prompt == "Select Category:" &&
                       Flatten(r.rows) == ChoiceButtons(CategoryPrefix(txId), cats) && PairRows(r.rows))
  }

  /** `showSubcategories`: every subcategory once, in order, two per row, then a Skip row. */
  predicate IsSubcategoryMenu(r: Reply, txId: string, subs: seq<Choice>)
  {
    && r.Menu? && r.prompt == "Select Subcategory:" && |r.rows| >= 1
    && r.rows[|r.rows| - 1] == [SkipButton(txId)]
    && Flatten(r.rows[..|r.rows| - 1]) == ChoiceButtons(SubcategoryPrefix(txId), subs)
    && PairRows(r.rows[..|r.rows| - 1])
  }

  method CategoryKeyboard(txId: string, cats: seq<Choice>) returns (r: Reply)
    ensures IsCategoryMenu(r, txId, cats)
  {
    if cats == [] {
      return Notice("No categories found.");
    }
    var rows := ChunkPairs(ChoiceButtons(CategoryPrefix(txId), cats));
    r := Menu("Select Category:", rows);
  }

  method SubcategoryKeyboard(txId: string, subs: seq<Choice>) returns (r: Reply)
    ensures IsSubcategoryMenu(r, txId, subs)
  {
    var rows := ChunkPairs(ChoiceButtons(SubcategoryPrefix(txId), subs));
    var buttons := rows + [[SkipButton(txId)]];
    assert buttons[..|buttons| - 1] == rows;
    r := Menu("Select Subcategory:", buttons);
  }

  // ---------------------------------------------------------------------------
  // The store
  // ---------------------------------------------------------------------------

  class BotStore {
    var sessions: seq<Session>
    var transactions: seq<Tx>

    constructor (ss: seq<Session>, txs: seq<Tx>)
      ensures sessions == ss && transactions == txs
    {
      sessions, transactions := ss, txs;
    }

    /** `updateSession`. */
    method UpdateSession(id: Id, state: State, ctx: Context)
      modifies this
      ensures sessions == UpdateSessions(old(sessions), id, state, ctx)
      ensures transactions == old(transactions)
    {
      sessions := UpdateSessions(sessions, id, state, ctx);
    }

    /** Several `updateSession` calls on one session, in order. */
    method UpdateSessionSteps(id: Id, writes: seq<Write>)
      modifies this
      ensures sessions == ApplyWrites(old(sessions), id, writes)
      ensures transactions == old(transactions)
    {
      for k := 0 to |writes|
        invariant sessions == ApplyWrites(old(sessions), id, writes[..k])
        invariant transactions == old(transactions)
      {
        assert writes[..k + 1][..k] == writes[..k];
        UpdateSession(id, writes[k].state, writes[k].context);
      }
      assert writes[..|writes|] == writes;
    }

    /** Get or create the session of the chat and user; none when the insert fails. */
    method GetOrCreateSession(chatId: int, userId: int, newId: Id, insertFails: bool) returns (s: Option<Session>)
      modifies this
      ensures s == Current(old(sessions), chatId, userId, newId, insertFails)
      ensures sessions == AfterLookup(old(sessions), chatId, userId, newId, insertFails)
      ensures transactions == old(transactions)
    {
      s := Single(WithKey(sessions, chatId, userId));
      if s.None? && !insertFails {
        var created := NewSession(newId, chatId, userId);
        sessions := sessions + [created];
        s := Some(created);
      }
    }

    /**
     * `handleStateInput`: one step of the manual entry. In `await_date` the
     * transaction is inserted and the session always ends idle and empty.
     * Text in any other state is ignored.
     */
    method HandleStateInput(s: Session, text: string, now: string, txId: Id, saveError: Option<string>)
        returns (replies: seq<Reply>)
      modifies this
      ensures sessions == ApplyWrites(old(sessions), s.id, InputWrites(s, text, EntryDate(text, now)))
      ensures transactions == if s.state == AwaitDate && saveError.None?
                              then old(transactions) + [ManualTx(s.context, EntryDate(text, now), txId)]
                              else old(transactions)
      ensures s.state == AwaitAmount && DigitsOf(text) == [] ==> replies == [Notice(InvalidAmount)]
      ensures s.state == AwaitAmount && DigitsOf(text) != [] ==> replies == [Menu(AskDirection, DirectionRows(s.id))]
      ensures s.state == AwaitMerchant ==> replies == [Notice(AskDate)]
      ensures s.state == AwaitDate ==>
        replies == [Notice(if saveError.Some? then "Error saving: " + saveError.value else Saved)]
      ensures s.state !in {AwaitAmount, AwaitMerchant, AwaitDate} ==> replies == []
    {
      replies := [];
      var date := EntryDate(text, now);
      var writes := InputWrites(s, text, date);
      if s.state == AwaitAmount {
        var amount := ParseInt(DigitsOf(text));
        ParseIntOfDigits(DigitsOf(text));
        if amount.None? {
          return [Notice(InvalidAmount)];
        }
        assert writes == [Write(AwaitDirection, s.context["amount" := Int(amount.value)])];
        UpdateSessionSteps(s.id, writes);
        replies := [Menu(AskDirection, DirectionRows(s.id))];
      } else if s.state == AwaitMerchant {
        UpdateSessionSteps(s.id, writes);
        replies := [Notice(AskDate)];
      } else if s.state == AwaitDate {
        var newContext := s.context["happened_at" := Text(date)];
        assert writes == [Write(Saving, newContext), Write(Idle, map[])];
        assert writes[..1] == [Write(Saving, newContext)];
        UpdateSessionSteps(s.id, writes[..1]);
        if saveError.None? {
          transactions := transactions + [ManualTx(s.context, date, txId)];
        }
        replies := [Notice(if saveError.Some? then "Error saving: " + saveError.value else Saved)];
        UpdateSession(s.id, Idle, map[]);
      }
    }

    /**
     * `handleMessage`: find or create the session, then run a command (after
     * resetting a busy session), or feed the text to the entry in progress, or
     * answer with the help text. Without a session nothing further happens.
     */
    method HandleMessage(chatId: int, userId: int, message: Option<string>, now: string,
                         newSessionId: Id, sessionInsertFails: bool, txId: Id, saveError: Option<string>)
        returns (action: Option<Action>, replies: seq<Reply>)
      modifies this
      ensures var text := OrElse(message, "");
        var cur := Current(old(sessions), chatId, userId, newSessionId, sessionInsertFails);
        var base := AfterLookup(old(sessions), chatId, userId, newSessionId, sessionInsertFails);
        && (cur.None? ==> action.None? && replies == [] && sessions == base && transactions == old(transactions))
        && (cur.Some? && IsCommand(text) ==>
              && action == Some(CommandAction(text))
              && sessions == ApplyWrites(base, cur.value.id, CommandWrites(cur.value, CommandAction(text)))
              && transactions == old(transactions)
              && replies == CommandReplies(CommandAction(text)))
        && (cur.Some? && !IsCommand(text) && cur.value.state != Idle ==>
              && action.None?
              && sessions == ApplyWrites(base, cur.value.id, InputWrites(cur.value, text, EntryDate(text, now)))
              && transactions == if cur.value.state == AwaitDate && saveError.None?
                                 then old(transactions) + [ManualTx(cur.value.context, EntryDate(text, now), txId)]
                                 else old(transactions))
        && (cur.Some? && !IsCommand(text) && cur.value.state == Idle ==>
              action.None? && replies == [Notice(Help)] && sessions == base && transactions == old(transactions))
    {
      var text := OrElse(message, "");
      action := None;
      replies := [];
      var session := GetOrCreateSession(chatId, userId, newSessionId, sessionInsertFails);
      if session.None? {
        return;
      }
      var s := session.value;
      if IsCommand(text) {
        var a := CommandAction(text);
        action := Some(a);
        UpdateSessionSteps(s.id, CommandWrites(s, a));
        replies := CommandReplies(a);
        return;
      }
      if s.state != Idle {
        replies := HandleStateInput(s, text, now, txId, saveError);
        return;
      }
      replies := [Notice(Help)];
    }

    /**
     * `handleCallbackQuery`: the data is split on ':'; the first part names the
     * action and the second, for the transaction actions, the transaction.
     * `tx_dir` is modelled as written: it stores `{ direction }` first and then
     * merges into the context it reads back.
     */
    method HandleCallback(data: string, categories: seq<Choice>, subcategories: seq<Choice>)
        returns (outcome: CallbackOutcome)
      modifies this
      ensures var parts := Split(data, ':');
        var action := parts[0];
        var id := At(parts, 1);
        && (action == "period" ==>
              outcome == ShowPeriod(At(parts, 1), At(parts, 2)) && unchanged(this))
        && (action == "year_periods" ==> outcome == ShowYear(At(parts, 1)) && unchanged(this))
        && (action == "list_tx" ==>
              outcome == ListRequest(At(parts, 1), At(parts, 2), At(parts, 3), PageOf(parts)) && unchanged(this))
        && (action == "tx_confirm" ==>
              && transactions == PatchTxs(old(transactions), id, SetStatus("completed"))
              && sessions == old(sessions) && outcome == Edited(Confirmed))
        && (action == "tx_reject" ==>
              && transactions == PatchTxs(old(transactions), id, SetStatus("rejected"))
              && sessions == old(sessions) && outcome == Edited(Rejected))
        && (action == "tx_cat" ==>
              outcome.Sent? && IsCategoryMenu(outcome.reply, Str(id), categories) && unchanged(this))
        && (action == "set_cat" ==>
              && transactions == (if At(parts, 2).Some?
                                  then PatchTxs(old(transactions), id, SetCategory(At(parts, 2).value))
                                  else old(transactions))
              && sessions == old(sessions)
              && outcome.Sent? && IsSubcategoryMenu(outcome.reply, Str(id), subcategories))
        && (action == "set_sub" ==>
              var sub := At(parts, 2);
              var withSub := if sub.Some? && sub.value != "skip"
                             then PatchTxs(old(transactions), id, SetSubcategory(sub.value))
                             else old(transactions);
              && transactions == PatchTxs(withSub, id, SetStatus("completed"))
              && sessions == old(sessions) && outcome == Edited(Categorized))
        && (action == "tx_dir" ==>
              && sessions == TxDirAsWritten(old(sessions), At(parts, 1), At(parts, 2))
              && transactions == old(transactions)
              && outcome == (if Single(WithId(old(sessions), At(parts, 1))).Some? && At(parts, 2).Some?
                             then DirectionSet(At(parts, 2).value) else Ignored))
        && (action !in {"period", "year_periods", "list_tx", "tx_confirm", "tx_reject", "tx_cat", "set_cat",
                         "set_sub", "tx_dir"} ==>
              outcome == Ignored && unchanged(this))
    {
      var parts := Split(data, ':');
      var action := parts[0];
      if action == "period" {
        return ShowPeriod(At(parts, 1), At(parts, 2));
      }
      if action == "year_periods" {
        return ShowYear(At(parts, 1));
      }
      if action == "list_tx" {
        return ListRequest(At(parts, 1), At(parts, 2), At(parts, 3), PageOf(parts));
      }
      var id := At(parts, 1);
      outcome := Ignored;
      if action == "tx_confirm" {
        transactions := PatchTxs(transactions, id, SetStatus("completed"));
        outcome := Edited(Confirmed);
      } else if action == "tx_reject" {
        transactions := PatchTxs(transactions, id, SetStatus("rejected"));
        outcome := Edited(Rejected);
      } else if action == "tx_cat" {
        var menu := CategoryKeyboard(Str(id), categories);
        outcome := Sent(menu);
      } else if action == "set_cat" {
        var catId := At(parts, 2);
        if catId.Some? {
          transactions := PatchTxs(transactions, id, SetCategory(catId.value));
        }
        var menu := SubcategoryKeyboard(Str(id), subcategories);
        outcome := Sent(menu);
      } else if action == "set_sub" {
        var subId := At(parts, 2);
        if subId.Some? && subId.value != "skip" {
          transactions := PatchTxs(transactions, id, SetSubcategory(subId.value));
        }
        transactions := PatchTxs(transactions, id, SetStatus("completed"));
        outcome := Edited(Categorized);
      } else if action == "tx_dir" {
        var direction := At(parts, 2);
        if id.Some? {
          UpdateKeepsIdCount(sessions, id.value, AwaitMerchant, WithDirection(map[], direction), id);
          UpdateSession(id.value, AwaitMerchant, WithDirection(map[], direction));
        }
        var session := Single(WithId(sessions, id));
        if session.Some? {
          UpdateSession(session.value.id, AwaitMerchant, WithDirection(session.value.context, direction));
        }
        // With no session `session.context` throws, and with no direction `toUpperCase` does:
        // either way the handler stops before it replies.
        if session.Some? && direction.Some? {
          outcome := DirectionSet(direction.value);
        }
      }
    }
  }

  /** A Skip button's data, split again, names the transaction and "skip", so no subcategory is written. */
  lemma SkipDataIsSkip(txId: string)
    requires ':' !in txId
    ensures Split(SkipButton(txId).callbackData, ':') == ["set_sub", txId, "skip"]
  {
    var parts := ["set_sub", txId, "skip"];
    assert parts[1..] == [txId, "skip"];
    assert parts[1..][1..] == ["skip"];
    assert Join(parts[1..][1..], ':') == "skip";
    assert Join(parts[1..], ':') == txId + [':'] + "skip";
    assert Join(parts, ':') == "set_sub" + [':'] + (txId + [':'] + "skip");
    assert Join(parts, ':') == SkipButton(txId).callbackData;
    SplitJoin(parts, ':');
  }

  /** The three buttons under each pending transaction. */
  function PendingRows(txId: string): seq<seq<Button>>
  {
    [[Button("\U{2705} Confirm", "tx_confirm:" + txId)],
     [Button("\U{1F3F7}\U{FE0F} Categorize", "tx_cat:" + txId)],
     [Button("\U{274C} Reject", "tx_reject:" + txId)]]
  }

  /** Each button of a pending transaction, split again, names its action and that transaction. */
  lemma PendingRowsRoute(txId: string)
    requires ':' !in txId
    ensures Split(PendingRows(txId)[0][0].callbackData, ':') == ["tx_confirm", txId]
    ensures Split(PendingRows(txId)[1][0].callbackData, ':') == ["tx_cat", txId]
    ensures Split(PendingRows(txId)[2][0].callbackData, ':') == ["tx_reject", txId]
  {
    SplitFree(txId, ':');
    SplitPrefix("tx_confirm", txId, ':');
    SplitPrefix("tx_cat", txId, ':');
    SplitPrefix("tx_reject", txId, ':');
    assert "tx_confirm" + [':'] + txId == "tx_confirm:" + txId;
    assert "tx_cat" + [':'] + txId == "tx_cat:" + txId;
    assert "tx_reject" + [':'] + txId == "tx_reject:" + txId;
  }

  // ---------------------------------------------------------------------------
  // listTransactions
  // ---------------------------------------------------------------------------

  /** A row of `getTransactionsForPeriod`, as the list reads it. */
  datatype ListedTx = ListedTx(
    date: Option<string>,
    happenedAt: Option<string>,
    description: Option<string>,
    merchant: Option<string>,
    sourceName: Option<string>,
    amount: int)

  /** One line of the list: short description, source, amount, raw date and tag. */
  datatype Line = Line(shortDesc: string, source: string, amount: int, date: string, tag: string)

  datatype Listing =
    | NoTransactions
    | Listing(kind: string, pageLabel: Option<int>, pageCount: int, lines: seq<Line>, buttons: seq<seq<Button>>)

  /** `desc.length > 6 ? desc.substring(0, 6) + "..." : desc`. */
  function Shorten(desc: string): (r: string)
    ensures |r| <= 9
    ensures |desc| <= 6 ==> r == desc
    ensures |desc| > 6 ==> |r| == 9 && r[..6] == desc[..6] && r[6..] == "..."
  {
    if |desc| > 6 then desc[..6] + "..." else desc
  }

  /** `t.date || (t.happened_at ? t.happened_at.split('T')[0] : "Unknown")`. */
  function RawDate(t: ListedTx): string
  {
    if Truthy(t.date) then t.date.value
    else if Truthy(t.happenedAt) then Split(t.happenedAt.value, 'T')[0]
    else "Unknown"
  }

  function LineOf(t: ListedTx, kind: string): Line
  {
    Line(Shorten(OrElse(t.description, OrElse(t.merchant, "No Desc"))), OrElse(t.sourceName, "Unknown"), t.amount,
         RawDate(t), if kind == "expense" then "(Exp)" else "(Inc)")
  }

  predicate HasNext(page: Option<int>, total: int)
  {
    page.Some? && (page.value + 1) * 10 < total
  }

  predicate HasPrev(page: Option<int>)
  {
    page.Some? && page.value > 0
  }

  /** `list_tx:${start}:${end}:${type}:${page}`. */
  function ListData(start: string, end: string, kind: string, page: int): string
  {
    Join(["list_tx", start, end, kind, IntToString(page)], ':')
  }

  /** `Math.ceil(total / 10)` for a non-negative count. */
  function PageCount(total: nat): (r: nat)
    ensures r * 10 >= total && (r == 0 || (r - 1) * 10 < total)
  {
    (total + 9) / 10
  }

  /**
   * `listTransactions`: one line per transaction, in order, and a row of Prev
   * and Next buttons when there is a page before or after this one.
   */
  method ListTransactions(start: string, end: string, kind: string, page: Option<int>, txs: seq<ListedTx>, total: nat)
      returns (r: Listing)
    ensures txs == [] <==> r == NoTransactions
    ensures txs != [] ==>
      && r.kind == kind
      && r.pageLabel == (if page.Some? then Some(page.value + 1) else None)
      && r.pageCount == PageCount(total)
      && |r.lines| == |txs| && (forall i :: 0 <= i < |txs| ==> r.lines[i] == LineOf(txs[i], kind))
      && (r.buttons == [] <==> !HasPrev(page) && !HasNext(page, total))
      && (r.buttons != [] ==>
            r.buttons == [(if HasPrev(page) then [Button("\U{2B05}\U{FE0F} Prev", ListData(start, end, kind, page.value - 1))] else [])
                          + (if HasNext(page, total) then [Button("Next \U{27A1}\U{FE0F}", ListData(start, end, kind, page.value + 1))] else [])])
  {
    if txs == [] {
      return NoTransactions;
    }
    var lines: seq<Line> := [];
    for k := 0 to |txs|
      invariant |lines| == k && forall i :: 0 <= i < k ==> lines[i] == LineOf(txs[i], kind)
    {
      lines := lines + [LineOf(txs[k], kind)];
    }
    var buttons: seq<seq<Button>> := [];
    var hasNext := HasNext(page, total);
    var hasPrev := HasPrev(page);
    if hasPrev || hasNext {
      var prev := if hasPrev then [Button("\U{2B05}\U{FE0F} Prev", ListData(start, end, kind, page.value - 1))] else [];
      var next := if hasNext then [Button("Next \U{27A1}\U{FE0F}", ListData(start, end, kind, page.value + 1))] else [];
      buttons := [prev + next];
    }
    r := Listing(kind, if page.Some? then Some(page.value + 1) else None, PageCount(total), lines, buttons);
  }

  /**
   * A page button's data, read back by the `list_tx` callback, gives the same
   * period and type and the page the button names.
   */
  lemma ListDataRoundTrip(start: string, end: string, kind: string, page: int)
    requires ':' !in start && ':' !in end && ':' !in kind
    ensures var parts := Split(ListData(start, end, kind, page), ':');
      parts[0] == "list_tx" && At(parts, 1) == Some(start) && At(parts, 2) == Some(end) &&
      At(parts, 3) == Some(kind) && PageOf(parts) == Some(page)
  {
    var ds := NatToString(if page < 0 then -page else page);
    assert ':' !in IntToString(page) by {
      assert AllDigits(ds);
      if page < 0 {
        assert IntToString(page) == "-" + ds;
      }
    }
    SplitJoin(["list_tx", start, end, kind, IntToString(page)], ':');
    ParseIntToString(page);
  }

  /**
   * Next appears exactly while a later page exists, Next always leads to a page
   * that has Prev, and Prev from a page that has rows leads to a page that has
   * Next: the buttons never strand the user on an empty page.
   */
  lemma PageFlags(page: int, total: nat)
    ensures HasNext(Some(page), total) <==> page + 1 < PageCount(total)
    ensures page >= 0 && HasNext(Some(page), total) ==> HasPrev(Some(page + 1)) && (page + 1) * 10 < total
    ensures HasPrev(Some(page)) && page * 10 < total ==> HasNext(Some(page - 1), total)
  {
  }
}
