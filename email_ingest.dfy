/**
 * The HTTP handler of the e-mail ingestion function (`serve`): it answers the
 * CORS preflight, checks the API key, skips an e-mail it has already stored
 * (by Gmail message id), stores the raw e-mail, parses it, finds or creates
 * the funding source it names, and stores a pending transaction that refers
 * back to the raw e-mail.
 *
 * The database is a class with one sequence of rows per table. Ids and
 * timestamps the database or the clock would produce are given as inputs, and
 * so are the failures of the store writes and of the notification request.
 */
module EmailIngest {
  import opened Common
  import opened EmailParser

  type Id = string

  /** A `raw_emails` row. */
  datatype RawEmail = RawEmail(
    id: Id,
    receivedAt: string,
    fromEmail: Option<string>,
    toEmail: Option<string>,
    subject: Option<string>,
    dateHeader: Option<string>,
    gmailMessageId: string,
    threadId: Option<string>,
    emailLabel: string,
    textBody: Option<string>,
    htmlBody: Option<string>,
    rawPayload: Payload)

  /** A `source_of_funds` row. */
  datatype Fund = Fund(id: Id, name: string, kind: string)

  /** `parse_meta` of a transaction. */
  datatype ParseMeta = ParseMeta(confidence: real, evidence: Evidence, rulesTriggered: seq<Rule>)

  /** A `transactions` row as this handler writes it. */
  datatype Transaction = Transaction(
    id: Id,
    status: string,
    happenedAt: string,
    amount: Amount,
    direction: Direction,
    merchant: string,
    note: Option<string>,
    source: string,
    sourceRef: Id,
    sourceOfFundId: Option<Id>,
    parseMeta: ParseMeta)

  /** The request body: a JSON payload, or text that `req.json()` rejects. */
  datatype Body = Json(payload: Payload) | Malformed(message: string)

  datatype Request = Request(verb: string, apiKey: Option<string>, body: Body)

  /** The environment: `INGEST_API_KEY`, and whether both Telegram variables are set. */
  datatype Env = Env(ingestApiKey: Option<string>, notifyConfigured: bool)

  /** Failures of the store writes and of the notification, each with the error's message. */
  datatype Faults = Faults(
    rawInsertError: Option<string>,
    fundInsertFails: bool,
    txInsertError: Option<string>,
    notifyError: Option<string>)

  /** What the database and the clock hand out during one request. */
  datatype Fresh = Fresh(rawId: Id, fundId: Id, txId: Id, now: string)

  datatype Reply =
    | Preflight
    | Failure(error: string)
    | Duplicate(existingId: Id, existingTxId: Option<Id>)
    | Created(rawEmailId: Id, transactionId: Id)

  datatype Response = Response(status: int, reply: Reply)

  const DefaultLabel: string := "WalleTracker"

  /** `!apiKey || apiKey !== envApiKey` is false: a non-empty key equal to the configured one. */
  predicate Authorized(apiKey: Option<string>, configured: Option<string>)
  {
    Truthy(apiKey) && configured == apiKey
  }

  /** `.eq("gmail_message_id", id)` on `raw_emails`. */
  function WithMessageId(rows: seq<RawEmail>, gmailMessageId: string): (r: seq<RawEmail>)
    ensures |r| <= |rows|
  {
    if rows == [] then []
    else
      var init := WithMessageId(rows[..|rows| - 1], gmailMessageId);
      if rows[|rows| - 1].gmailMessageId == gmailMessageId then init + [rows[|rows| - 1]] else init
  }

  /** No stored e-mail carries the id exactly when the filter selects nothing. */
  lemma {:induction false} WithMessageIdEmpty(rows: seq<RawEmail>, gmailMessageId: string)
    ensures WithMessageId(rows, gmailMessageId) == [] <==>
      forall i :: 0 <= i < |rows| ==> rows[i].gmailMessageId != gmailMessageId
  {
    if rows != [] {
      var init := rows[..|rows| - 1];
      WithMessageIdEmpty(init, gmailMessageId);
      assert forall i :: 0 <= i < |init| ==> rows[i] == init[i];
    }
  }

  /** `existing.transactions?.[0]?.id`: the first transaction that refers to the raw e-mail. */
  function FirstTxOf(txs: seq<Transaction>, rawId: Id): (r: Option<Id>)
    ensures r.Some? ==>
      exists i :: 0 <= i < |txs| && txs[i].sourceRef == rawId && txs[i].id == r.value &&
        forall j :: 0 <= j < i ==> txs[j].sourceRef != rawId
    ensures r.None? ==> forall i :: 0 <= i < |txs| ==> txs[i].sourceRef != rawId
  {
    if txs == [] then None
    else if txs[0].sourceRef == rawId then Some(txs[0].id)
    else
      var r := FirstTxOf(txs[1..], rawId);
      assert forall i :: 0 < i < |txs| ==> txs[i] == txs[1..][i - 1];
      r
  }

  /**
   * `.ilike("name", source)`: names equal to it ignoring case. The names the
   * parser produces hold no `%` or `_`, so the pattern has no wildcard.
   */
  function FundsNamed(funds: seq<Fund>, name: string): (r: seq<Fund>)
    ensures |r| <= |funds|
    ensures forall f :: f in r ==> f in funds && Lower(f.name) == Lower(name)
  {
    if funds == [] then []
    else
      var init := FundsNamed(funds[..|funds| - 1], name);
      var f := funds[|funds| - 1];
      if Lower(f.name) == Lower(name) then init + [f] else init
  }

  /** Every fund whose name equals the source ignoring case is selected, and only those. */
  lemma {:induction false} FundsNamedMembers(funds: seq<Fund>, name: string)
    ensures forall f :: f in FundsNamed(funds, name) <==> f in funds && Lower(f.name) == Lower(name)
  {
    if funds != [] {
      var init := funds[..|funds| - 1];
      FundsNamedMembers(init, name);
      assert funds == init + [funds[|funds| - 1]];
    }
  }

  /** The selection keeps the table's order and multiplicity: it distributes over concatenation. */
  lemma {:induction false} FundsNamedAppend(a: seq<Fund>, b: seq<Fund>, name: string)
    ensures FundsNamed(a + b, name) == FundsNamed(a, name) + FundsNamed(b, name)
    decreases |b|
  {
    if b == [] {
      assert a + b == a;
    } else {
      var init := b[..|b| - 1];
      assert (a + b)[..|a + b| - 1] == a + init;
      assert (a + b)[|a + b| - 1] == b[|b| - 1];
      FundsNamedAppend(a, init, name);
    }
  }

  /** One fund is selected exactly when its name equals the source ignoring case. */
  lemma FundsNamedOne(f: Fund, name: string)
    ensures FundsNamed([f], name) == if Lower(f.name) == Lower(name) then [f] else []
  {
    assert [f][..0] == [];
  }

  /** The id the lookup finds: the single fund with that name, if exactly one has it. */
  function FundLookup(funds: seq<Fund>, name: string): Option<Id>
  {
    match Single(FundsNamed(funds, name))
    case None => None
    case Some(f) => Some(f.id)
  }

  /** The fund that is created: when a source was found, the lookup failed and the insert succeeds. */
  predicate CreatesFund(funds: seq<Fund>, source: Option<string>, insertFails: bool)
  {
    source.Some? && FundLookup(funds, source.value).None? && !insertFails
  }

  /** `sourceOfFundId` after the lookup and the optional creation. */
  function ResolvedFundId(funds: seq<Fund>, source: Option<string>, insertFails: bool, newId: Id): (r: Option<Id>)
    // no source, no fund
    ensures source.None? ==> r.None?
    // a fund found by name is used as it is
    ensures source.Some? && FundLookup(funds, source.value).Some? ==> r == FundLookup(funds, source.value)
    // otherwise the created fund, or none when its insert failed
    ensures CreatesFund(funds, source, insertFails) ==> r == Some(newId)
    ensures source.Some? && FundLookup(funds, source.value).None? && insertFails ==> r.None?
  {
    if source.None? then None
    else if FundLookup(funds, source.value).Some? then FundLookup(funds, source.value)
    else if insertFails then None
    else Some(newId)
  }

  /** The `source_of_funds` table after the resolution. */
  function FundsAfter(funds: seq<Fund>, source: Option<string>, insertFails: bool, newId: Id): seq<Fund>
  {
    if CreatesFund(funds, source, insertFails) then funds + [Fund(newId, source.value, "other")] else funds
  }

  /** A resolved id names a fund of the table afterwards whose name is the source up to case. */
  lemma ResolvedFundExists(funds: seq<Fund>, source: Option<string>, insertFails: bool, newId: Id)
    ensures var r := ResolvedFundId(funds, source, insertFails, newId);
      r.Some? ==> exists f :: f in FundsAfter(funds, source, insertFails, newId) && f.id == r.value &&
                              Lower(f.name) == Lower(source.value)
  {
    if source.Some? && FundLookup(funds, source.value).Some? {
      var f := Single(FundsNamed(funds, source.value)).value;
      assert f in FundsNamed(funds, source.value);
    } else if CreatesFund(funds, source, insertFails) {
      assert Fund(newId, source.value, "other") in FundsAfter(funds, source, insertFails, newId);
    }
  }

  /**
   * With two funds of the same name up to case, `.single()` finds none, so
   * every e-mail naming that source creates one more fund of that name.
   */
  lemma AmbiguousNameCreatesFund(funds: seq<Fund>, name: string, newId: Id)
    requires |FundsNamed(funds, name)| >= 2
    ensures ResolvedFundId(funds, Some(name), false, newId) == Some(newId)
    ensures |FundsNamed(FundsAfter(funds, Some(name), false, newId), name)| == |FundsNamed(funds, name)| + 1
  {
    FundsNamedAppend(funds, [Fund(newId, name, "other")], name);
    FundsNamedOne(Fund(newId, name, "other"), name);
  }

  /** The raw row inserted for a payload. */
  function RawRowOf(p: Payload, id: Id, now: string): RawEmail
  {
    RawEmail(id, OrElse(p.receivedAt, now), p.fromEmail, p.toEmail, p.subject, p.dateHeader, p.gmailMessageId,
             p.threadId, OrElse(p.emailLabel, DefaultLabel), p.textBody, p.htmlBody, p)
  }

  /** The pending transaction inserted for a parse result. */
  function PendingRow(r: ParseResult, p: Payload, id: Id, rawId: Id, fundId: Option<Id>, now: string): Transaction
  {
    Transaction(id, "pending", OrElse(r.happenedAt, OrElse(p.dateHeader, now)), r.amount, r.direction, r.merchant,
                r.note, "email", rawId, fundId, ParseMeta(r.confidence, r.evidence, r.rulesTriggered))
  }

  /** The tables the handler reads and writes. */
  class IngestStore {
    var rawEmails: seq<RawEmail>
    var funds: seq<Fund>
    var transactions: seq<Transaction>

    constructor (raws: seq<RawEmail>, fs: seq<Fund>, txs: seq<Transaction>)
      ensures rawEmails == raws && funds == fs && transactions == txs
    {
      rawEmails, funds, transactions := raws, fs, txs;
    }

    /** The message id is already stored in exactly one row. */
    predicate IsDuplicate(p: Payload)
      reads this
    {
      Single(WithMessageId(rawEmails, p.gmailMessageId)).Some?
    }

    /** Find the fund by name, or create it as type "other"; the created row's id when the insert succeeds. */
    method ResolveFund(name: string, insertFails: bool, newId: Id) returns (id: Option<Id>)
      modifies this
      ensures id == ResolvedFundId(old(funds), Some(name), insertFails, newId)
      ensures funds == FundsAfter(old(funds), Some(name), insertFails, newId)
      ensures rawEmails == old(rawEmails) && transactions == old(transactions)
    {
      var sof := Single(FundsNamed(funds, name));
      if sof.Some? {
        id := Some(sof.value.id);
      } else {
        id := None;
        if !insertFails {
          funds := funds + [Fund(newId, name, "other")];
          id := Some(newId);
        }
      }
    }

    /**
     * `serve`: preflight, authentication, deduplication, then the raw e-mail, the
     * funding source and the pending transaction, in that order. A thrown error
     * becomes a 500 carrying its message, and what was written before it stays.
     */
    method Serve(req: Request, env: Env, faults: Faults, issued: Fresh) returns (resp: Response)
      modifies this
      // preflight and authentication come before any store access
      ensures req.verb == "OPTIONS" ==>
        resp == Response(200, Preflight) && unchanged(this)
      ensures req.verb != "OPTIONS" && !Authorized(req.apiKey, env.ingestApiKey) ==>
        resp == Response(401, Failure("Unauthorized")) && unchanged(this)
      ensures req.verb != "OPTIONS" && Authorized(req.apiKey, env.ingestApiKey) && req.body.Malformed? ==>
        resp == Response(500, Failure(req.body.message)) && unchanged(this)
      // a stored message id is answered from the store and writes nothing
      ensures req.verb != "OPTIONS" && Authorized(req.apiKey, env.ingestApiKey) && req.body.Json? &&
              old(IsDuplicate(req.body.payload)) ==>
        var existing := Single(WithMessageId(old(rawEmails), req.body.payload.gmailMessageId)).value;
        resp == Response(200, Duplicate(existing.id, FirstTxOf(old(transactions), existing.id))) && unchanged(this)
      // otherwise: one raw e-mail, at most one fund, at most one pending transaction
      ensures req.verb != "OPTIONS" && Authorized(req.apiKey, env.ingestApiKey) && req.body.Json? &&
              !old(IsDuplicate(req.body.payload)) ==>
        var p := req.body.payload;
        var source := Parsed(p).sourceOfFund;
        if faults.rawInsertError.Some? then
          resp == Response(500, Failure(faults.rawInsertError.value)) && unchanged(this)
        else
          && rawEmails == old(rawEmails) + [RawRowOf(p, issued.rawId, issued.now)]
          && funds == FundsAfter(old(funds), source, faults.fundInsertFails, issued.fundId)
          && (faults.txInsertError.Some? ==>
                resp == Response(500, Failure(faults.txInsertError.value)) && transactions == old(transactions))
          && (faults.txInsertError.None? ==>
                && transactions == old(transactions) +
                     [PendingRow(Parsed(p), p, issued.txId, issued.rawId,
                                 ResolvedFundId(old(funds), source, faults.fundInsertFails, issued.fundId), issued.now)]
                && resp == if env.notifyConfigured && faults.notifyError.Some?
                           then Response(500, Failure(faults.notifyError.value))
                           else Response(200, Created(issued.rawId, issued.txId)))
    {
      if req.verb == "OPTIONS" {
        return Response(200, Preflight);
      }
      if !Authorized(req.apiKey, env.ingestApiKey) {
        return Response(401, Failure("Unauthorized"));
      }
      if req.body.Malformed? {
        return Response(500, Failure(req.body.message));
      }
      var p := req.body.payload;

      // 2. Deduplication
      var existing := Single(WithMessageId(rawEmails, p.gmailMessageId));
      if existing.Some? {
        return Response(200, Duplicate(existing.value.id, FirstTxOf(transactions, existing.value.id)));
      }

      // 3. Raw e-mail
      if faults.rawInsertError.Some? {
        return Response(500, Failure(faults.rawInsertError.value));
      }
      var rawEmail := RawRowOf(p, issued.rawId, issued.now);
      rawEmails := rawEmails + [rawEmail];

      // 4. Parse, then resolve the funding source
      var parseResult := ParseEmail(p);
      var sourceOfFundId: Option<Id> := None;
      if parseResult.sourceOfFund.Some? {
        sourceOfFundId := ResolveFund(parseResult.sourceOfFund.value, faults.fundInsertFails, issued.fundId);
      }

      // 5. Pending transaction
      if faults.txInsertError.Some? {
        return Response(500, Failure(faults.txInsertError.value));
      }
      var transaction := PendingRow(parseResult, p, issued.txId, rawEmail.id, sourceOfFundId, issued.now);
      transactions := transactions + [transaction];

      // 6. Notification: a rejected request is caught like any other error
      if env.notifyConfigured && faults.notifyError.Some? {
        return Response(500, Failure(faults.notifyError.value));
      }
      resp := Response(200, Created(rawEmail.id, transaction.id));
    }
  }

  /**
   * Once an e-mail with a new message id is stored, the same message id is a
   * duplicate, answered with the stored raw e-mail and, when no transaction
   * referred to that id before, with the new transaction.
   */
  lemma StoredIsDuplicate(raws: seq<RawEmail>, txs: seq<Transaction>, p: Payload, issued: Fresh, tx: Transaction)
    requires WithMessageId(raws, p.gmailMessageId) == []
    requires forall i :: 0 <= i < |txs| ==> txs[i].sourceRef != issued.rawId
    requires tx.id == issued.txId && tx.sourceRef == issued.rawId
    ensures Single(WithMessageId(raws + [RawRowOf(p, issued.rawId, issued.now)], p.gmailMessageId)) ==
      Some(RawRowOf(p, issued.rawId, issued.now))
    ensures FirstTxOf(txs + [tx], issued.rawId) == Some(issued.txId)
  {
    var row := RawRowOf(p, issued.rawId, issued.now);
    assert (raws + [row])[..|raws|] == raws;
    var r := FirstTxOf(txs + [tx], issued.rawId);
    assert (txs + [tx])[|txs|] == tx;
    if r.Some? {
      var i :| 0 <= i < |txs + [tx]| && (txs + [tx])[i].sourceRef == issued.rawId && (txs + [tx])[i].id == r.value &&
        forall j :: 0 <= j < i ==> (txs + [tx])[j].sourceRef != issued.rawId;
      assert i == |txs|;
    }
  }

  /** A message id that is not stored is not a duplicate: the filter then selects nothing. */
  lemma NewIdIsNotDuplicate(raws: seq<RawEmail>, gmailMessageId: string)
    requires forall i :: 0 <= i < |raws| ==> raws[i].gmailMessageId != gmailMessageId
    ensures Single(WithMessageId(raws, gmailMessageId)).None?
  {
    WithMessageIdEmpty(raws, gmailMessageId);
  }

  /**
   * A fund created for a name that no fund had is the one the next lookup of
   * that name finds, so the second resolution creates nothing.
   */
  lemma CreatedFundIsFound(funds: seq<Fund>, name: string, newId: Id)
    requires FundsNamed(funds, name) == []
    ensures CreatesFund(funds, Some(name), false)
    ensures FundLookup(FundsAfter(funds, Some(name), false, newId), name) == Some(newId)
    ensures !CreatesFund(FundsAfter(funds, Some(name), false, newId), Some(name), false)
  {
    var after := funds + [Fund(newId, name, "other")];
    assert after[..|funds|] == funds;
  }

  /** Resolution adds at most one fund, and only when the lookup found none. */
  lemma ResolutionGrowsByAtMostOne(funds: seq<Fund>, source: Option<string>, insertFails: bool, newId: Id)
    ensures var after := FundsAfter(funds, source, insertFails, newId);
      && |funds| <= |after| <= |funds| + 1
      && after[..|funds|] == funds
      && (|after| == |funds| + 1 <==> CreatesFund(funds, source, insertFails))
      && (ResolvedFundId(funds, source, insertFails, newId).Some? <==>
            source.Some? && (FundLookup(funds, source.value).Some? || !insertFails))
  {
  }
}
