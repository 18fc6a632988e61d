/**
 * The heuristic extractor of the e-mail ingestion function (`parseEmail`): from
 * the subject, bodies, date header and sender of a forwarded notification it
 * derives amount, direction, merchant and funding source, in that fixed order,
 * with a binary confidence and the ordered trail of the rules that fired.
 */
module EmailParser {
  import opened Common
  import opened EmailText

  /** The JSON body posted to the ingestion endpoint; every field may be missing. */
  datatype Payload = Payload(
    receivedAt: Option<string>,
    fromEmail: Option<string>,
    toEmail: Option<string>,
    subject: Option<string>,
    dateHeader: Option<string>,
    gmailMessageId: string,
    threadId: Option<string>,
    textBody: Option<string>,
    htmlBody: Option<string>,
    emailLabel: Option<string>)

  /** A JavaScript number produced by `parseInt`: an integer, or NaN. */
  datatype Amount = Num(n: int) | NaN

  datatype Direction = Debit | Credit

  /** The rule names pushed onto `rules_triggered`. */
  datatype Rule = AmountRegexMatch | DirectionKeywordCredit | DirectionKeywordDebit | SourceKeywordMatch

  /** `evidence.amount_line` and `evidence.method_line`, each set only by its rule. */
  datatype Evidence = Evidence(amountLine: Option<string>, methodLine: Option<string>)

  datatype ParseResult = ParseResult(
    happenedAt: Option<string>,
    amount: Amount,
    direction: Direction,
    merchant: string,
    sourceOfFund: Option<string>,
    note: Option<string>,
    confidence: real,
    evidence: Evidence,
    rulesTriggered: seq<Rule>)

  /** The step of the fixed rule order at which a rule can fire. */
  function Rank(r: Rule): nat
  {
    match r
    case AmountRegexMatch => 0
    case DirectionKeywordCredit => 1
    case DirectionKeywordDebit => 1
    case SourceKeywordMatch => 2
  }

  const DebitKeywords: seq<string> :=
    ["Pembayaran", "Berhasil dibayar", "Total Tagihan", "Total Pembayaran", "Purchase", "Payment"]
  const CreditKeywords: seq<string> :=
    ["Refund", "Pengembalian", "Dana masuk", "Cashback", "Top Up", "Topup"]
  const SourceKeywords: seq<string> :=
    ["OVO", "GoPay", "Dana", "BCA", "Mandiri", "Jenius", "Credit Card"]
  const UnknownMerchant: string := "Unknown Merchant"
  const ReceiptFrom: string := "receipt from "

  /** `(text_body || "") + " " + (html_body || "")`. */
  function Content(p: Payload): string
  {
    GetOr(p.textBody, "") + " " + GetOr(p.htmlBody, "")
  }

  /** The normalised content every rule reads. */
  function Cleaned(p: Payload): string
  {
    CleanText(Content(p))
  }

  // ---------------------------------------------------------------------------
  // Amount: /(?:Rp|IDR)\s?\.?([0-9.,]+)/i, first match
  // ---------------------------------------------------------------------------

  predicate IsAmountChar(c: char)
  {
    IsDigit(c) || c == '.' || c == ','
  }

  /** Length of a case-insensitive `Rp` or `IDR` at position `i`, 0 when there is none. */
  function MarkerLength(s: string, i: nat): (m: nat)
    ensures m == 0 || m == 2 || m == 3
    ensures m > 0 ==> i + m <= |s|
  {
    if i + 2 <= |s| && LowerChar(s[i]) == 'r' && LowerChar(s[i + 1]) == 'p' then 2
    else if i + 3 <= |s| && LowerChar(s[i]) == 'i' && LowerChar(s[i + 1]) == 'd' && LowerChar(s[i + 2]) == 'r' then 3
    else 0
  }

  /** The end of the longest run of amount characters starting at `k`. */
  function RunEnd(s: string, k: nat): (e: nat)
    requires k <= |s|
    ensures k <= e <= |s|
    decreases |s| - k
  {
    if k < |s| && IsAmountChar(s[k]) then RunEnd(s, k + 1) else k
  }

  /** The run is made of amount characters and cannot be extended. */
  lemma {:induction false} RunEndMaximal(s: string, k: nat)
    requires k <= |s|
    ensures forall j :: k <= j < RunEnd(s, k) ==> IsAmountChar(s[j])
    ensures RunEnd(s, k) == |s| || !IsAmountChar(s[RunEnd(s, k)])
    decreases |s| - k
  {
    if k < |s| && IsAmountChar(s[k]) {
      RunEndMaximal(s, k + 1);
    }
  }

  /**
   * Where the captured group starts once the marker and the optional blank are
   * consumed at `j`: after an optional '.', when a digit, '.' or ',' follows it;
   * otherwise (the regex backtracks over `\.?`) at `j` itself.
   */
  function GroupStart(s: string, j: nat): (k: Option<nat>)
    ensures k.Some? ==> j <= k.value < |s| && IsAmountChar(s[k.value])
  {
    if j + 1 < |s| && s[j] == '.' && IsAmountChar(s[j + 1]) then Some(j + 1)
    else if j < |s| && IsAmountChar(s[j]) then Some(j)
    else None
  }

  /** A match: `s[start..end]` is `match[0]`, `s[group..end]` is `match[1]`. */
  datatype AmountMatch = AmountMatch(start: nat, group: nat, end: nat)

  /** The match of the amount expression that starts exactly at `i`, if any. */
  function MatchAt(s: string, i: nat): (r: Option<AmountMatch>)
    ensures r.Some? ==> r.value.start == i && MarkerLength(s, i) > 0
    ensures r.Some? ==> i + MarkerLength(s, i) <= r.value.group < r.value.end <= |s|
  {
    var m := MarkerLength(s, i);
    if m == 0 then None
    else
      var j := if i + m < |s| && IsSpace(s[i + m]) then i + m + 1 else i + m;
      match GroupStart(s, j)
      case None => None
      case Some(k) => Some(AmountMatch(i, k, RunEnd(s, k)))
  }

  /** `String.prototype.match` without the global flag: the leftmost match at or after `from`. */
  function FindAmount(s: string, from: nat): (r: Option<AmountMatch>)
    ensures r.Some? ==> from <= r.value.start && MatchAt(s, r.value.start) == r
    decreases |s| - from
  {
    if from >= |s| then None
    else if MatchAt(s, from).Some? then MatchAt(s, from)
    else FindAmount(s, from + 1)
  }

  /**
   * The match found is the leftmost one: no match starts before it, and none at
   * all when nothing is found.
   */
  lemma {:induction false} FindAmountLeftmost(s: string, from: nat)
    ensures FindAmount(s, from).Some? ==>
      forall i :: from <= i < FindAmount(s, from).value.start ==> MatchAt(s, i).None?
    ensures FindAmount(s, from).None? ==> forall i :: from <= i ==> MatchAt(s, i).None?
    decreases |s| - from
  {
    if from < |s| && MatchAt(s, from).None? {
      FindAmountLeftmost(s, from + 1);
    }
  }

  /** A match's captured group is the maximal run of digits, '.' and ',' after the marker. */
  lemma MatchedRun(s: string, i: nat)
    requires MatchAt(s, i).Some?
    ensures var m := MatchAt(s, i).value;
      && (forall j :: m.group <= j < m.end ==> IsAmountChar(s[j]))
      && (m.end == |s| || !IsAmountChar(s[m.end]))
  {
    var m := MatchAt(s, i).value;
    RunEndMaximal(s, m.group);
  }

  /** `amount`: 0 without a match, otherwise `parseInt` of the digits of the captured group. */
  function AmountOf(s: string): Amount
  {
    match FindAmount(s, 0)
    case None => Num(0)
    case Some(m) =>
      match ParseInt(DigitsOf(s[m.group..m.end]))
      case None => NaN
      case Some(n) => Num(n)
  }

  /**
   * The amount is 0 when nothing matches, NaN when the captured group holds only
   * separators, and otherwise the non-negative number its digits denote.
   */
  lemma AmountCases(s: string)
    ensures FindAmount(s, 0).None? ==> AmountOf(s) == Num(0)
    ensures FindAmount(s, 0).Some? ==>
      var m := FindAmount(s, 0).value;
      var ds := DigitsOf(s[m.group..m.end]);
      && (ds == [] <==> forall j :: m.group <= j < m.end ==> !IsDigit(s[j]))
      && (ds == [] ==> AmountOf(s) == NaN)
      && (ds != [] ==> AmountOf(s) == Num(NatOf(ds)))
  {
    if FindAmount(s, 0).Some? {
      var m := FindAmount(s, 0).value;
      ParseIntOfDigits(DigitsOf(s[m.group..m.end]));
      NoDigitsInSlice(s, m.group, m.end);
    }
  }

  lemma NoDigitsInSlice(s: string, lo: nat, hi: nat)
    requires lo <= hi <= |s|
    ensures DigitsOf(s[lo..hi]) == [] <==> forall j :: lo <= j < hi ==> !IsDigit(s[j])
  {
    var run := s[lo..hi];
    assert forall j :: lo <= j < hi ==> s[j] == run[j - lo];
  }

  /** Step 1: the amount and, when the expression matched, the matched text as evidence. */
  method ExtractAmount(content: string) returns (amount: Amount, amountLine: Option<string>)
    ensures amount == AmountOf(content)
    ensures amountLine.Some? <==> FindAmount(content, 0).Some?
    ensures amountLine.Some? ==>
      var m := FindAmount(content, 0).value;
      amountLine.value == content[m.start..m.end]
  {
    amount := Num(0);
    amountLine := None;
    var amountMatch := FindAmount(content, 0);
    if amountMatch.Some? {
      var m := amountMatch.value;
      var numericString := DigitsOf(content[m.group..m.end]);
      amount := match ParseInt(numericString) case None => NaN case Some(n) => Num(n);
      amountLine := Some(content[m.start..m.end]);
    }
  }

  /** "Rp 35.000": the thousands separator is dropped, giving 35000. */
  lemma AmountWithSeparator()
    ensures AmountOf("Rp 35.000") == Num(35000)
  {
    var s := "Rp 35.000";
    MatchRp35000();
    assert s[3..9] == "35.000";
    Digits35000();
    NatOf35000();
    ParseIntOfDigits("35000");
  }

  lemma MatchRp35000()
    ensures FindAmount("Rp 35.000", 0) == Some(AmountMatch(0, 3, 9))
  {
    var s := "Rp 35.000";
    assert RunEnd(s, 9) == 9;
    assert RunEnd(s, 6) == 9;
    assert RunEnd(s, 3) == 9;
  }

  lemma Digits35000()
    ensures DigitsOf("35.000") == "35000"
  {
    assert "35.000"[1..] == "5.000" && "5.000"[1..] == ".000" && ".000"[1..] == "000";
    assert DigitsOf("000") == "000";
    assert DigitsOf(".000") == "000";
  }

  lemma NatOf35000()
    ensures NatOf("35000") == 35000
  {
    assert "35"[..1] == "3" && NatOf("3") == 3;
    assert "350"[..2] == "35" && NatOf("35") == 35;
    assert "3500"[..3] == "350" && NatOf("350") == 350;
    assert "35000"[..4] == "3500" && NatOf("3500") == 3500;
  }

  /** "IDR ,": a marker followed only by a separator yields NaN. */
  lemma AmountSeparatorsOnly()
    ensures AmountOf("IDR ,") == NaN
  {
    var s := "IDR ,";
    assert MatchAt(s, 0) == Some(AmountMatch(0, 4, 5));
    assert s[4..5] == ",";
    assert DigitsOf(",") == "";
  }

  // ---------------------------------------------------------------------------
  // Direction and merchant
  // ---------------------------------------------------------------------------

  /** `keywords.some(k => lowerContent.includes(k.toLowerCase()) || lowerSubject.includes(k.toLowerCase()))`. */
  predicate Mentions(keywords: seq<string>, p: Payload)
  {
    exists k :: k in keywords &&
      (Contains(Lower(Cleaned(p)), Lower(k)) || Contains(Lower(GetOr(p.subject, "")), Lower(k)))
  }

  /**
   * `s.replace(/receipt from /i, "")` for a lower-case pattern: the first
   * case-insensitive occurrence is cut out, and nothing else changes.
   */
  function RemoveFirstIgnoringCase(s: string, pattern: string): (r: string)
    ensures !Contains(Lower(s), pattern) ==> r == s
    ensures Contains(Lower(s), pattern) ==>
      exists i :: 0 <= i <= |r| && i + |pattern| <= |s|
        // the piece cut out is the pattern up to case ...
        && Lower(s[i..i + |pattern|]) == pattern
        // ... no earlier piece is ...
        && (forall j :: 0 <= j < i ==> !OccursAt(Lower(s), pattern, j))
        // ... and putting it back gives the subject again
        && s == r[..i] + s[i..i + |pattern|] + r[i..]
  {
    ContainsIffFound(Lower(s), pattern);
    match FirstIndex(Lower(s), pattern, 0)
    case None => s
    case Some(i) =>
      CutAt(s, |pattern|, i);
      s[..i] + s[i + |pattern|..]
  }

  /** Cutting `n` characters at `i` and putting them back gives the text again. */
  lemma CutAt(s: string, n: nat, i: nat)
    requires i + n <= |s|
    ensures var r := s[..i] + s[i + n..];
      && Lower(s[i..i + n]) == Lower(s)[i..i + n]
      && s == r[..i] + s[i..i + n] + r[i..]
  {
    var r := s[..i] + s[i + n..];
    assert r[..i] == s[..i] && r[i..] == s[i + n..];
    assert s == s[..i] + s[i..i + n] + s[i + n..];
  }

  /**
   * A subject that starts with "Receipt from " in any case loses exactly that
   * prefix, so "Receipt from Gojek" yields "Gojek" once trimmed.
   */
  lemma ReceiptPrefixStripped(subject: string)
    requires StartsWith(Lower(subject), ReceiptFrom)
    ensures Contains(Lower(subject), ReceiptFrom)
    ensures RemoveFirstIgnoringCase(subject, ReceiptFrom) == subject[|ReceiptFrom|..]
  {
    assert OccursAt(Lower(subject), ReceiptFrom, 0);
  }

  /** The sender address contains `domain` (and is truthy). */
  predicate SentFrom(p: Payload, domain: string)
  {
    Truthy(p.fromEmail) && Contains(p.fromEmail.value, domain)
  }

  predicate KnownSender(p: Payload)
  {
    SentFrom(p, "gojek") || SentFrom(p, "grab") || SentFrom(p, "tokopedia") || SentFrom(p, "shopee")
  }

  /** The merchant the subject names: "Unknown Merchant" without one, and the first "receipt from " cut out. */
  function SubjectMerchant(p: Payload): string
  {
    var subject := OrElse(p.subject, UnknownMerchant);
    if Contains(Lower(subject), ReceiptFrom) then Trim(RemoveFirstIgnoringCase(subject, ReceiptFrom)) else subject
  }

  /** The merchant by priority: Shopee, Tokopedia, Grab, Gojek senders, then the subject. */
  function MerchantOf(p: Payload): string
  {
    if SentFrom(p, "shopee") then "Shopee"
    else if SentFrom(p, "tokopedia") then "Tokopedia"
    else if SentFrom(p, "grab") then "Grab"
    else if SentFrom(p, "gojek") then "Gojek"
    else SubjectMerchant(p)
  }

  /**
   * Step 3: the merchant from the subject, then overridden by each known sender
   * domain in turn, so that the last domain that matches wins.
   */
  method ExtractMerchant(p: Payload) returns (merchant: string)
    ensures merchant == MerchantOf(p)
    ensures !KnownSender(p) ==> merchant == SubjectMerchant(p)
  {
    merchant := OrElse(p.subject, UnknownMerchant);
    if Contains(Lower(merchant), ReceiptFrom) {
      merchant := Trim(RemoveFirstIgnoringCase(merchant, ReceiptFrom));
    }
    if SentFrom(p, "gojek") { merchant := "Gojek"; }
    if SentFrom(p, "grab") { merchant := "Grab"; }
    if SentFrom(p, "tokopedia") { merchant := "Tokopedia"; }
    if SentFrom(p, "shopee") { merchant := "Shopee"; }
  }

  // ---------------------------------------------------------------------------
  // Source of fund
  // ---------------------------------------------------------------------------

  /** The first of `keywords` that occurs (case-sensitively) in `s`. */
  function FirstListed(keywords: seq<string>, s: string): Option<string>
  {
    if keywords == [] then None
    else if Contains(s, keywords[0]) then Some(keywords[0])
    else FirstListed(keywords[1..], s)
  }

  /** Nothing is found exactly when no keyword occurs; what is found is the earliest listed one that occurs. */
  lemma {:induction false} FirstListedSpec(keywords: seq<string>, s: string)
    ensures FirstListed(keywords, s).None? <==> forall k :: k in keywords ==> !Contains(s, k)
    ensures FirstListed(keywords, s).Some? ==>
      exists i :: 0 <= i < |keywords| && FirstListed(keywords, s).value == keywords[i] && Contains(s, keywords[i]) &&
        forall j :: 0 <= j < i ==> !Contains(s, keywords[j])
  {
    if keywords != [] && !Contains(s, keywords[0]) {
      var tail := keywords[1..];
      var r := FirstListed(tail, s);
      FirstListedSpec(tail, s);
      assert forall k :: k in keywords ==> k == keywords[0] || k in tail;
      if r.Some? {
        var i :| 0 <= i < |tail| && r.value == tail[i] && Contains(s, tail[i]) &&
          forall j :: 0 <= j < i ==> !Contains(s, tail[j]);
        assert r.value == keywords[i + 1];
        assert forall j :: 0 <= j < i + 1 ==> !Contains(s, keywords[j]) by {
          forall j | 0 < j < i + 1 ensures !Contains(s, keywords[j]) {
            assert keywords[j] == tail[j - 1];
          }
        }
      }
    }
  }

  /** The loop of step 4: scan the keyword list in order and stop at the first hit. */
  method FirstSourceKeyword(content: string) returns (source: Option<string>)
    ensures source == FirstListed(SourceKeywords, content)
  {
    source := None;
    var i := 0;
    while i < |SourceKeywords|
      invariant 0 <= i <= |SourceKeywords|
      invariant FirstListed(SourceKeywords, content) == FirstListed(SourceKeywords[i..], content)
    {
      var src := SourceKeywords[i];
      if Contains(content, src) {
        source := Some(src);
        break;
      }
      assert SourceKeywords[i..][1..] == SourceKeywords[i + 1..];
      i := i + 1;
    }
  }

  // ---------------------------------------------------------------------------
  // parseEmail
  // ---------------------------------------------------------------------------

  /** The rules that fire, in rule order, given which of them matched. */
  function RuleTrail(amount: bool, credit: bool, debit: bool, source: bool): (rules: seq<Rule>)
    ensures forall i, j :: 0 <= i < j < |rules| ==> Rank(rules[i]) < Rank(rules[j])
    ensures AmountRegexMatch in rules <==> amount
    ensures DirectionKeywordCredit in rules <==> credit
    ensures DirectionKeywordDebit in rules <==> !credit && debit
    ensures SourceKeywordMatch in rules <==> source
  {
    (if amount then [AmountRegexMatch] else [])
    + (if credit then [DirectionKeywordCredit] else if debit then [DirectionKeywordDebit] else [])
    + (if source then [SourceKeywordMatch] else [])
  }

  /** `evidence.amount_line`: the whole text the amount expression matched. */
  function AmountLine(s: string): (r: Option<string>)
    ensures r.Some? <==> FindAmount(s, 0).Some?
  {
    match FindAmount(s, 0)
    case None => None
    case Some(m) => Some(s[m.start..m.end])
  }

  /** What `parseEmail` returns, each field read off its own rule. */
  function Parsed(p: Payload): ParseResult
  {
    var content := Cleaned(p);
    var amount := AmountOf(content);
    var source := FirstListed(SourceKeywords, content);
    var credit := Mentions(CreditKeywords, p);
    ParseResult(
      p.dateHeader, amount, if credit then Credit else Debit, MerchantOf(p), source, p.subject,
      if amount.Num? && amount.n > 0 then 0.8 else 0.3,
      Evidence(AmountLine(content), source),
      RuleTrail(FindAmount(content, 0).Some?, credit, Mentions(DebitKeywords, p), source.Some?))
  }

  /** `parseEmail`: the rules applied in their fixed order over the normalised content. */
  method ParseEmail(p: Payload) returns (r: ParseResult)
    // amount and confidence
    ensures r.amount == AmountOf(Cleaned(p))
    ensures r.confidence == if r.amount.Num? && r.amount.n > 0 then 0.8 else 0.3
    // direction: credit keywords win over debit ones, debit is the default
    ensures r.direction == Credit <==> Mentions(CreditKeywords, p)
    // merchant: the last matching sender domain wins, else the subject with "receipt from " removed
    ensures r.merchant == MerchantOf(p)
    // funding source: the first listed keyword present, case-sensitively
    ensures r.sourceOfFund == FirstListed(SourceKeywords, Cleaned(p))
    // pass-through fields
    ensures r.note == p.subject && r.happenedAt == p.dateHeader
    // the rule trail: each rule at most once, in rule order, exactly when it fired (see RuleTrail)
    ensures r.rulesTriggered ==
      RuleTrail(FindAmount(Cleaned(p), 0).Some?, Mentions(CreditKeywords, p), Mentions(DebitKeywords, p),
                r.sourceOfFund.Some?)
    // evidence
    ensures r.evidence.amountLine.Some? <==> FindAmount(Cleaned(p), 0).Some?
    ensures r.evidence.amountLine.Some? ==>
      var m := FindAmount(Cleaned(p), 0).value;
      r.evidence.amountLine.value == Cleaned(p)[m.start..m.end]
    ensures r.evidence.methodLine == r.sourceOfFund
    ensures r == Parsed(p)
  {
    var cleanContent := Cleaned(p);

    // 1. Amount
    var amount, amountLine := ExtractAmount(cleanContent);

    // 2. Direction: credit keywords are checked first, debit is the default
    var credit, debit := Mentions(CreditKeywords, p), Mentions(DebitKeywords, p);
    var direction := if credit then Credit else Debit;

    // 3. Merchant
    var merchant := ExtractMerchant(p);

    // 4. Source of fund
    var sourceOfFund := FirstSourceKeyword(cleanContent);

    var rules := RuleTrail(amountLine.Some?, credit, debit, sourceOfFund.Some?);
    r := ParseResult(
      p.dateHeader, amount, direction, merchant, sourceOfFund, p.subject,
      if amount.Num? && amount.n > 0 then 0.8 else 0.3,
      Evidence(amountLine, sourceOfFund), rules);
  }
}
