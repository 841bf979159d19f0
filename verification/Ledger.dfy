/** Double-entry postings: validation, insertion and derived balances. */
module Ledger {
  import opened Common

  /** The configured account codes; any other code has no row in ledger_accounts. */
  datatype Account =
    | CustomerReceivable
    | MerchantBankPayout
    | MerchantPayable
    | MerchantReserveHeld
    | PlatformFeeRevenue
    | RefundClearing
    | SettlementClearing
    | Unconfigured(code: string)

  /** Every row of ledger_accounts, in code order. */
  const CONFIGURED: seq<Account> := [
    CustomerReceivable, MerchantBankPayout, MerchantPayable, MerchantReserveHeld,
    PlatformFeeRevenue, RefundClearing, SettlementClearing]

  function AccountFor(code: string): Account
  {
    if code == "CUSTOMER_RECEIVABLE" then CustomerReceivable
    else if code == "MERCHANT_BANK_PAYOUT" then MerchantBankPayout
    else if code == "MERCHANT_PAYABLE" then MerchantPayable
    else if code == "MERCHANT_RESERVE_HELD" then MerchantReserveHeld
    else if code == "PLATFORM_FEE_REVENUE" then PlatformFeeRevenue
    else if code == "REFUND_CLEARING" then RefundClearing
    else if code == "SETTLEMENT_CLEARING" then SettlementClearing
    else Unconfigured(code)
  }

  function CodeOf(a: Account): string
  {
    match a
    case CustomerReceivable => "CUSTOMER_RECEIVABLE"
    case MerchantBankPayout => "MERCHANT_BANK_PAYOUT"
    case MerchantPayable => "MERCHANT_PAYABLE"
    case MerchantReserveHeld => "MERCHANT_RESERVE_HELD"
    case PlatformFeeRevenue => "PLATFORM_FEE_REVENUE"
    case RefundClearing => "REFUND_CLEARING"
    case SettlementClearing => "SETTLEMENT_CLEARING"
    case Unconfigured(code) => code
  }

  /** Every code names one account, and every configured account has its own code. */
  lemma CodesRoundTrip(code: string, a: Account)
    ensures CodeOf(AccountFor(code)) == code
    ensures a in CONFIGURED ==> AccountFor(CodeOf(a)) == a
  {
    assert "MERCHANT_BANK_PAYOUT"[9] == 'B' && "MERCHANT_PAYABLE"[9] == 'P' && "MERCHANT_RESERVE_HELD"[9] == 'R';
    assert "CUSTOMER_RECEIVABLE"[0] == 'C' && "PLATFORM_FEE_REVENUE"[0] == 'P' && "REFUND_CLEARING"[0] == 'R';
    assert "SETTLEMENT_CLEARING"[0] == 'S' && "MERCHANT_PAYABLE"[0] == 'M';
    assert "MERCHANT_BANK_PAYOUT"[0] == 'M' && "MERCHANT_RESERVE_HELD"[0] == 'M';
  }

  /** The account a code names once its surrounding spaces are gone. */
  function Trimmed(a: Account): Account
  {
    if a.Unconfigured? then AccountFor(TrimSpace(a.code)) else a
  }

  predicate Blank(a: Account)
  {
    a.Unconfigured? && TrimSpace(a.code) == ""
  }

  datatype Entry = Entry(account: Account, debit: int, credit: int, currency: string)

  /** What a posting is for: source_type and source_id, unique together. */
  datatype Source = Source(kind: string, id: string)

  const PAYMENT := "payment"
  const LEDGER_HOLD_COMMIT := "ledger_hold_commit"

  function PaymentCapture(id: string): Source
  {
    Source(PAYMENT, id)
  }

  function HoldCommit(id: string): Source
  {
    Source(LEDGER_HOLD_COMMIT, id)
  }

  datatype Txn = Txn(
    merchant: string, source: Source, currency: string, totalDebit: int, totalCredit: int, lines: seq<Entry>)

  datatype Verdict = Accepted | InvalidEntrySide | UnbalancedEntries

  datatype PostResult = Posted(txns: seq<Txn>) | Refused(verdict: Verdict) | ConstraintViolation

  // Validation

  predicate BadSide(e: Entry)
  {
    (e.debit > 0 && e.credit > 0) || (e.debit == 0 && e.credit == 0)
  }

  function Debits(entries: seq<Entry>): int
  {
    SumSeq(entries, (e: Entry) => e.debit)
  }

  function Credits(entries: seq<Entry>): int
  {
    SumSeq(entries, (e: Entry) => e.credit)
  }

  function Validate(entries: seq<Entry>): Verdict
  {
    if exists i :: 0 <= i < |entries| && BadSide(entries[i]) then InvalidEntrySide
    else if Debits(entries) != Credits(entries) then UnbalancedEntries
    else Accepted
  }

  /** The running-total loop decides exactly one-sidedness and balance. */
  method ValidateEntries(entries: seq<Entry>) returns (v: Verdict)
    ensures v == Validate(entries)
    ensures v == InvalidEntrySide <==>
            exists i :: 0 <= i < |entries|
                        && ((entries[i].debit > 0 && entries[i].credit > 0) || entries[i].debit == entries[i].credit == 0)
    ensures v == Accepted <==>
            Debits(entries) == Credits(entries)
            && forall i :: 0 <= i < |entries| ==>
                (entries[i].debit > 0 ==> entries[i].credit <= 0) && !(entries[i].debit == 0 && entries[i].credit == 0)
  {
    var debit, credit := 0, 0;
    for i := 0 to |entries|
      invariant debit == Debits(entries[..i]) && credit == Credits(entries[..i])
      invariant forall j :: 0 <= j < i ==> !BadSide(entries[j])
    {
      assert entries[..i + 1] == entries[..i] + [entries[i]];
      SumAppend(entries[..i], entries[i], (e: Entry) => e.debit);
      SumAppend(entries[..i], entries[i], (e: Entry) => e.credit);
      debit := debit + entries[i].debit;
      credit := credit + entries[i].credit;
      if BadSide(entries[i]) {
        return InvalidEntrySide;
      }
    }
    assert entries[..|entries|] == entries;
    if debit != credit {
      return UnbalancedEntries;
    }
    return Accepted;
  }

  // Insertion

  /** The last currency named by an entry, INR when none names one. */
  function PostingCurrency(entries: seq<Entry>): string
  {
    if |entries| == 0 then "INR"
    else if entries[|entries| - 1].currency != "" then entries[|entries| - 1].currency
    else PostingCurrency(entries[..|entries| - 1])
  }

  /** The currency is the last one an entry names, and INR when none does. */
  predicate IsLastNamed(entries: seq<Entry>, currency: string)
  {
    || (currency == "INR" && forall i :: 0 <= i < |entries| ==> entries[i].currency == "")
    || exists i :: 0 <= i < |entries| && entries[i].currency == currency && currency != ""
                   && forall j :: i < j < |entries| ==> entries[j].currency == ""
  }

  lemma {:induction false} PostingCurrencyIsLastNamed(entries: seq<Entry>)
    ensures IsLastNamed(entries, PostingCurrency(entries))
  {
    if |entries| > 0 && entries[|entries| - 1].currency == "" {
      PostingCurrencyIsLastNamed(entries[..|entries| - 1]);
    }
  }

  function Stamp(e: Entry, currency: string): Entry
  {
    if e.currency == "" then e.(currency := currency) else e
  }

  function Stamped(entries: seq<Entry>, currency: string): (r: seq<Entry>)
    ensures |r| == |entries|
    ensures forall i :: 0 <= i < |r| ==> r[i] == Stamp(entries[i], currency)
  {
    seq(|entries|, i requires 0 <= i < |entries| => Stamp(entries[i], currency))
  }

  function MakeTxn(merchant: string, source: Source, entries: seq<Entry>): Txn
  {
    var currency := PostingCurrency(entries);
    Txn(merchant, source, currency, Debits(entries), Credits(entries), Stamped(entries, currency))
  }

  predicate SourceUsed(txns: seq<Txn>, source: Source)
  {
    exists i :: 0 <= i < |txns| && txns[i].source == source
  }

  /** The table constraints a new posting has to meet. */
  predicate Insertable(txns: seq<Txn>, source: Source, entries: seq<Entry>)
  {
    && Debits(entries) > 0 && Debits(entries) == Credits(entries)
    && (forall i :: 0 <= i < |entries| ==>
          entries[i].account in CONFIGURED && entries[i].debit >= 0 && entries[i].credit >= 0 && !BadSide(entries[i]))
    && !SourceUsed(txns, source)
  }

  function Post(txns: seq<Txn>, merchant: string, source: Source, entries: seq<Entry>): PostResult
  {
    if Validate(entries) != Accepted then Refused(Validate(entries))
    else if !Insertable(txns, source, entries) then ConstraintViolation
    else Posted(txns + [MakeTxn(merchant, source, entries)])
  }

  /** The two insertion loops: totals with the posting currency, then one stamped line per entry. */
  method BuildTransaction(merchant: string, source: Source, entries: seq<Entry>) returns (t: Txn)
    ensures t == MakeTxn(merchant, source, entries)
    ensures t.merchant == merchant && t.source == source && IsLastNamed(entries, t.currency)
    ensures t.totalDebit == Debits(entries) && t.totalCredit == Credits(entries) && |t.lines| == |entries|
    ensures forall i :: 0 <= i < |entries| ==>
              t.lines[i] == entries[i].(currency := if entries[i].currency == "" then t.currency else entries[i].currency)
  {
    PostingCurrencyIsLastNamed(entries);
    var totalDebit, totalCredit := 0, 0;
    var currency := "INR";
    for i := 0 to |entries|
      invariant totalDebit == Debits(entries[..i]) && totalCredit == Credits(entries[..i])
      invariant currency == PostingCurrency(entries[..i])
    {
      assert entries[..i + 1] == entries[..i] + [entries[i]];
      SumAppend(entries[..i], entries[i], (e: Entry) => e.debit);
      SumAppend(entries[..i], entries[i], (e: Entry) => e.credit);
      assert entries[..i + 1][..i] == entries[..i];
      totalDebit := totalDebit + entries[i].debit;
      totalCredit := totalCredit + entries[i].credit;
      if entries[i].currency != "" {
        currency := entries[i].currency;
      }
    }
    assert entries[..|entries|] == entries;
    var lines := [];
    for i := 0 to |entries|
      invariant lines == Stamped(entries[..i], currency)
    {
      var entryCurrency := entries[i].currency;
      if entryCurrency == "" {
        entryCurrency := currency;
      }
      lines := lines + [entries[i].(currency := entryCurrency)];
    }
    t := Txn(merchant, source, currency, totalDebit, totalCredit, lines);
  }

  /** Validate, then insert under the table constraints, in the caller's transaction. */
  method CreateEntriesTx(txns: seq<Txn>, merchant: string, source: Source, entries: seq<Entry>) returns (r: PostResult)
    ensures r == Post(txns, merchant, source, entries)
    ensures r.Posted? <==>
            && Debits(entries) == Credits(entries) > 0
            && (forall i :: 0 <= i < |entries| ==>
                  entries[i].account in CONFIGURED
                  && ((entries[i].debit > 0 && entries[i].credit == 0) || (entries[i].debit == 0 && entries[i].credit > 0)))
            && (forall i :: 0 <= i < |txns| ==> txns[i].source != source)
    ensures r.Posted? ==> |r.txns| == |txns| + 1 && r.txns[..|txns|] == txns
  {
    var v := ValidateEntries(entries);
    if v != Accepted {
      return Refused(v);
    }
    var t := BuildTransaction(merchant, source, entries);
    if !Insertable(txns, source, entries) {
      return ConstraintViolation;
    }
    r := Posted(txns + [t]);
  }

  // Balances

  function NetOf(pick: Entry -> bool): Entry -> int
  {
    (e: Entry) => if pick(e) then e.debit - e.credit else 0
  }

  /** Debit minus credit over the picked lines of one posting. */
  function LinesNet(lines: seq<Entry>, pick: Entry -> bool): int
  {
    SumSeq(lines, NetOf(pick))
  }

  function TxnNet(merchant: string, pick: Entry -> bool): Txn -> int
  {
    (t: Txn) => if t.merchant == merchant then LinesNet(t.lines, pick) else 0
  }

  /** Debit minus credit over the picked lines of a merchant. */
  function Net(txns: seq<Txn>, merchant: string, pick: Entry -> bool): int
  {
    SumSeq(txns, TxnNet(merchant, pick))
  }

  function Everything(): Entry -> bool
  {
    (e: Entry) => true
  }

  function OnAccount(a: Account): Entry -> bool
  {
    (e: Entry) => e.account == a
  }

  function InCurrency(currency: string): Entry -> bool
  {
    (e: Entry) => e.currency == currency
  }

  function OnAccountIn(a: Account, currency: string): Entry -> bool
  {
    (e: Entry) => e.account == a && e.currency == currency
  }

  function Balance(txns: seq<Txn>, merchant: string, a: Account): int
  {
    Net(txns, merchant, OnAccount(a))
  }

  function BalanceByCurrency(txns: seq<Txn>, merchant: string, a: Account, currency: string): int
  {
    Net(txns, merchant, OnAccountIn(a, currency))
  }

  /** One figure per configured account, accounts without entries included. */
  method GetAllBalances(txns: seq<Txn>, merchant: string) returns (balances: map<Account, int>)
    ensures balances.Keys == set a | a in CONFIGURED
    ensures forall a :: a in balances ==> balances[a] == Balance(txns, merchant, a)
  {
    balances := map[];
    for i := 0 to |CONFIGURED|
      invariant balances.Keys == set a | a in CONFIGURED[..i]
      invariant forall a :: a in balances ==> balances[a] == Balance(txns, merchant, a)
    {
      balances := balances[CONFIGURED[i] := Balance(txns, merchant, CONFIGURED[i])];
    }
  }

  // What every posting keeps

  /** A posting that went through Post. */
  predicate WellPosted(t: Txn)
  {
    && Debits(t.lines) == Credits(t.lines)
    && (forall i :: 0 <= i < |t.lines| ==>
          t.lines[i].account in CONFIGURED && t.lines[i].debit >= 0 && t.lines[i].credit >= 0 && !BadSide(t.lines[i]))
  }

  predicate SourcesDistinct(txns: seq<Txn>)
  {
    forall i, j :: 0 <= i < j < |txns| ==> txns[i].source != txns[j].source
  }

  predicate LedgerOk(txns: seq<Txn>)
  {
    SourcesDistinct(txns) && forall i :: 0 <= i < |txns| ==> WellPosted(txns[i])
  }

  /** How many postings exist for a source. */
  function CountSource(txns: seq<Txn>, source: Source): int
  {
    SumSeq(txns, (t: Txn) => if t.source == source then 1 else 0)
  }

  lemma UsedAfterAppend(txns: seq<Txn>, t: Txn, source: Source)
    ensures SourceUsed(txns + [t], source) <==> SourceUsed(txns, source) || t.source == source
  {
    if SourceUsed(txns, source) {
      var i :| 0 <= i < |txns| && txns[i].source == source;
      assert (txns + [t])[i].source == source;
    }
    if t.source == source {
      assert (txns + [t])[|txns|].source == source;
    }
  }

  /** With distinct sources there is one posting for a used source and none for any other. */
  lemma {:induction false} CountIsOneIffUsed(txns: seq<Txn>, source: Source)
    requires SourcesDistinct(txns)
    ensures CountSource(txns, source) == if SourceUsed(txns, source) then 1 else 0
  {
    if |txns| > 0 {
      var init := txns[..|txns| - 1];
      CountIsOneIffUsed(init, source);
      assert SourceUsed(init, source) ==> SourceUsed(txns, source);
    }
  }

  lemma {:induction false} StampKeepsTotals(entries: seq<Entry>, currency: string)
    ensures Debits(Stamped(entries, currency)) == Debits(entries)
    ensures Credits(Stamped(entries, currency)) == Credits(entries)
  {
    if |entries| > 0 {
      var n := |entries| - 1;
      assert Stamped(entries, currency)[..n] == Stamped(entries[..n], currency);
      StampKeepsTotals(entries[..n], currency);
    }
  }

  lemma {:induction false} NetIsDebitsMinusCredits(lines: seq<Entry>)
    ensures LinesNet(lines, Everything()) == Debits(lines) - Credits(lines)
  {
    if |lines| > 0 {
      NetIsDebitsMinusCredits(lines[..|lines| - 1]);
    }
  }

  /** Posting keeps the ledger balanced, one-sided and unique per source. */
  lemma PostKeepsLedgerOk(txns: seq<Txn>, merchant: string, source: Source, entries: seq<Entry>)
    requires LedgerOk(txns)
    requires Post(txns, merchant, source, entries).Posted?
    ensures LedgerOk(Post(txns, merchant, source, entries).txns)
  {
    StampKeepsTotals(entries, PostingCurrency(entries));
  }

  lemma {:induction false} MerchantTotalIsZero(txns: seq<Txn>, merchant: string)
    requires forall i :: 0 <= i < |txns| ==> WellPosted(txns[i])
    ensures Net(txns, merchant, Everything()) == 0
  {
    if |txns| > 0 {
      MerchantTotalIsZero(txns[..|txns| - 1], merchant);
      NetIsDebitsMinusCredits(txns[|txns| - 1].lines);
    }
  }

  function AccountNets(lines: seq<Entry>): Account -> int
  {
    (a: Account) => LinesNet(lines, OnAccount(a))
  }

  function Balances(txns: seq<Txn>, merchant: string): Account -> int
  {
    (a: Account) => Balance(txns, merchant, a)
  }

  function Share(e: Entry): Account -> int
  {
    (a: Account) => if e.account == a then e.debit - e.credit else 0
  }

  lemma {:induction false} ShareSum(codes: seq<Account>, e: Entry)
    requires Distinct(codes)
    ensures SumSeq(codes, Share(e)) == if e.account in codes then e.debit - e.credit else 0
  {
    if |codes| > 0 {
      var init := codes[..|codes| - 1];
      ShareSum(init, e);
      assert codes == init + [codes[|codes| - 1]];
    }
  }

  lemma {:induction false} AccountNetsSum(codes: seq<Account>, lines: seq<Entry>)
    requires Distinct(codes)
    requires forall i :: 0 <= i < |lines| ==> lines[i].account in codes
    ensures SumSeq(codes, AccountNets(lines)) == LinesNet(lines, Everything())
  {
    if |lines| == 0 {
      SumZero(codes, AccountNets(lines));
    } else {
      var init, last := lines[..|lines| - 1], lines[|lines| - 1];
      AccountNetsSum(codes, init);
      ShareSum(codes, last);
      SumOfSums(codes, AccountNets(init), Share(last), AccountNets(lines));
    }
  }

  lemma {:induction false} BalancesSum(codes: seq<Account>, txns: seq<Txn>, merchant: string)
    requires Distinct(codes)
    requires forall i, j :: 0 <= i < |txns| && 0 <= j < |txns[i].lines| ==> txns[i].lines[j].account in codes
    ensures SumSeq(codes, Balances(txns, merchant)) == Net(txns, merchant, Everything())
  {
    if |txns| == 0 {
      SumZero(codes, Balances(txns, merchant));
    } else {
      var init, last := txns[..|txns| - 1], txns[|txns| - 1];
      BalancesSum(codes, init, merchant);
      if last.merchant == merchant {
        AccountNetsSum(codes, last.lines);
        SumOfSums(codes, Balances(init, merchant), AccountNets(last.lines), Balances(txns, merchant));
      } else {
        SumCongruent(codes, Balances(init, merchant), Balances(txns, merchant));
      }
    }
  }

  /** What GetAllBalances reports for a merchant always adds up to zero. */
  lemma AllBalancesSumToZero(txns: seq<Txn>, merchant: string)
    requires LedgerOk(txns)
    ensures SumSeq(CONFIGURED, Balances(txns, merchant)) == 0
  {
    forall i, j | 0 <= i < |txns| && 0 <= j < |txns[i].lines| ensures txns[i].lines[j].account in CONFIGURED {
      assert WellPosted(txns[i]);
    }
    BalancesSum(CONFIGURED, txns, merchant);
    MerchantTotalIsZero(txns, merchant);
  }

  // Per currency

  /** No two entries name different currencies; entries may leave theirs empty. */
  predicate NamesOneCurrency(entries: seq<Entry>)
  {
    forall i, j :: 0 <= i < |entries| && 0 <= j < |entries| && entries[i].currency != "" && entries[j].currency != "" ==>
      entries[i].currency == entries[j].currency
  }

  predicate SingleCurrency(t: Txn)
  {
    forall i :: 0 <= i < |t.lines| ==> t.lines[i].currency == t.currency
  }

  lemma {:induction false} PostingCurrencyIsNamed(entries: seq<Entry>)
    requires NamesOneCurrency(entries)
    ensures forall i :: 0 <= i < |entries| && entries[i].currency != "" ==> entries[i].currency == PostingCurrency(entries)
  {
    if |entries| > 0 {
      PostingCurrencyIsNamed(entries[..|entries| - 1]);
    }
  }

  /** A posting that names at most one currency is stored entirely in that currency. */
  lemma OneCurrencyIsStored(merchant: string, source: Source, entries: seq<Entry>)
    requires NamesOneCurrency(entries)
    ensures SingleCurrency(MakeTxn(merchant, source, entries))
  {
    PostingCurrencyIsNamed(entries);
  }

  lemma {:induction false} LinesNetInCurrency(lines: seq<Entry>, stored: string, currency: string)
    requires forall i :: 0 <= i < |lines| ==> lines[i].currency == stored
    ensures LinesNet(lines, InCurrency(currency)) == if stored == currency then LinesNet(lines, Everything()) else 0
  {
    if |lines| > 0 {
      LinesNetInCurrency(lines[..|lines| - 1], stored, currency);
    }
  }

  /** The lines of a posting cancel in each currency; whoever posts can tell from the entries. */
  ghost predicate CancelsPerCurrency(lines: seq<Entry>)
  {
    forall currency :: LinesNet(lines, InCurrency(currency)) == 0
  }

  lemma SingleCurrencyCancels(t: Txn)
    requires WellPosted(t) && SingleCurrency(t)
    ensures CancelsPerCurrency(t.lines)
  {
    NetIsDebitsMinusCredits(t.lines);
    forall currency ensures LinesNet(t.lines, InCurrency(currency)) == 0 {
      LinesNetInCurrency(t.lines, t.currency, currency);
    }
  }

  /** Every merchant nets to zero in every currency. */
  ghost predicate CurrenciesBalance(txns: seq<Txn>)
  {
    forall merchant, currency :: Net(txns, merchant, InCurrency(currency)) == 0
  }

  /** One more posting keeps the currencies balanced exactly when its own lines cancel in each. */
  lemma PostingBalancesIff(txns: seq<Txn>, t: Txn)
    requires CurrenciesBalance(txns)
    ensures CurrenciesBalance(txns + [t]) <==> CancelsPerCurrency(t.lines)
  {
    forall merchant, currency
      ensures Net(txns + [t], merchant, InCurrency(currency))
              == if t.merchant == merchant then LinesNet(t.lines, InCurrency(currency)) else 0
    {
      assert Net(txns, merchant, InCurrency(currency)) == 0;
      SumAppend(txns, t, TxnNet(merchant, InCurrency(currency)));
    }
    if CurrenciesBalance(txns + [t]) {
      forall currency ensures LinesNet(t.lines, InCurrency(currency)) == 0 {
        assert Net(txns + [t], t.merchant, InCurrency(currency)) == 0;
      }
    }
  }

  /** A ledger is balanced in every currency after each of its postings exactly when the
      lines of each posting cancel in every currency. */
  lemma {:induction false} CurrenciesBalanceIff(txns: seq<Txn>)
    ensures (forall n :: 0 <= n <= |txns| ==> CurrenciesBalance(txns[..n]))
            <==> forall i :: 0 <= i < |txns| ==> CancelsPerCurrency(txns[i].lines)
  {
    if |txns| == 0 {
      assert CurrenciesBalance([]);
    } else {
      var init := txns[..|txns| - 1];
      CurrenciesBalanceIff(init);
      assert forall n :: 0 <= n <= |init| ==> init[..n] == txns[..n];
      assert txns == init + [txns[|init|]] && txns[..|txns|] == txns && txns[..|init|] == init;
      if CurrenciesBalance(init) {
        PostingBalancesIff(init, txns[|init|]);
      }
    }
  }

  /** In particular when every posting is in one currency. */
  lemma CurrencyTotalIsZero(txns: seq<Txn>, merchant: string, currency: string)
    requires forall i :: 0 <= i < |txns| ==> WellPosted(txns[i]) && SingleCurrency(txns[i])
    ensures Net(txns, merchant, InCurrency(currency)) == 0
  {
    forall i | 0 <= i < |txns| ensures CancelsPerCurrency(txns[i].lines) {
      SingleCurrencyCancels(txns[i]);
    }
    CurrenciesBalanceIff(txns);
    assert txns[..|txns|] == txns;
  }

  /** A posting that mixes currencies is accepted and leaves a merchant unbalanced in both. */
  lemma MixedCurrenciesUnbalance(merchant: string)
    ensures var entries := [Entry(MerchantPayable, 100, 0, "INR"), Entry(RefundClearing, 0, 100, "USD")];
            var r := Post([], merchant, Source("manual", "1"), entries);
            r.Posted? && Net(r.txns, merchant, InCurrency("INR")) == 100 && Net(r.txns, merchant, InCurrency("USD")) == -100
  {
    var debit, credit := Entry(MerchantPayable, 100, 0, "INR"), Entry(RefundClearing, 0, 100, "USD");
    assert "INR"[0] == 'I' && "USD"[0] == 'U';
    SumPair(debit, credit, (e: Entry) => e.debit);
    SumPair(debit, credit, (e: Entry) => e.credit);
    SumPair(debit, credit, NetOf(InCurrency("INR")));
    SumPair(debit, credit, NetOf(InCurrency("USD")));
    var t := MakeTxn(merchant, Source("manual", "1"), [debit, credit]);
    assert t.lines == [debit, credit];
    assert [] + [t] == [t];
    SumPair(t, t, TxnNet(merchant, InCurrency("INR")));
    SumPair(t, t, TxnNet(merchant, InCurrency("USD")));
  }
}
