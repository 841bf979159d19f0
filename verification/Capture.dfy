/** The journal of a capture: fee, splits and residual. */
module CaptureJournal {
  import opened Common
  import opened Ledger

  /** The platform fee: two percent, rounded down. */
  function Fee(amount: int): int
  {
    GoDiv(amount * 2, 100)
  }

  lemma FeeIsTwoPercent(amount: int)
    requires amount >= 0
    ensures 100 * Fee(amount) <= 2 * amount < 100 * Fee(amount) + 100
  {
  }

  /** Splits fit in what the fee leaves exactly when they stay within 98 percent, rounded up. */
  lemma SplitsFitIff(amount: int, splits: seq<int>)
    requires amount >= 0
    ensures Residual(amount, splits) >= 0 <==> 100 * SplitTotal(splits) < 98 * amount + 100
  {
    FeeIsTwoPercent(amount);
  }

  function PositivePart(x: int): int
  {
    if x > 0 then x else 0
  }

  function SplitTotal(splits: seq<int>): int
  {
    SumSeq(splits, PositivePart)
  }

  /** One payable line per positive split. */
  function SplitEntries(splits: seq<int>): seq<Entry>
  {
    if |splits| == 0 then []
    else
      var last := splits[|splits| - 1];
      SplitEntries(splits[..|splits| - 1]) + (if last > 0 then [Entry(MerchantPayable, 0, last, "")] else [])
  }

  function Residual(amount: int, splits: seq<int>): int
  {
    amount - Fee(amount) - SplitTotal(splits)
  }

  function FixedEntries(amount: int): seq<Entry>
  {
    [Entry(CustomerReceivable, amount, 0, ""), Entry(PlatformFeeRevenue, 0, Fee(amount), "")]
  }

  function ResidualEntries(amount: int, splits: seq<int>): seq<Entry>
  {
    if Residual(amount, splits) > 0 then [Entry(MerchantPayable, 0, Residual(amount, splits), "")] else []
  }

  function Entries(amount: int, splits: seq<int>): seq<Entry>
  {
    FixedEntries(amount) + SplitEntries(splits) + ResidualEntries(amount, splits)
  }

  /** The capture loop: skips splits that are not positive, accumulates the rest. */
  method BuildEntries(amount: int, splits: seq<int>) returns (ok: bool, entries: seq<Entry>)
    ensures ok ==> entries == Entries(amount, splits)
    ensures |entries| >= 2 && entries[0] == Entry(CustomerReceivable, amount, 0, "")
    ensures entries[1] == Entry(PlatformFeeRevenue, 0, Fee(amount), "")
    ensures amount >= 0 ==> 100 * entries[1].credit <= 2 * amount < 100 * entries[1].credit + 100
    ensures ok <==> SplitTotal(splits) <= amount - entries[1].credit
  {
    var fee := GoDiv(amount * 2, 100);
    entries := [Entry(CustomerReceivable, amount, 0, ""), Entry(PlatformFeeRevenue, 0, fee, "")];
    var splitTotal := 0;
    for i := 0 to |splits|
      invariant splitTotal == SplitTotal(splits[..i])
      invariant entries == FixedEntries(amount) + SplitEntries(splits[..i])
    {
      assert splits[..i + 1][..i] == splits[..i];
      if splits[i] <= 0 {
        continue;
      }
      splitTotal := splitTotal + splits[i];
      entries := entries + [Entry(MerchantPayable, 0, splits[i], "")];
    }
    assert splits[..|splits|] == splits;
    var residual := amount - fee - splitTotal;
    if residual < 0 {
      return false, entries;
    }
    if residual > 0 {
      entries := entries + [Entry(MerchantPayable, 0, residual, "")];
    }
    ok := true;
  }

  // What the entries add up to

  lemma {:induction false} SplitEntriesTotals(splits: seq<int>)
    ensures Debits(SplitEntries(splits)) == 0
    ensures Credits(SplitEntries(splits)) == SplitTotal(splits)
    ensures SplitTotal(splits) >= 0
    ensures forall i :: 0 <= i < |SplitEntries(splits)| ==>
              var e := SplitEntries(splits)[i]; e.account == MerchantPayable && e.debit == 0 && e.credit > 0 && e.currency == ""
  {
    if |splits| > 0 {
      var init, last := splits[..|splits| - 1], splits[|splits| - 1];
      SplitEntriesTotals(init);
      if last > 0 {
        SumAppend(SplitEntries(init), Entry(MerchantPayable, 0, last, ""), (e: Entry) => e.debit);
        SumAppend(SplitEntries(init), Entry(MerchantPayable, 0, last, ""), (e: Entry) => e.credit);
      } else {
        assert SplitEntries(splits) == SplitEntries(init);
      }
    }
  }

  /** Fee, positive splits and residual partition the amount. */
  lemma EntriesTotals(amount: int, splits: seq<int>)
    requires Residual(amount, splits) >= 0
    ensures Debits(Entries(amount, splits)) == amount && Credits(Entries(amount, splits)) == amount
  {
    SplitEntriesTotals(splits);
    EntriesSum(amount, splits, (e: Entry) => e.debit);
    EntriesSum(amount, splits, (e: Entry) => e.credit);
  }

  lemma EntriesSum(amount: int, splits: seq<int>, w: Entry -> int)
    ensures SumSeq(Entries(amount, splits), w)
            == w(FixedEntries(amount)[0]) + w(FixedEntries(amount)[1]) + SumSeq(SplitEntries(splits), w)
               + (if Residual(amount, splits) > 0 then w(Entry(MerchantPayable, 0, Residual(amount, splits), "")) else 0)
  {
    var fixed, parts, rest := FixedEntries(amount), SplitEntries(splits), ResidualEntries(amount, splits);
    SumConcat(fixed + parts, rest, w);
    SumConcat(fixed, parts, w);
    SumPair(fixed[0], fixed[1], w);
    if Residual(amount, splits) > 0 {
      SumPair(rest[0], rest[0], w);
    }
  }

  lemma EntryShapes(amount: int, splits: seq<int>)
    requires amount > 0
    ensures forall i :: 0 <= i < |Entries(amount, splits)| ==>
              var e := Entries(amount, splits)[i];
              e.account in CONFIGURED && e.debit >= 0 && e.credit >= 0 && e.currency == "" && (i != 1 ==> !BadSide(e))
    ensures BadSide(Entries(amount, splits)[1]) <==> amount < 50
  {
    SplitEntriesTotals(splits);
  }

  /** A capture whose splits fit in what the fee leaves is postable exactly from 50 minor
      units up and while nothing has been posted for its source. */
  lemma PostableIff(txns: seq<Txn>, merchant: string, source: Source, amount: int, splits: seq<int>)
    requires amount > 0 && Residual(amount, splits) >= 0
    ensures Post(txns, merchant, source, Entries(amount, splits)).Posted? <==> amount >= 50 && !SourceUsed(txns, source)
  {
    EntriesTotals(amount, splits);
    EntryShapes(amount, splits);
    if amount < 50 {
      assert BadSide(Entries(amount, splits)[1]);
    }
  }

  // What it does to balances

  lemma {:induction false} StampKeepsNet(entries: seq<Entry>, currency: string, a: Account)
    ensures LinesNet(Stamped(entries, currency), OnAccount(a)) == LinesNet(entries, OnAccount(a))
  {
    if |entries| > 0 {
      var n := |entries| - 1;
      assert Stamped(entries, currency)[..n] == Stamped(entries[..n], currency);
      StampKeepsNet(entries[..n], currency, a);
    }
  }

  lemma {:induction false} SplitEntriesNet(splits: seq<int>, a: Account)
    ensures LinesNet(SplitEntries(splits), OnAccount(a)) == if a == MerchantPayable then -SplitTotal(splits) else 0
  {
    if |splits| > 0 {
      var init, last := splits[..|splits| - 1], splits[|splits| - 1];
      SplitEntriesNet(init, a);
      if last > 0 {
        SumAppend(SplitEntries(init), Entry(MerchantPayable, 0, last, ""), NetOf(OnAccount(a)));
      } else {
        assert SplitEntries(splits) == SplitEntries(init);
      }
    }
  }

  /** What one capture moves on an account. */
  function Movement(amount: int, a: Account): int
  {
    match a
    case CustomerReceivable => amount
    case PlatformFeeRevenue => -Fee(amount)
    case MerchantPayable => -(amount - Fee(amount))
    case _ => 0
  }

  lemma EntriesNet(merchant: string, source: Source, amount: int, splits: seq<int>, a: Account)
    requires Residual(amount, splits) >= 0
    ensures LinesNet(MakeTxn(merchant, source, Entries(amount, splits)).lines, OnAccount(a)) == Movement(amount, a)
  {
    StampKeepsNet(Entries(amount, splits), PostingCurrency(Entries(amount, splits)), a);
    EntriesSum(amount, splits, NetOf(OnAccount(a)));
    SplitEntriesNet(splits, a);
  }

  lemma {:induction false} NoNamedCurrency(entries: seq<Entry>)
    requires forall i :: 0 <= i < |entries| ==> entries[i].currency == ""
    ensures PostingCurrency(entries) == "INR"
  {
    if |entries| > 0 {
      NoNamedCurrency(entries[..|entries| - 1]);
    }
  }

  /** Capture entries name no currency, so every line is stored in INR whatever the payment's currency. */
  lemma StoredInINR(merchant: string, source: Source, amount: int, splits: seq<int>)
    requires amount > 0
    ensures var t := MakeTxn(merchant, source, Entries(amount, splits));
            t.currency == "INR" && forall i :: 0 <= i < |t.lines| ==> t.lines[i].currency == "INR"
  {
    EntryShapes(amount, splits);
    NoNamedCurrency(Entries(amount, splits));
  }
}
