/**
 * The generator: how one transaction is built from the random draws and the
 * clock, how a fixed count is split across workers, how the lookup indices
 * are built from the loaded tables, and the sequence counter the workers share.
 */
module Generator {
  import opened Common
  import opened Text
  import opened Models

  // ---------------------------------------------------------------------
  // The menus NewProducer sets up

  const VendorCodes: seq<string> :=
    ["PRAGMATIC", "EVOLUTION", "NETENT", "MICROGAMING", "PLAYTECH", "EGT", "PLAYSON"]

  /** Base bets 10, 50, 100, 200, 500 and 1000, in millionths. */
  const BaseBets: seq<int> :=
    [10_000_000, 50_000_000, 100_000_000, 200_000_000, 500_000_000, 1_000_000_000]

  /** Win multipliers 0, 0, 0.5, 0.8, 1, 1.5, 2, 3, 5 and 10, in tenths. */
  const WinMultipliers: seq<int> := [0, 0, 5, 8, 10, 15, 20, 30, 50, 100]

  /** Consecutive sequence numbers that share a round id. */
  const RoundSize: nat := 10
  /** Vendor ids are drawn from 1..VendorIdCount. */
  const VendorIdCount: nat := 10
  /** Width of the zero-padded sequence number in every id. */
  const IdWidth: nat := 8

  // ---------------------------------------------------------------------
  // Money, in millionths

  /** The bet for base bet i in the currency with the given code. */
  function ScaleBet(i: nat, code: string): int
    requires i < |BaseBets|
  {
    var base := BaseBets[i];
    if code == "BTC" then base / 10000
    else if code == "ETH" then base / 1000
    else if code == "JPY" then base * 100
    else if code == "CNY" then base * 7
    else base
  }

  /**
   * Only the currency code decides the scaling: BTC bets are the base / 10^4,
   * ETH bets the base / 10^3, JPY the base × 100, CNY the base × 7, and any
   * other currency the base itself. The divisions are exact, and every bet is
   * positive and a whole number of thousandths.
   */
  lemma ScaleBetByCurrency(i: nat, code: string)
    requires i < |BaseBets|
    ensures code == "BTC" ==> ScaleBet(i, code) * 10000 == BaseBets[i]
    ensures code == "ETH" ==> ScaleBet(i, code) * 1000 == BaseBets[i]
    ensures code == "JPY" ==> ScaleBet(i, code) == BaseBets[i] * 100
    ensures code == "CNY" ==> ScaleBet(i, code) == BaseBets[i] * 7
    ensures code != "BTC" && code != "ETH" && code != "JPY" && code != "CNY" ==> ScaleBet(i, code) == BaseBets[i]
    ensures ScaleBet(i, code) > 0 && ScaleBet(i, code) % 1000 == 0
  {
  }

  /** bet × (tenths / 10), computed as (bet / 10) × tenths. */
  function WinAmount(bet: int, tenths: int): int
  {
    (bet / 10) * tenths
  }

  /** For a bet that is a whole number of ten-millionths the win is exactly bet × tenths / 10. */
  lemma WinAmountExact(bet: int, tenths: int)
    requires bet % 10 == 0
    ensures WinAmount(bet, tenths) * 10 == bet * tenths
  {
    var q := bet / 10;
    assert bet == q * 10;
  }

  // ---------------------------------------------------------------------
  // One transaction

  /**
   * What rng and the clock supplied for one record: an index into each table
   * or menu (rng.Intn), the master-agent key picked from the index, and the
   * date ("20060102") and RFC 3339 timestamp read from time.Now.
   */
  datatype Draw = Draw(
    currency: nat,
    category: nat,
    masterAgentId: int,
    agent: nat,
    vendor: nat,
    vendorOffset: nat,
    bet: nat,
    multiplier: nat,
    date: string,
    settledAt: string)

  /**
   * Every index is one rng.Intn(n) can return. Intn panics when n is 0, so
   * a draw fits only when the tables it indexes are non-empty.
   */
  predicate DrawFits(rd: ReferenceData, d: Draw)
  {
    && d.currency < |rd.currencies|
    && d.category < |rd.gameCategories|
    && d.masterAgentId in rd.agentsByMasterId
    && d.agent < |rd.agentsByMasterId[d.masterAgentId]|
    && d.vendor < |VendorCodes|
    && d.vendorOffset < VendorIdCount
    && d.bet < |BaseBets|
    && d.multiplier < |WinMultipliers|
  }

  function TxnId(date: string, n: nat): string { "TXN-" + date + "-" + Pad(n, IdWidth) }

  function ExternalId(vendorCode: string, n: nat): string { "EXT-" + vendorCode + "-" + Pad(n, IdWidth) }

  function BetId(n: nat): string { "BET-" + Pad(n, IdWidth) }

  function RoundId(n: nat): string { "ROUND-" + Pad(n / RoundSize, IdWidth) }

  function BetOf(rd: ReferenceData, d: Draw): int
    requires DrawFits(rd, d)
  {
    ScaleBet(d.bet, rd.currencies[d.currency].code)
  }

  function WinOf(rd: ReferenceData, d: Draw): int
    requires DrawFits(rd, d)
  {
    WinAmount(BetOf(rd, d), WinMultipliers[d.multiplier])
  }

  function WinLossOf(rd: ReferenceData, d: Draw): int
    requires DrawFits(rd, d)
  {
    WinOf(rd, d) - BetOf(rd, d)
  }

  /** generateTransaction for sequence number n. */
  function NewTransaction(rd: ReferenceData, n: nat, d: Draw): Transaction
    requires DrawFits(rd, d)
  {
    var currency := rd.currencies[d.currency];
    var agent := rd.agentsByMasterId[d.masterAgentId][d.agent];
    var vendorCode := VendorCodes[d.vendor];
    var bet := BetOf(rd, d);
    var win := WinOf(rd, d);
    var winLoss := WinLossOf(rd, d);
    Transaction(
      TxnId(d.date, n),
      ExternalId(vendorCode, n),
      BetId(n),
      RoundId(n),
      d.vendorOffset + 1,
      vendorCode,
      1,
      rd.gameCategories[d.category].id,
      1,
      agent.masterAgentId,
      agent.id,
      currency.id,
      currency.code,
      Fixed6(bet),
      Fixed6(win),
      Fixed6(winLoss),
      d.settledAt)
  }

  /** The fixed and bounded fields, and the fields copied from the drawn table rows. */
  lemma FixedAndBoundedFields(rd: ReferenceData, n: nat, d: Draw)
    requires DrawFits(rd, d)
    ensures var t := NewTransaction(rd, n, d);
      && t.vendorLineId == 1 && t.houseId == 1
      && 1 <= t.vendorId <= VendorIdCount
      && t.vendorCode in VendorCodes
      && t.currencyId == rd.currencies[d.currency].id
      && t.currencyCode == rd.currencies[d.currency].code
      && t.gameCategoryId == rd.gameCategories[d.category].id
      && t.agentId == rd.agentsByMasterId[d.masterAgentId][d.agent].id
      && t.masterAgentId == rd.agentsByMasterId[d.masterAgentId][d.agent].masterAgentId
      && t.settledAt == d.settledAt
  {
  }

  /**
   * The three money strings carry exact six-decimal values: the bet is the
   * scaled base bet, win = bet × multiplier, and win_loss = win − bet.
   */
  lemma MoneyIsExact(rd: ReferenceData, n: nat, d: Draw)
    requires DrawFits(rd, d)
    ensures var t := NewTransaction(rd, n, d);
      && ParseFixed6(t.betAmount) == Some(BetOf(rd, d))
      && ParseFixed6(t.winAmount) == Some(WinOf(rd, d))
      && ParseFixed6(t.winLoss) == Some(WinLossOf(rd, d))
  {
    Fixed6RoundTrip(BetOf(rd, d));
    Fixed6RoundTrip(WinOf(rd, d));
    Fixed6RoundTrip(WinLossOf(rd, d));
  }

  /** The bet is positive and the win is exactly bet × multiplier. */
  lemma AmountsAreExact(rd: ReferenceData, d: Draw)
    requires DrawFits(rd, d)
    ensures BetOf(rd, d) > 0
    ensures WinOf(rd, d) * 10 == BetOf(rd, d) * WinMultipliers[d.multiplier]
  {
    ScaleBetByCurrency(d.bet, rd.currencies[d.currency].code);
    WinAmountExact(BetOf(rd, d), WinMultipliers[d.multiplier]);
  }

  /** win_loss read from the record is exactly win_amount − bet_amount read from it. */
  lemma WinLossIsWinMinusBet(rd: ReferenceData, n: nat, d: Draw)
    requires DrawFits(rd, d)
    ensures var t := NewTransaction(rd, n, d);
      && ParseFixed6(t.winLoss).Some? && ParseFixed6(t.winAmount).Some? && ParseFixed6(t.betAmount).Some?
      && ParseFixed6(t.winLoss).value == ParseFixed6(t.winAmount).value - ParseFixed6(t.betAmount).value
  {
    MoneyIsExact(rd, n, d);
  }

  lemma WinLossSign(bet: int, tenths: int)
    requires bet > 0 && bet % 10 == 0
    ensures WinAmount(bet, tenths) - bet < 0 <==> tenths < 10
    ensures WinAmount(bet, tenths) - bet == 0 <==> tenths == 10
  {
    WinAmountExact(bet, tenths);
    var w := WinAmount(bet, tenths);
    assert (w - bet) * 10 == bet * (tenths - 10);
    if tenths < 10 {
      assert bet * (tenths - 10) < 0;
    } else if tenths > 10 {
      assert bet * (tenths - 10) > 0;
    }
  }

  /** A draw's win_loss is negative exactly when its multiplier is below 1, and zero exactly at 1. */
  lemma DrawLosesIffMultiplierBelowOne(rd: ReferenceData, d: Draw)
    requires DrawFits(rd, d)
    ensures WinLossOf(rd, d) < 0 <==> WinMultipliers[d.multiplier] < 10
    ensures WinLossOf(rd, d) == 0 <==> WinMultipliers[d.multiplier] == 10
  {
    ScaleBetByCurrency(d.bet, rd.currencies[d.currency].code);
    WinLossSign(BetOf(rd, d), WinMultipliers[d.multiplier]);
  }

  /** A record's win_loss reads as negative exactly when its multiplier is below 1, and as zero exactly at 1. */
  lemma RecordLosesIffMultiplierBelowOne(rd: ReferenceData, n: nat, d: Draw)
    requires DrawFits(rd, d)
    ensures var t := NewTransaction(rd, n, d);
      && ParseFixed6(t.winLoss).Some?
      && (ParseFixed6(t.winLoss).value < 0 <==> WinMultipliers[d.multiplier] < 10)
      && (ParseFixed6(t.winLoss).value == 0 <==> WinMultipliers[d.multiplier] == 10)
  {
    MoneyIsExact(rd, n, d);
    DrawLosesIffMultiplierBelowOne(rd, d);
  }

  /**
   * Of the ten equally likely multipliers four lose, one breaks even and five
   * win, so losing outcomes are not the majority.
   */
  lemma MultiplierOutcomes()
    ensures forall i :: 0 <= i < 4 ==> WinMultipliers[i] < 10
    ensures WinMultipliers[4] == 10
    ensures forall i :: 5 <= i < |WinMultipliers| ==> WinMultipliers[i] > 10
  {
  }

  lemma PrefixCancel(p: string, x: string, y: string)
    requires p + x == p + y
    ensures x == y
  {
    assert x == (p + x)[|p|..];
    assert y == (p + y)[|p|..];
  }

  /** Vendor bet ids, and transaction ids of one date, are equal only for equal sequence numbers. */
  lemma IdsAreDistinct(date: string, s1: nat, s2: nat)
    ensures BetId(s1) == BetId(s2) <==> s1 == s2
    ensures TxnId(date, s1) == TxnId(date, s2) <==> s1 == s2
  {
    PadInjective(s1, s2, IdWidth);
    if BetId(s1) == BetId(s2) {
      PrefixCancel("BET-", Pad(s1, IdWidth), Pad(s2, IdWidth));
    }
    if TxnId(date, s1) == TxnId(date, s2) {
      PrefixCancel("TXN-" + date + "-", Pad(s1, IdWidth), Pad(s2, IdWidth));
    }
  }

  /** Two records share a round id exactly when their sequence numbers agree after division by 10. */
  lemma RoundIdGroupsByTen(s1: nat, s2: nat)
    ensures RoundId(s1) == RoundId(s2) <==> s1 / RoundSize == s2 / RoundSize
  {
    PadInjective(s1 / RoundSize, s2 / RoundSize, IdWidth);
    if RoundId(s1) == RoundId(s2) {
      PrefixCancel("ROUND-", Pad(s1 / RoundSize, IdWidth), Pad(s2 / RoundSize, IdWidth));
    }
  }

  // ---------------------------------------------------------------------
  // Lookup indices built by LoadReferenceData

  function CurrencyKey(c: Currency): int { c.id }

  function RateSource(r: CurrencyRate): int { r.currencyFromId }

  function AgentMaster(a: Agent): int { a.masterAgentId }

  /** Each key mapped to the element carrying it, later elements overwriting earlier ones. */
  function LastByKey<T>(xs: seq<T>, key: T -> int): map<int, T>
  {
    if xs == [] then map[]
    else LastByKey(xs[..|xs| - 1], key)[key(xs[|xs| - 1]) := xs[|xs| - 1]]
  }

  /** Each key mapped to the elements carrying it, appended in input order. */
  function GroupByKey<T>(xs: seq<T>, key: T -> int): map<int, seq<T>>
  {
    if xs == [] then map[]
    else
      var m := GroupByKey(xs[..|xs| - 1], key);
      var x := xs[|xs| - 1];
      m[key(x) := (if key(x) in m then m[key(x)] else []) + [x]]
  }

  /** The elements of xs whose key is k, in input order. */
  function WithKey<T>(xs: seq<T>, key: T -> int, k: int): seq<T>
  {
    if xs == [] then []
    else WithKey(xs[..|xs| - 1], key, k) + (if key(xs[|xs| - 1]) == k then [xs[|xs| - 1]] else [])
  }

  /**
   * The last-wins index: its keys are the keys that occur, each key maps to an
   * element carrying that key, and an element no later element shares its key
   * with is the one its key maps to.
   */
  lemma {:induction false} LastByKeyIsLastOccurrence<T>(xs: seq<T>, key: T -> int)
    ensures LastByKey(xs, key).Keys == set x | x in xs :: key(x)
    ensures forall k :: k in LastByKey(xs, key) ==> LastByKey(xs, key)[k] in xs && key(LastByKey(xs, key)[k]) == k
    ensures forall i :: 0 <= i < |xs| && (forall j :: i < j < |xs| ==> key(xs[j]) != key(xs[i])) ==>
      LastByKey(xs, key)[key(xs[i])] == xs[i]
  {
    if xs != [] {
      var init := xs[..|xs| - 1];
      LastByKeyIsLastOccurrence(init, key);
      assert xs == init + [xs[|xs| - 1]];
      forall i | 0 <= i < |xs| - 1 && (forall j :: i < j < |xs| ==> key(xs[j]) != key(xs[i]))
        ensures LastByKey(xs, key)[key(xs[i])] == xs[i]
      {
        assert init[i] == xs[i];
        assert forall j :: i < j < |init| ==> key(init[j]) != key(init[i]);
      }
    }
  }

  lemma {:induction false} WithKeyFacts<T>(xs: seq<T>, key: T -> int, k: int)
    ensures forall y :: y in WithKey(xs, key, k) ==> y in xs && key(y) == k
    ensures forall x :: x in xs && key(x) == k ==> x in WithKey(xs, key, k)
    ensures WithKey(xs, key, k) != [] ==> k in set x | x in xs :: key(x)
  {
    if xs != [] {
      var init := xs[..|xs| - 1];
      WithKeyFacts(init, key, k);
      assert xs == init + [xs[|xs| - 1]];
    }
  }

  /**
   * The grouped index: its keys are the keys that occur, and each key maps to
   * the non-empty list of elements carrying it, in input order.
   */
  lemma {:induction false} GroupByKeyIsFilter<T>(xs: seq<T>, key: T -> int)
    ensures GroupByKey(xs, key).Keys == set x | x in xs :: key(x)
    ensures forall k :: k in GroupByKey(xs, key) ==>
      GroupByKey(xs, key)[k] == WithKey(xs, key, k) && GroupByKey(xs, key)[k] != []
  {
    if xs != [] {
      var init := xs[..|xs| - 1];
      GroupByKeyIsFilter(init, key);
      assert xs == init + [xs[|xs| - 1]];
      var x := xs[|xs| - 1];
      var m0 := GroupByKey(init, key);
      var m := GroupByKey(xs, key);
      assert m == m0[key(x) := (if key(x) in m0 then m0[key(x)] else []) + [x]];
      forall k | k in m
        ensures m[k] == WithKey(xs, key, k) && m[k] != []
      {
        assert WithKey(xs, key, k) == WithKey(init, key, k) + (if key(x) == k then [x] else []);
        WithKeyFacts(init, key, k);
      }
    }
  }

  /** Every element sits in the group of its own key and in no other group. */
  lemma ElementInOwnGroupOnly<T>(xs: seq<T>, key: T -> int, x: T, k: int)
    requires x in xs
    ensures key(x) in GroupByKey(xs, key) && x in GroupByKey(xs, key)[key(x)]
    ensures k in GroupByKey(xs, key) && x in GroupByKey(xs, key)[k] ==> k == key(x)
  {
    GroupByKeyIsFilter(xs, key);
    WithKeyFacts(xs, key, key(x));
    WithKeyFacts(xs, key, k);
  }

  /** The indices are exactly the ones LoadReferenceData builds from the tables. */
  predicate Indexed(rd: ReferenceData)
  {
    && rd.currencyById == LastByKey(rd.currencies, CurrencyKey)
    && rd.currencyRatesById == GroupByKey(rd.currencyRates, RateSource)
    && rd.agentsByMasterId == GroupByKey(rd.agents, AgentMaster)
  }

  /**
   * LoadReferenceData once the four tables are parsed: keeps the tables and
   * fills the three indices with one loop each.
   */
  method LoadReferenceData(
    currencies: seq<Currency>, rates: seq<CurrencyRate>, agents: seq<Agent>, categories: seq<GameCategory>)
    returns (rd: ReferenceData)
    ensures rd.currencies == currencies && rd.currencyRates == rates
    ensures rd.agents == agents && rd.gameCategories == categories
    ensures Indexed(rd)
  {
    var byId: map<int, Currency> := map[];
    for i := 0 to |currencies|
      invariant byId == LastByKey(currencies[..i], CurrencyKey)
    {
      assert currencies[..i + 1][..i] == currencies[..i];
      byId := byId[currencies[i].id := currencies[i]];
    }
    assert currencies[..|currencies|] == currencies;

    var ratesById: map<int, seq<CurrencyRate>> := map[];
    for i := 0 to |rates|
      invariant ratesById == GroupByKey(rates[..i], RateSource)
    {
      assert rates[..i + 1][..i] == rates[..i];
      var k := rates[i].currencyFromId;
      ratesById := ratesById[k := (if k in ratesById then ratesById[k] else []) + [rates[i]]];
    }
    assert rates[..|rates|] == rates;

    var byMaster: map<int, seq<Agent>> := map[];
    for i := 0 to |agents|
      invariant byMaster == GroupByKey(agents[..i], AgentMaster)
    {
      assert agents[..i + 1][..i] == agents[..i];
      var k := agents[i].masterAgentId;
      byMaster := byMaster[k := (if k in byMaster then byMaster[k] else []) + [agents[i]]];
    }
    assert agents[..|agents|] == agents;

    rd := ReferenceData(rates, agents, categories, currencies, byId, ratesById, byMaster);
  }

  /**
   * On indexed reference data the record's agent is an agent of the table
   * whose master agent is the drawn master agent, and the record's
   * MasterAgentID is that master agent.
   */
  lemma AgentMatchesMaster(rd: ReferenceData, n: nat, d: Draw)
    requires Indexed(rd) && DrawFits(rd, d)
    ensures var t := NewTransaction(rd, n, d);
      && t.masterAgentId == d.masterAgentId
      && exists a :: a in rd.agents && a.id == t.agentId && a.masterAgentId == t.masterAgentId
  {
    var group := rd.agentsByMasterId[d.masterAgentId];
    var a := group[d.agent];
    GroupByKeyIsFilter(rd.agents, AgentMaster);
    WithKeyFacts(rd.agents, AgentMaster, d.masterAgentId);
    assert a in group;
  }

  // ---------------------------------------------------------------------
  // Splitting a fixed count across workers

  /** Generate's [start, end) for worker i: q = count / workers each, the last worker up to count. */
  function WorkerRange(count: nat, workers: nat, i: nat): (nat, nat)
    requires 1 <= workers && i < workers
  {
    var q := count / workers;
    (i * q, if i == workers - 1 then count else i * q + q)
  }

  lemma MulMonotone(a: nat, b: nat, c: nat)
    requires a <= b
    ensures a * c <= b * c
  {
  }

  /** Worker ranges start at 0, end at count, are ordered, and each starts where the previous ends. */
  lemma WorkerRangesTile(count: nat, workers: nat, i: nat)
    requires 1 <= workers && i < workers
    ensures WorkerRange(count, workers, i).0 <= WorkerRange(count, workers, i).1 <= count
    ensures i == 0 ==> WorkerRange(count, workers, i).0 == 0
    ensures i == workers - 1 ==> WorkerRange(count, workers, i).1 == count
    ensures i + 1 < workers ==> WorkerRange(count, workers, i).1 == WorkerRange(count, workers, i + 1).0
  {
    var q := count / workers;
    MulMonotone(i + 1, workers, q);
    assert workers * q <= count;
    assert (i + 1) * q == i * q + q;
  }

  /** j / q == i whenever j lies in [i·q, i·q + q). */
  lemma DivInBlock(j: nat, q: nat, i: nat)
    requires q > 0 && i * q <= j < i * q + q
    ensures j / q == i
  {
    var d := j / q;
    assert j == d * q + j % q;
    if d < i {
      MulMonotone(d + 1, i, q);
      assert false;
    }
    if d > i {
      MulMonotone(i + 1, d, q);
      assert false;
    }
  }

  /** The worker whose range holds index j. */
  function Owner(count: nat, workers: nat, j: nat): nat
    requires 1 <= workers
  {
    var q := count / workers;
    if q == 0 then workers - 1 else Min(j / q, workers - 1)
  }

  lemma DivBounds(j: nat, q: nat)
    requires q > 0
    ensures (j / q) * q <= j < (j / q) * q + q
  {
  }

  /** The owner's range holds j. */
  lemma OwnerRangeHolds(count: nat, workers: nat, j: nat)
    requires 1 <= workers && j < count
    ensures Owner(count, workers, j) < workers
    ensures WorkerRange(count, workers, Owner(count, workers, j)).0 <= j < WorkerRange(count, workers, Owner(count, workers, j)).1
  {
    var q := count / workers;
    if q == 0 {
      assert WorkerRange(count, workers, workers - 1) == (0, count);
    } else {
      var d := j / q;
      DivBounds(j, q);
      if d < workers - 1 {
        assert Owner(count, workers, j) == d;
        assert WorkerRange(count, workers, d) == (d * q, d * q + q);
      } else {
        assert Owner(count, workers, j) == workers - 1;
        MulMonotone(workers - 1, d, q);
        assert WorkerRange(count, workers, workers - 1) == ((workers - 1) * q, count);
      }
    }
  }

  /** A range that holds j belongs to j's owner. */
  lemma OnlyOwnerRangeHolds(count: nat, workers: nat, j: nat, i: nat)
    requires 1 <= workers && i < workers
    requires WorkerRange(count, workers, i).0 <= j < WorkerRange(count, workers, i).1
    ensures i == Owner(count, workers, j)
  {
    var q := count / workers;
    if q > 0 {
      if i < workers - 1 {
        DivInBlock(j, q, i);
      } else {
        var d := j / q;
        assert j < d * q + q;
        if d < workers - 1 {
          MulMonotone(d + 1, workers - 1, q);
          assert false;
        }
      }
    }
  }

  /** Each index below count lies in the range of exactly one worker. */
  lemma ExactlyOneWorker(count: nat, workers: nat, j: nat)
    requires 1 <= workers && j < count
    ensures Owner(count, workers, j) < workers
    ensures forall i :: 0 <= i < workers ==>
      (WorkerRange(count, workers, i).0 <= j < WorkerRange(count, workers, i).1 <==> i == Owner(count, workers, j))
  {
    OwnerRangeHolds(count, workers, j);
    forall i | 0 <= i < workers && WorkerRange(count, workers, i).0 <= j < WorkerRange(count, workers, i).1
      ensures i == Owner(count, workers, j)
    {
      OnlyOwnerRangeHolds(count, workers, j, i);
    }
  }

  /** The summed lengths of the first n worker ranges. */
  function RangeLengths(count: nat, workers: nat, n: nat): int
    requires 1 <= workers && n <= workers
  {
    if n == 0 then 0
    else RangeLengths(count, workers, n - 1) + WorkerRange(count, workers, n - 1).1 - WorkerRange(count, workers, n - 1).0
  }

  /** The range lengths add up to count: no index is lost and none is produced twice. */
  lemma {:induction false} RangeLengthsSumToCount(count: nat, workers: nat, n: nat)
    requires 1 <= workers && n <= workers
    ensures RangeLengths(count, workers, n) == if n == 0 then 0 else WorkerRange(count, workers, n - 1).1
    ensures n == workers ==> RangeLengths(count, workers, n) == count
  {
    if n > 0 {
      RangeLengthsSumToCount(count, workers, n - 1);
      WorkerRangesTile(count, workers, n - 1);
      if n > 1 {
        WorkerRangesTile(count, workers, n - 2);
      }
    }
  }

  // ---------------------------------------------------------------------
  // The producer and its shared sequence counter

  class Producer {
    const refData: ReferenceData
    var sequence: nat

    /** NewProducer: the counter starts at zero. */
    constructor (refData: ReferenceData)
      ensures this.refData == refData && sequence == 0
    {
      this.refData := refData;
      sequence := 0;
    }

    /** generateTransaction: one increment of the counter, then the record for the new value. */
    method GenerateTransaction(d: Draw) returns (t: Transaction)
      requires DrawFits(refData, d)
      modifies this
      ensures sequence == old(sequence) + 1
      ensures t == NewTransaction(refData, sequence, d)
    {
      sequence := sequence + 1;
      t := NewTransaction(refData, sequence, d);
    }

    /**
     * One worker of Generate: indices start..end-1, each producing one record,
     * returning early once cancelAfter records are out (the context is done).
     * The records so far are the run over the first |out| draws.
     */
    method Work(start: nat, end: nat, draws: seq<Draw>, cancelAfter: nat, ghost base: nat, prior: seq<Transaction>)
      returns (out: seq<Transaction>)
      requires start <= end && |prior| == Min(start, cancelAfter) && Min(end, cancelAfter) <= |draws|
      requires AllFit(refData, draws)
      requires sequence == base + |prior| && Produced(refData, base, draws, prior)
      modifies this
      ensures |out| == Min(end, cancelAfter)
      ensures sequence == base + |out| && Produced(refData, base, draws, out)
    {
      out := prior;
      var j := start;
      while j < end
        invariant start <= j <= end
        invariant |out| == Min(j, cancelAfter)
        invariant sequence == base + |out|
        invariant Produced(refData, base, draws, out)
      {
        if |out| == cancelAfter {
          break;
        }
        var m := |out|;
        var t := GenerateTransaction(draws[m]);
        RunStep(refData, base, draws, m, sequence);
        out := out + [t];
        j := j + 1;
      }
    }

    /**
     * Generate, with the workers run one after another. Worker i covers
     * WorkerRange(count, workers, i); the context is cancelled once
     * cancelAfter records are out. The records are the run of the counter
     * over the first min(count, cancelAfter) draws.
     */
    method Generate(count: nat, workers: nat, draws: seq<Draw>, cancelAfter: nat) returns (out: seq<Transaction>)
      requires 1 <= workers
      requires Min(count, cancelAfter) <= |draws|
      requires AllFit(refData, draws)
      modifies this
      ensures |out| == Min(count, cancelAfter)
      ensures sequence == old(sequence) + |out|
      ensures out == Run(refData, old(sequence), draws[..|out|])
    {
      ghost var base := sequence;
      out := [];
      for i := 0 to workers
        invariant |out| == Min(if i == 0 then 0 else WorkerRange(count, workers, i - 1).1, cancelAfter)
        invariant sequence == base + |out|
        invariant Produced(refData, base, draws, out)
      {
        WorkerRangesTile(count, workers, i);
        if i > 0 {
          WorkerRangesTile(count, workers, i - 1);
        }
        var (start, end) := WorkerRange(count, workers, i);
        out := Work(start, end, draws, cancelAfter, base, out);
      }
      WorkerRangesTile(count, workers, workers - 1);
    }
  }

  predicate AllFit(rd: ReferenceData, ds: seq<Draw>)
  {
    forall k :: 0 <= k < |ds| ==> DrawFits(rd, ds[k])
  }

  /** The records the counter produces from base on: record k is built from draw k with number base + 1 + k. */
  function Run(rd: ReferenceData, base: nat, ds: seq<Draw>): seq<Transaction>
    requires AllFit(rd, ds)
  {
    seq(|ds|, k requires 0 <= k < |ds| && DrawFits(rd, ds[k]) => NewTransaction(rd, base + 1 + k, ds[k]))
  }

  /** out is the run of the counter from base over the first |out| draws. */
  predicate Produced(rd: ReferenceData, base: nat, ds: seq<Draw>, out: seq<Transaction>)
    requires AllFit(rd, ds)
  {
    |out| <= |ds| && out == Run(rd, base, ds[..|out|])
  }

  /** Extending the draws by one appends that draw's record, numbered one past the run so far. */
  lemma RunStep(rd: ReferenceData, base: nat, ds: seq<Draw>, m: nat, n: nat)
    requires AllFit(rd, ds) && m < |ds| && n == base + m + 1
    ensures AllFit(rd, ds[..m]) && AllFit(rd, ds[..m + 1])
    ensures Run(rd, base, ds[..m + 1]) == Run(rd, base, ds[..m]) + [NewTransaction(rd, n, ds[m])]
  {
    var longer, shorter := Run(rd, base, ds[..m + 1]), Run(rd, base, ds[..m]) + [NewTransaction(rd, n, ds[m])];
    forall k | 0 <= k <= m
      ensures longer[k] == shorter[k]
    {
      if k == m {
        assert longer[k] == NewTransaction(rd, n, ds[m]);
      }
    }
  }

  /** Record k of a run carries the vendor bet id of sequence number base + 1 + k. */
  lemma RunBetId(rd: ReferenceData, base: nat, ds: seq<Draw>, k: nat, n: nat)
    requires AllFit(rd, ds) && k < |ds| && n == base + 1 + k
    ensures Run(rd, base, ds)[k].vendorBetId == BetId(n)
  {
  }

  /** Records from one run of the counter carry pairwise distinct vendor bet ids. */
  lemma RunHasDistinctBetIds(rd: ReferenceData, base: nat, ds: seq<Draw>)
    requires AllFit(rd, ds)
    ensures forall k1, k2 :: 0 <= k1 < k2 < |Run(rd, base, ds)| ==>
      Run(rd, base, ds)[k1].vendorBetId != Run(rd, base, ds)[k2].vendorBetId
  {
    var r := Run(rd, base, ds);
    forall k1, k2 | 0 <= k1 < k2 < |r|
      ensures r[k1].vendorBetId != r[k2].vendorBetId
    {
      RunBetId(rd, base, ds, k1, base + 1 + k1);
      RunBetId(rd, base, ds, k2, base + 1 + k2);
      BetIdsDiffer(base + 1 + k1, base + 1 + k2);
    }
  }

  lemma BetIdsDiffer(s1: nat, s2: nat)
    requires s1 != s2
    ensures BetId(s1) != BetId(s2)
  {
    IdsAreDistinct("", s1, s2);
  }
}
