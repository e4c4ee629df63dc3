/** The daily comparison of payments in the ledger with settlements at the gateway. */
module Reconciliation {
  import opened Options
  import opened Sums

  type Intent = nat

  datatype Payment = Payment(charge: nat, intent: Intent, amount: int)
  datatype Settlement = Settlement(id: nat, source: Option<Intent>, amount: int)

  datatype Kind = MissingStripe | AmountMismatch | MissingInternal
  datatype Discrepancy = Discrepancy(
    kind: Kind, charge: Option<nat>, settlement: Option<nat>, expected: int, actual: int, difference: int)

  ghost predicate Distinct(keys: seq<Intent>) {
    forall i, j :: 0 <= i < j < |keys| ==> keys[i] != keys[j]
  }

  lemma DistinctConcat(a: seq<Intent>, b: seq<Intent>)
    requires Distinct(a) && Distinct(b) && forall k :: k in b ==> k !in a
    ensures Distinct(a + b)
  {
    forall i, j | 0 <= i < j < |a + b| ensures (a + b)[i] != (a + b)[j] {
      if i < |a| <= j { assert b[j - |a|] !in a; }
    }
  }

  function Members(keys: seq<Intent>): set<Intent> { set k | k in keys }

  lemma DistinctInit(keys: seq<Intent>)
    requires Distinct(keys) && keys != []
    ensures Distinct(keys[..|keys| - 1]) && keys[|keys| - 1] !in keys[..|keys| - 1]
    ensures forall k :: k in keys <==> k in keys[..|keys| - 1] || k == keys[|keys| - 1]
  {
    assert keys == keys[..|keys| - 1] + [keys[|keys| - 1]];
  }

  /** A Map of the source: a key keeps the place of its first insertion and the value of its last. */
  datatype InsertionMap<V> = InsertionMap(order: seq<Intent>, values: map<Intent, V>) {
    ghost predicate Ordered() {
      (forall k :: k in order <==> k in values) && Distinct(order)
    }

    function Set(k: Intent, v: V): InsertionMap<V> {
      InsertionMap(if k in values then order else order + [k], values[k := v])
    }
  }

  lemma SetKeepsOrder<V>(m: InsertionMap<V>, k: Intent, v: V)
    requires m.Ordered()
    ensures m.Set(k, v).Ordered()
  {
  }

  function ByIntent(ps: seq<Payment>): InsertionMap<Payment> {
    if ps == [] then InsertionMap([], map[])
    else ByIntent(ps[..|ps| - 1]).Set(ps[|ps| - 1].intent, ps[|ps| - 1])
  }

  /** Settlements without a source are left out. */
  function BySource(ts: seq<Settlement>): InsertionMap<Settlement> {
    if ts == [] then InsertionMap([], map[])
    else
      var last := ts[|ts| - 1];
      if last.source.None? then BySource(ts[..|ts| - 1]) else BySource(ts[..|ts| - 1]).Set(last.source.value, last)
  }

  function PaymentAmount(p: Payment): int { p.amount }
  function SettlementAmount(t: Settlement): int { t.amount }
  function Difference(d: Discrepancy): int { d.difference }

  function Total<T>(s: seq<T>, amount: T -> int): int {
    if s == [] then 0 else Total(s[..|s| - 1], amount) + amount(s[|s| - 1])
  }

  // ---------------------------------------------------------------- the verdict on one payment intent

  /** What is wrong with an intent: nothing when both sides have it with one amount. */
  function Verdict(k: Intent, internal: map<Intent, Payment>, stripe: map<Intent, Settlement>): (r: Option<Discrepancy>)
    ensures r.None? <==> (k !in internal && k !in stripe)
                         || (k in internal && k in stripe && internal[k].amount == stripe[k].amount)
    ensures r.Some? ==> r.value.difference == (if k in internal then internal[k].amount else 0)
                                              - (if k in stripe then stripe[k].amount else 0)
    ensures r.Some? ==> (r.value.kind.MissingStripe? <==> k !in stripe) && (r.value.kind.MissingInternal? <==> k !in internal)
    ensures r.Some? ==> r.value.charge == (if k in internal then Some(internal[k].charge) else None)
                        && r.value.expected == (if k in internal then internal[k].amount else 0)
    ensures r.Some? ==> r.value.settlement == (if k in stripe then Some(stripe[k].id) else None)
                        && r.value.actual == (if k in stripe then stripe[k].amount else 0)
  {
    if k in internal then
      var p := internal[k];
      if k !in stripe then Some(Discrepancy(MissingStripe, Some(p.charge), None, p.amount, 0, p.amount))
      else if p.amount != stripe[k].amount then
        Some(Discrepancy(AmountMismatch, Some(p.charge), Some(stripe[k].id), p.amount, stripe[k].amount, p.amount - stripe[k].amount))
      else None
    else if k in stripe then
      Some(Discrepancy(MissingInternal, None, Some(stripe[k].id), 0, stripe[k].amount, -stripe[k].amount))
    else None
  }

  function Listed(d: Option<Discrepancy>): seq<Discrepancy> {
    if d.Some? then [d.value] else []
  }

  /** The discrepancies of some intents, in order. */
  function Verdicts(keys: seq<Intent>, internal: map<Intent, Payment>, stripe: map<Intent, Settlement>): seq<Discrepancy> {
    if keys == [] then []
    else Verdicts(keys[..|keys| - 1], internal, stripe) + Listed(Verdict(keys[|keys| - 1], internal, stripe))
  }

  /** The keys of one map that another lacks, in order. */
  function Lacking(keys: seq<Intent>, internal: map<Intent, Payment>): seq<Intent> {
    if keys == [] then []
    else Lacking(keys[..|keys| - 1], internal) + if keys[|keys| - 1] in internal then [] else [keys[|keys| - 1]]
  }

  /** Every intent of either side, once: the ledger's first, then those only the gateway has. */
  function AllKeys(internal: InsertionMap<Payment>, stripe: InsertionMap<Settlement>): seq<Intent> {
    internal.order + Lacking(stripe.order, internal.values)
  }

  // ---------------------------------------------------------------- the comparison

  method CollectPayments(ps: seq<Payment>) returns (internal: InsertionMap<Payment>, total: int)
    ensures internal == ByIntent(ps) && total == Total(ps, PaymentAmount)
  {
    internal, total := InsertionMap([], map[]), 0;
    for n := 0 to |ps|
      invariant internal == ByIntent(ps[..n]) && total == Total(ps[..n], PaymentAmount)
    {
      assert ps[..n + 1][..n] == ps[..n];
      internal := internal.Set(ps[n].intent, ps[n]);
      total := total + ps[n].amount;
    }
    assert ps[..|ps|] == ps;
  }

  method CollectSettlements(ts: seq<Settlement>) returns (stripe: InsertionMap<Settlement>, total: int)
    ensures stripe == BySource(ts) && total == Total(ts, SettlementAmount)
  {
    stripe, total := InsertionMap([], map[]), 0;
    for n := 0 to |ts|
      invariant stripe == BySource(ts[..n]) && total == Total(ts[..n], SettlementAmount)
    {
      assert ts[..n + 1][..n] == ts[..n];
      if ts[n].source.Some? { stripe := stripe.Set(ts[n].source.value, ts[n]); }
      total := total + ts[n].amount;
    }
    assert ts[..|ts|] == ts;
  }

  method CheckInternal(order: seq<Intent>, im: map<Intent, Payment>, sm: map<Intent, Settlement>)
    returns (found: seq<Discrepancy>)
    requires forall k :: k in order ==> k in im
    ensures found == Verdicts(order, im, sm)
  {
    found := [];
    for n := 0 to |order|
      invariant found == Verdicts(order[..n], im, sm)
    {
      assert order[..n + 1][..n] == order[..n];
      var k := order[n];
      var p := im[k];
      if k !in sm {
        found := found + [Discrepancy(MissingStripe, Some(p.charge), None, p.amount, 0, p.amount)];
      } else if p.amount != sm[k].amount {
        found := found
          + [Discrepancy(AmountMismatch, Some(p.charge), Some(sm[k].id), p.amount, sm[k].amount, p.amount - sm[k].amount)];
      }
    }
    assert order[..|order|] == order;
  }

  lemma VerdictsAppend(keys: seq<Intent>, k: Intent, im: map<Intent, Payment>, sm: map<Intent, Settlement>)
    ensures Verdicts(keys + [k], im, sm) == Verdicts(keys, im, sm) + Listed(Verdict(k, im, sm))
  {
    assert (keys + [k])[..|keys|] == keys;
  }

  lemma OnlyStripe(k: Intent, im: map<Intent, Payment>, sm: map<Intent, Settlement>)
    requires k !in im && k in sm
    ensures Listed(Verdict(k, im, sm)) == [Discrepancy(MissingInternal, None, Some(sm[k].id), 0, sm[k].amount, -sm[k].amount)]
  {
  }

  /** Walk the gateway's side, after the ledger's side has been checked. */
  method CheckStripe(first: seq<Intent>, order: seq<Intent>, im: map<Intent, Payment>, sm: map<Intent, Settlement>,
                     soFar: seq<Discrepancy>) returns (found: seq<Discrepancy>)
    requires soFar == Verdicts(first, im, sm) && forall k :: k in order ==> k in sm
    ensures found == Verdicts(first + Lacking(order, im), im, sm)
  {
    found := soFar;
    hide Verdicts, Verdict;
    assert first + Lacking(order[..0], im) == first;
    for n := 0 to |order|
      invariant found == Verdicts(first + Lacking(order[..n], im), im, sm)
    {
      assert order[..n + 1][..n] == order[..n];
      var k := order[n];
      if k !in im {
        ghost var before := Lacking(order[..n], im);
        VerdictsAppend(first + before, k, im, sm);
        assert first + (before + [k]) == (first + before) + [k];
        OnlyStripe(k, im, sm);
        found := found + [Discrepancy(MissingInternal, None, Some(sm[k].id), 0, sm[k].amount, -sm[k].amount)];
      } else {
        assert Lacking(order[..n], im) + [] == Lacking(order[..n], im);
      }
    }
    assert order[..|order|] == order;
  }

  /** Two maps are filled, then walked in order; every record of either side is looked at once. */
  method CompareRecords(ps: seq<Payment>, ts: seq<Settlement>)
    returns (discrepancies: seq<Discrepancy>, totalInternal: int, totalStripe: int, compared: nat)
    ensures discrepancies == Verdicts(AllKeys(ByIntent(ps), BySource(ts)), ByIntent(ps).values, BySource(ts).values)
    ensures totalInternal == Total(ps, PaymentAmount) && totalStripe == Total(ts, SettlementAmount)
    ensures compared == |ByIntent(ps).values.Keys + BySource(ts).values.Keys|
  {
    var internal, stripe;
    internal, totalInternal := CollectPayments(ps);
    stripe, totalStripe := CollectSettlements(ts);
    ByIntentIsOrdered(ps);
    BySourceIsOrdered(ts);
    discrepancies := CheckInternal(internal.order, internal.values, stripe.values);
    discrepancies := CheckStripe(internal.order, stripe.order, internal.values, stripe.values, discrepancies);
    compared := |internal.values.Keys + stripe.values.Keys|;
  }

  lemma {:induction false} ByIntentIsOrdered(ps: seq<Payment>)
    ensures ByIntent(ps).Ordered()
  {
    if ps != [] {
      ByIntentIsOrdered(ps[..|ps| - 1]);
      SetKeepsOrder(ByIntent(ps[..|ps| - 1]), ps[|ps| - 1].intent, ps[|ps| - 1]);
    }
  }

  lemma {:induction false} BySourceIsOrdered(ts: seq<Settlement>)
    ensures BySource(ts).Ordered()
  {
    if ts != [] {
      var last := ts[|ts| - 1];
      BySourceIsOrdered(ts[..|ts| - 1]);
      if last.source.Some? { SetKeepsOrder(BySource(ts[..|ts| - 1]), last.source.value, last); }
    }
  }

  // ---------------------------------------------------------------- what it reports

  lemma {:induction false} LackingMembers(keys: seq<Intent>, internal: map<Intent, Payment>)
    requires Distinct(keys)
    ensures forall k :: k in Lacking(keys, internal) <==> k in keys && k !in internal
    ensures Distinct(Lacking(keys, internal))
  {
    if keys != [] {
      DistinctInit(keys);
      LackingMembers(keys[..|keys| - 1], internal);
      var before := Lacking(keys[..|keys| - 1], internal);
      assert before + [] == before;
    }
  }

  /** Every intent of either side is looked at exactly once. */
  lemma AllKeysOnce(ps: seq<Payment>, ts: seq<Settlement>)
    ensures var keys := AllKeys(ByIntent(ps), BySource(ts));
            && (forall k :: k in keys <==> k in ByIntent(ps).values || k in BySource(ts).values)
            && Distinct(keys)
            && |keys| == |ByIntent(ps).values.Keys + BySource(ts).values.Keys|
  {
    hide ByIntent, BySource, Lacking;
    ByIntentIsOrdered(ps);
    BySourceIsOrdered(ts);
    LackingMembers(BySource(ts).order, ByIntent(ps).values);
    var keys := AllKeys(ByIntent(ps), BySource(ts));
    DistinctConcat(ByIntent(ps).order, Lacking(BySource(ts).order, ByIntent(ps).values));
    DistinctSize(keys);
    assert Members(keys) == ByIntent(ps).values.Keys + BySource(ts).values.Keys;
  }

  lemma {:induction false} DistinctSize(keys: seq<Intent>)
    requires Distinct(keys)
    ensures |Members(keys)| == |keys|
  {
    if keys == [] {
      assert Members(keys) == {};
    } else {
      var n := |keys| - 1;
      DistinctInit(keys);
      DistinctSize(keys[..n]);
      assert Members(keys) == Members(keys[..n]) + {keys[n]};
    }
  }

  lemma {:induction false} NoVerdicts(keys: seq<Intent>, internal: map<Intent, Payment>, stripe: map<Intent, Settlement>)
    ensures Verdicts(keys, internal, stripe) == [] <==> forall k :: k in keys ==> Verdict(k, internal, stripe).None?
  {
    if keys != [] {
      var n := |keys| - 1;
      hide Verdict;
      NoVerdicts(keys[..n], internal, stripe);
      assert forall k :: k in keys <==> k in keys[..n] || k == keys[n] by { assert keys == keys[..n] + [keys[n]]; }
    }
  }

  /** The run is balanced if and only if both sides have the same intents with the same amounts. */
  lemma BalancedMeansEqual(ps: seq<Payment>, ts: seq<Settlement>)
    ensures var im, sm := ByIntent(ps).values, BySource(ts).values;
            Verdicts(AllKeys(ByIntent(ps), BySource(ts)), im, sm) == []
            <==> im.Keys == sm.Keys && forall k :: k in im ==> im[k].amount == sm[k].amount
  {
    var im, sm, keys := ByIntent(ps).values, BySource(ts).values, AllKeys(ByIntent(ps), BySource(ts));
    AllKeysOnce(ps, ts);
    NoVerdicts(keys, im, sm);
    if forall k :: k in keys ==> Verdict(k, im, sm).None? {
      forall k ensures k in im.Keys <==> k in sm.Keys {
        assert k in keys <==> k in im || k in sm;
      }
    }
  }

  // ---------------------------------------------------------------- sums of differences

  function AmountOf<V>(k: Intent, m: map<Intent, V>, amount: V -> int): int {
    if k in m then amount(m[k]) else 0
  }

  function AmountsOf<V>(keys: seq<Intent>, m: map<Intent, V>, amount: V -> int): int {
    if keys == [] then 0 else AmountsOf(keys[..|keys| - 1], m, amount) + AmountOf(keys[|keys| - 1], m, amount)
  }

  lemma {:induction false} DifferencesAdd(keys: seq<Intent>, im: map<Intent, Payment>, sm: map<Intent, Settlement>)
    ensures Total(Verdicts(keys, im, sm), Difference) == AmountsOf(keys, im, PaymentAmount) - AmountsOf(keys, sm, SettlementAmount)
  {
    if keys != [] {
      var n := |keys| - 1;
      DifferencesAdd(keys[..n], im, sm);
      var before, d := Verdicts(keys[..n], im, sm), Verdict(keys[n], im, sm);
      if d.Some? { assert (before + [d.value])[..|before|] == before; } else { assert before + [] == before; }
    }
  }

  lemma {:induction false} AmountsWithout<V>(keys: seq<Intent>, m: map<Intent, V>, amount: V -> int, k: Intent)
    requires k !in keys
    ensures AmountsOf(keys, m, amount) == AmountsOf(keys, m - {k}, amount)
  {
    if keys != [] { AmountsWithout(keys[..|keys| - 1], m, amount, k); }
  }

  /** Over distinct keys that cover a map, the amounts sum to those of the whole map. */
  lemma {:induction false} AmountsCover<V>(keys: seq<Intent>, m: map<Intent, V>, amount: V -> int)
    requires Distinct(keys) && forall k :: k in m ==> k in keys
    ensures AmountsOf(keys, m, amount) == SumBy(m, amount)
  {
    if keys != [] {
      var n := |keys| - 1;
      var k := keys[n];
      DistinctInit(keys);
      AmountsWithout(keys[..n], m, amount, k);
      AmountsCover(keys[..n], m - {k}, amount);
      if k in m { SumByRemove(m, k, amount); } else { assert m - {k} == m; }
    } else {
      assert m == map[];
    }
  }

  /** The differences reported add up to the difference of the two maps. */
  lemma DifferencesBalance(ps: seq<Payment>, ts: seq<Settlement>)
    ensures var im, sm := ByIntent(ps).values, BySource(ts).values;
            Total(Verdicts(AllKeys(ByIntent(ps), BySource(ts)), im, sm), Difference)
            == SumBy(im, PaymentAmount) - SumBy(sm, SettlementAmount)
  {
    var im, sm, keys := ByIntent(ps).values, BySource(ts).values, AllKeys(ByIntent(ps), BySource(ts));
    AllKeysOnce(ps, ts);
    DifferencesAdd(keys, im, sm);
    AmountsCover(keys, im, PaymentAmount);
    AmountsCover(keys, sm, SettlementAmount);
  }

  // ---------------------------------------------------------------- what the maps lose

  function IntentOf(p: Payment): Option<Intent> { Some(p.intent) }
  function SourceOf(t: Settlement): Option<Intent> { t.source }

  /** The first record never reaches the map or is overwritten there: it has no key, or a later one has it too. */
  predicate FirstIsLost<T>(rows: seq<T>, key: T -> Option<Intent>)
    requires rows != []
  {
    key(rows[0]).None? || exists j :: 0 < j < |rows| && key(rows[j]) == key(rows[0])
  }

  /** The amounts of the records that are lost. */
  function Lost<T>(rows: seq<T>, key: T -> Option<Intent>, amount: T -> int): int {
    if rows == [] then 0
    else (if FirstIsLost(rows, key) then amount(rows[0]) else 0) + Lost(rows[1..], key, amount)
  }

  /** The last record of every key. */
  function Latest<T>(rows: seq<T>, key: T -> Option<Intent>): (r: map<Intent, T>)
    ensures forall k :: k in r <==> exists j :: 0 <= j < |rows| && key(rows[j]) == Some(k)
  {
    if rows == [] then map[]
    else
      var later := Latest(rows[1..], key);
      assert forall j :: 0 < j < |rows| ==> rows[j] == rows[1..][j - 1];
      if FirstIsLost(rows, key) then later else later[key(rows[0]).value := rows[0]]
  }

  lemma LostAppend<T>(rows: seq<T>, x: T, key: T -> Option<Intent>)
    requires rows != []
    ensures FirstIsLost(rows + [x], key) <==> FirstIsLost(rows, key) || key(x) == key(rows[0])
  {
    var all := rows + [x];
    assert all[|rows|] == x && forall j :: 0 <= j < |rows| ==> all[j] == rows[j];
  }

  lemma LatestOfOne<T>(x: T, key: T -> Option<Intent>)
    ensures Latest([x], key) == if key(x).None? then map[] else map[key(x).value := x]
  {
    assert [x][1..] == [];
  }

  lemma LatestUnfold<T>(rows: seq<T>, key: T -> Option<Intent>)
    requires rows != []
    ensures Latest(rows, key)
            == if FirstIsLost(rows, key) then Latest(rows[1..], key) else Latest(rows[1..], key)[key(rows[0]).value := rows[0]]
  {
    hide FirstIsLost;
  }

  lemma {:induction false} LatestAppend<T>(rows: seq<T>, x: T, key: T -> Option<Intent>)
    ensures Latest(rows + [x], key) == if key(x).None? then Latest(rows, key) else Latest(rows, key)[key(x).value := x]
  {
    hide Latest;
    if rows == [] {
      LatestOfOne(x, key);
      assert rows + [x] == [x];
      assert Latest(rows, key) == map[];
    } else {
      LostAppend(rows, x, key);
      LatestAppend(rows[1..], x, key);
      LatestUnfold(rows, key);
      LatestUnfold(rows + [x], key);
      assert (rows + [x])[1..] == rows[1..] + [x] && (rows + [x])[0] == rows[0];
      assert FirstIsLost(rows, key) || key(rows[0]).Some?;
    }
  }

  lemma ByIntentUnfold(ps: seq<Payment>)
    ensures ps == [] ==> ByIntent(ps).values == map[]
    ensures ps != [] ==> ByIntent(ps).values == ByIntent(ps[..|ps| - 1]).values[ps[|ps| - 1].intent := ps[|ps| - 1]]
  {
  }

  lemma {:induction false} ByIntentIsLatest(ps: seq<Payment>)
    ensures ByIntent(ps).values == Latest(ps, IntentOf)
  {
    hide ByIntent, Latest;
    ByIntentUnfold(ps);
    if ps != [] {
      var n := |ps| - 1;
      ByIntentIsLatest(ps[..n]);
      LatestAppend(ps[..n], ps[n], IntentOf);
      assert ps == ps[..n] + [ps[n]];
    }
  }

  lemma {:induction false} BySourceIsLatest(ts: seq<Settlement>)
    ensures BySource(ts).values == Latest(ts, SourceOf)
  {
    if ts != [] {
      hide Latest;
      var n := |ts| - 1;
      BySourceIsLatest(ts[..n]);
      LatestAppend(ts[..n], ts[n], SourceOf);
      assert ts == ts[..n] + [ts[n]];
    }
  }

  lemma {:induction false} TotalFirst<T>(rows: seq<T>, amount: T -> int)
    requires rows != []
    ensures Total(rows, amount) == amount(rows[0]) + Total(rows[1..], amount)
  {
    var n := |rows| - 1;
    if n > 0 {
      assert rows[..n][1..] == rows[1..][..n - 1] && rows[1..][n - 1] == rows[n];
      TotalFirst(rows[..n], amount);
    }
  }

  /** A map holds all amounts but the lost ones. */
  lemma {:induction false} LatestSum<T>(rows: seq<T>, key: T -> Option<Intent>, amount: T -> int)
    ensures SumBy(Latest(rows, key), amount) == Total(rows, amount) - Lost(rows, key, amount)
  {
    if rows != [] {
      LatestSum(rows[1..], key, amount);
      TotalFirst(rows, amount);
      if !FirstIsLost(rows, key) {
        assert forall j :: 0 < j < |rows| ==> rows[j] == rows[1..][j - 1];
        SumByPut(Latest(rows[1..], key), key(rows[0]).value, rows[0], amount);
      }
    }
  }

  /** The differences reported are those of the totals, but for what each side loses; so they add up to the
      difference of the totals if and only if both sides lose the same. */
  lemma DifferencesAreTotals(ps: seq<Payment>, ts: seq<Settlement>)
    ensures var reported := Total(Verdicts(AllKeys(ByIntent(ps), BySource(ts)), ByIntent(ps).values, BySource(ts).values), Difference);
            var internal, stripe := Total(ps, PaymentAmount), Total(ts, SettlementAmount);
            var lostInternal, lostStripe := Lost(ps, IntentOf, PaymentAmount), Lost(ts, SourceOf, SettlementAmount);
            && reported == (internal - lostInternal) - (stripe - lostStripe)
            && (reported == internal - stripe <==> lostInternal == lostStripe)
  {
    hide Verdicts, AllKeys, ByIntent, BySource, Total, Lost;
    DifferencesBalance(ps, ts);
    ByIntentIsLatest(ps);
    BySourceIsLatest(ts);
    LatestSum(ps, IntentOf, PaymentAmount);
    LatestSum(ts, SourceOf, SettlementAmount);
  }

  /** Nothing is lost when every record has a key of its own. */
  lemma {:induction false} UniqueLoseNothing<T>(rows: seq<T>, key: T -> Option<Intent>, amount: T -> int)
    requires forall i :: 0 <= i < |rows| ==> key(rows[i]).Some?
    requires forall i, j :: 0 <= i < j < |rows| ==> key(rows[i]) != key(rows[j])
    ensures Lost(rows, key, amount) == 0
  {
    if rows != [] { UniqueLoseNothing(rows[1..], key, amount); }
  }

  /** So with one payment for each intent, and one settlement for each source and none without, the differences add up
      to the difference of the totals. */
  lemma UniqueRecordsBalance(ps: seq<Payment>, ts: seq<Settlement>)
    requires forall i, j :: 0 <= i < j < |ps| ==> ps[i].intent != ps[j].intent
    requires forall i :: 0 <= i < |ts| ==> ts[i].source.Some?
    requires forall i, j :: 0 <= i < j < |ts| ==> ts[i].source != ts[j].source
    ensures Total(Verdicts(AllKeys(ByIntent(ps), BySource(ts)), ByIntent(ps).values, BySource(ts).values), Difference)
            == Total(ps, PaymentAmount) - Total(ts, SettlementAmount)
  {
    hide Verdicts, AllKeys, ByIntent, BySource, Total, Lost;
    UniqueLoseNothing(ps, IntentOf, PaymentAmount);
    UniqueLoseNothing(ts, SourceOf, SettlementAmount);
    DifferencesAreTotals(ps, ts);
  }

  /** A balanced run hides money exactly when the losses differ: then the totals differ, though nothing is reported. */
  lemma BalancedHidesLosses(ps: seq<Payment>, ts: seq<Settlement>)
    requires Verdicts(AllKeys(ByIntent(ps), BySource(ts)), ByIntent(ps).values, BySource(ts).values) == []
    ensures Total(ps, PaymentAmount) - Total(ts, SettlementAmount)
            == Lost(ps, IntentOf, PaymentAmount) - Lost(ts, SourceOf, SettlementAmount)
  {
    DifferencesAreTotals(ps, ts);
    hide Lost, AllKeys, ByIntent, BySource;
  }

  lemma PostedTwice(first: Payment, second: Payment, only: Settlement)
    requires first.intent == second.intent && only.source == Some(first.intent)
    ensures ByIntent([first, second]) == InsertionMap([first.intent], map[first.intent := second])
    ensures BySource([only]) == InsertionMap([first.intent], map[first.intent := only])
    ensures Total([first, second], PaymentAmount) == first.amount + second.amount
    ensures Total([only], SettlementAmount) == only.amount
  {
    assert [first, second][..1] == [first] && [first][..0] == [] && [only][..0] == [];
    assert ByIntent([first]) == InsertionMap([first.intent], map[first.intent := first]);
    assert Total([first], PaymentAmount) == first.amount;
  }

  /** Such a run: a payment posted twice for one intent and settled once. */
  lemma BalancedCanHideDuplicates(first: Payment, second: Payment, only: Settlement)
    requires first == Payment(1, 7, 100) && second == Payment(2, 7, 100) && only == Settlement(1, Some(7), 100)
    ensures var ps, ts := [first, second], [only];
            && Verdicts(AllKeys(ByIntent(ps), BySource(ts)), ByIntent(ps).values, BySource(ts).values) == []
            && Total(ps, PaymentAmount) == 200 && Total(ts, SettlementAmount) == 100
  {
    PostedTwice(first, second, only);
    hide ByIntent, BySource, Total, Verdicts, AllKeys;
    BalancedMeansEqual([first, second], [only]);
  }
}
