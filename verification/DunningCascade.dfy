/** The payment-method cascade: which method each retry uses and where a failing chain closes. */
module DunningCascade {
  import opened Options
  import opened BillingState
  import opened BillingHandlers
  import opened DunningChains

  /** How many attempts an always-failing chain takes with `n` active methods. */
  function ClosesAt(n: nat, limit: nat): nat {
    if n == 0 then 1 else if n == 1 then limit else Min(n + 1, limit)
  }

  predicate Distinct(methods: seq<MethodId>) {
    forall j, k :: 0 <= j < k < |methods| ==> methods[j] != methods[k]
  }

  /** Attempt row `j` used the method the cascade assigns to it: the only one, or the one in position j. */
  predicate UsesMethod(r: Retry, j: nat, methods: seq<MethodId>) {
    r.pm.Some? ==>
      || (|methods| == 1 && r.pm.value == methods[0])
      || (|methods| != 1 && j < |methods| && r.pm.value == methods[j])
  }

  predicate Cascaded(c: Chain, methods: seq<MethodId>, limit: nat) {
    && (forall j :: 0 <= j < |c.retries| ==> UsesMethod(c.retries[j], j, methods))
    && |c.retries| <= ClosesAt(|methods|, limit)
    && (c.escalations > 0 ==> |c.retries| == ClosesAt(|methods|, limit))
  }

  lemma {:induction false} FirstUntriedIs(methods: seq<MethodId>, tried: set<MethodId>, k: nat)
    requires k <= |methods|
    requires forall j :: 0 <= j < k ==> methods[j] in tried
    requires k < |methods| ==> methods[k] !in tried
    ensures FirstUntried(methods, tried) == if k < |methods| then Some(methods[k]) else None
  {
    if k > 0 { FirstUntriedIs(methods[1..], tried, k - 1); }
  }

  /** The scheduled attempt in position k is given method k, or none when the methods have run out. */
  lemma SelectsNext(c: Chain, methods: seq<MethodId>, limit: nat)
    requires Orderly(c, limit) && Open(c) && Cascaded(c, methods, limit) && Distinct(methods) && |methods| != 1
    ensures var k := |c.retries| - 1;
            SelectMethod(methods, c.retries) == if k < |methods| then Some(methods[k]) else None
  {
    var rs := c.retries;
    var k := |rs| - 1;
    var tried := TriedMethods(rs);
    forall j | 0 <= j < k ensures j < |methods| && methods[j] in tried {
      assert UsesMethod(rs[j], j, methods) && rs[j] in rs;
    }
    FirstUntriedIs(methods, tried, k);
  }

  /** The attempt in position `j`, once it has ended with the selected method, fits the cascade. */
  lemma SelectedFits(c: Chain, j: nat, methods: seq<MethodId>, limit: nat)
    requires Orderly(c, limit) && Cascaded(c, methods, limit) && Distinct(methods)
    requires j < |c.retries| && c.retries[j].status == Scheduled
    ensures j == |c.retries| - 1
    ensures var m := SelectMethod(methods, c.retries);
            if m.Some? then UsesMethod(c.retries[j].(pm := m), j, methods)
                            && (|methods| != 1 ==> j < |methods|)
            else |methods| != 1 && |c.retries| == ClosesAt(|methods|, limit)
  {
    assert j == |c.retries| - 1;
    if |methods| != 1 { SelectsNext(c, methods, limit); }
  }

  /** Ending the last attempt with a fitting method fits, escalated only at the closing length. */
  lemma LastFits(c: Chain, j: nat, last: Retry, e: nat, methods: seq<MethodId>, limit: nat)
    requires Cascaded(c, methods, limit) && j == |c.retries| - 1
    requires UsesMethod(last, j, methods)
    requires e > 0 ==> |c.retries| == ClosesAt(|methods|, limit)
    ensures Cascaded(Chain(c.retries[j := last], e), methods, limit)
  {
  }

  lemma NextFits(c: Chain, methods: seq<MethodId>, limit: nat)
    requires Cascaded(c, methods, limit) && |c.retries| < ClosesAt(|methods|, limit)
    ensures Cascaded(c.(retries := c.retries + [Retry(|c.retries| + 1, Scheduled, None)]), methods, limit)
  {
  }

  lemma OutcomeCascades(c: Chain, j: nat, m: MethodId, methods: seq<MethodId>, report: Report, limit: nat)
    requires Orderly(c, limit) && Cascaded(c, methods, limit)
    requires j == |c.retries| - 1 && c.retries[j].status == Scheduled
    requires UsesMethod(c.retries[j].(pm := Some(m)), j, methods)
    requires |methods| != 1 ==> j < |methods|
    ensures Cascaded(AfterReport(c, j, m, report, limit), methods, limit)
  {
    assert UsesMethod(c.retries[j].(status := Skipped), j, methods);
    assert |c.retries| <= ClosesAt(|methods|, limit);
    hide Cascaded;
    EndKeepsOrder(c, j, c.retries[j].(status := Skipped), limit);
    EndKeepsOrder(c, j, c.retries[j].(status := RetrySucceeded, pm := Some(m)), limit);
    LastFits(c, j, c.retries[j].(status := Skipped), c.escalations, methods, limit);
    LastFits(c, j, c.retries[j].(status := RetrySucceeded, pm := Some(m)), c.escalations, methods, limit);
    var failed := c.retries[j].(status := RetryFailed, pm := Some(m));
    if |c.retries| == limit {
      LastFits(c, j, failed, c.escalations + 1, methods, limit);
    } else {
      LastFits(c, j, failed, c.escalations, methods, limit);
      NextFits(Chain(c.retries[j := failed], c.escalations), methods, limit);
    }
  }

  lemma SkipCascades(c: Chain, j: nat, methods: seq<MethodId>, limit: nat)
    requires Orderly(c, limit) && Cascaded(c, methods, limit)
    requires j == |c.retries| - 1 && c.retries[j].status == Scheduled
    ensures Cascaded(SkipRest(c, j), methods, limit)
  {
    var last := c.retries[j].(status := Skipped);
    assert UsesMethod(c.retries[j], j, methods) && (c.escalations > 0 ==> |c.retries| == ClosesAt(|methods|, limit));
    hide Cascaded, ClosesAt;
    EndKeepsOrder(c, j, last, limit);
    LastFits(c, j, last, c.escalations, methods, limit);
  }

  lemma ExhaustedCascades(c: Chain, j: nat, methods: seq<MethodId>, limit: nat)
    requires Orderly(c, limit) && Cascaded(c, methods, limit)
    requires j == |c.retries| - 1 && c.retries[j].status == Scheduled && |c.retries| == ClosesAt(|methods|, limit)
    ensures Cascaded(Exhausted(c, j), methods, limit)
  {
    var last := c.retries[j].(status := RetryFailed);
    assert UsesMethod(c.retries[j], j, methods);
    hide Cascaded, ClosesAt;
    EndKeepsOrder(c, j, last, limit);
    LastFits(c, j, last, c.escalations + 1, methods, limit);
  }

  /** Every execution on invoice `i` sees the same active methods. */
  predicate FixedMethods(events: seq<Event>, i: InvoiceId, methods: seq<MethodId>) {
    forall ev :: ev in events && ev.EvRunDunning? && ev.i == i ==> ev.methods == methods
  }

  lemma StepCascades(db: Db, ev: Event, limit: nat, i: InvoiceId, methods: seq<MethodId>)
    requires Enabled(db, ev) && limit >= 1 && Dunned(db, limit) && Distinct(methods)
    requires ev.EvRunDunning? && ev.i == i ==> ev.methods == methods
    requires i in db.dunning ==> Cascaded(db.dunning[i], methods, limit)
    ensures var after := Step(db, ev, limit);
            i in after.dunning ==> Cascaded(after.dunning[i], methods, limit)
  {
    if ev.EvPay? {
      if ev.i in db.dunning {
        StartedChainsStay(db, ev.i, ev.n, ev.pm, ev.o);
      } else {
        PayStartsChain(db, ev.i, ev.n, ev.pm, ev.o);
      }
    } else if ev.EvRunDunning? {
      RetryCascades(db, ev.i, ev.j, ev.methods, ev.ready, ev.o, limit, i, methods);
    } else {
      QuietSteps(db, ev, limit);
    }
  }

  lemma RetryCascades(db: Db, h: InvoiceId, j: nat, ms: seq<MethodId>, ready: bool, o: Outcome, limit: nat,
                      i: InvoiceId, methods: seq<MethodId>)
    requires Dunned(db, limit) && Distinct(methods) && (h == i ==> ms == methods)
    requires i in db.dunning ==> Cascaded(db.dunning[i], methods, limit)
    ensures var after := RunDunning(db, h, j, ms, ready, o, limit);
            i in after.dunning ==> Cascaded(after.dunning[i], methods, limit)
  {
    if h in db.dunning {
      RetryKeepsOrder(db, h, j, ms, ready, o, limit);
      if h == i {
        var report := RetryOutcomes(db, i, j, methods, ready, o, limit);
        EndCascades(db.dunning[i], RunDunning(db, h, j, ms, ready, o, limit).dunning[i], j, methods, report, limit);
      }
    }
  }

  lemma EndCascades(c: Chain, after: Chain, j: nat, methods: seq<MethodId>, report: Report, limit: nat)
    requires Orderly(c, limit) && Cascaded(c, methods, limit) && Distinct(methods)
    requires after == c
             || (j < |c.retries| && c.retries[j].status == Scheduled
                 && var m := SelectMethod(methods, c.retries);
                    (after == SkipRest(c, j)
                     || (m.None? && after == Exhausted(c, j))
                     || (m.Some? && after == AfterReport(c, j, m.value, report, limit))))
    ensures Cascaded(after, methods, limit)
  {
    hide Cascaded, Orderly, SelectMethod, SkipRest, Exhausted, AfterReport, UsesMethod, ClosesAt, Distinct;
    if after != c {
      SelectedFits(c, j, methods, limit);
      var m := SelectMethod(methods, c.retries);
      if after == SkipRest(c, j) {
        SkipCascades(c, j, methods, limit);
      } else if m.None? {
        ExhaustedCascades(c, j, methods, limit);
      } else {
        OutcomeCascades(c, j, m.value, methods, report, limit);
      }
    }
  }

  /** With a fixed ordered list of methods, in every state of every run: attempt j is recorded against
      method j (the only one, if there is one), and a chain that escalates has taken exactly
      min(n + 1, limit) attempts for n >= 2 methods, all `limit` for one, and one for none. */
  lemma {:induction false} CascadeFollowsOrder(states: seq<Db>, events: seq<Event>, limit: nat, t: nat,
                                               i: InvoiceId, methods: seq<MethodId>)
    requires Run(states, events, limit) && t < |states| && limit >= 1
    requires FixedMethods(events, i, methods) && Distinct(methods)
    ensures i in states[t].dunning ==> Cascaded(states[t].dunning[i], methods, limit)
  {
    if t > 0 {
      CascadeFollowsOrder(states, events, limit, t - 1, i, methods);
      RunIsOrderly(states, events, limit, t - 1);
      assert events[t - 1] in events;
      StepCascades(states[t - 1], events[t - 1], limit, i, methods);
    }
  }
}
