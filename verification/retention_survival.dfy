/** What is still there after an application of a plan, said in terms of the tables alone. */
module RetentionSurvival {
  import opened StrictJson
  import opened ContentDecoding
  import opened Content
  import opened RetentionPlan
  import opened RetentionLaws

  // ---------------------------------------------------------------- revisions

  /** The revision is current, or a receipt names it, or fewer than the wanted number lie above it. */
  predicate Wanted(t: Tables, run: string, policy: Policy, revision: nat)
  {
    || (run in t.current && t.current[run] == revision)
    || RunRevision(run, revision) in t.receipts
    || (RunRevision(run, revision) in t.revisions
        && (policy.historyRevisions.Some? ==>
              |set row | row in t.revisions && row.run == run && row.revision > revision| < policy.historyRevisions.value))
  }

  /** What the Run held in a field at a revision: the text of the latest row up to it. */
  function ValueAt(history: map<HistoryKey, string>, run: string, field: Field, revision: nat): Option<string>
    decreases revision
  {
    if HistoryKey(run, field, revision) in history then Some(history[HistoryKey(run, field, revision)])
    else if revision == 0 then None
    else ValueAt(history, run, field, revision - 1)
  }

  lemma WantedIsProtected(t: Tables, run: string, policy: Policy, revision: nat)
    requires run in t.current
    ensures revision in Protected(t, run, policy) <==> Wanted(t, run, policy, revision)
  {
    var all := RevisionsOf(t.revisions, run);
    assert forall x :: x in all <==> RunRevision(run, x) in t.revisions;
    assert revision in RevisionsOf(t.receipts, run) <==> RunRevision(run, revision) in t.receipts;
    TaggedSize(run, Beyond(all, revision));
    assert Tagged(run, Beyond(all, revision)) == set row | row in t.revisions && row.run == run && row.revision > revision;
  }

  lemma {:induction false} TaggedSize(run: string, revisions: set<nat>)
    ensures |Tagged(run, revisions)| == |revisions|
    decreases revisions
  {
    if revisions == {} {
      assert Tagged(run, revisions) == {};
    } else {
      var x :| x in revisions;
      TaggedSize(run, revisions - {x});
      assert Tagged(run, revisions) == Tagged(run, revisions - {x}) + {RunRevision(run, x)};
    }
  }

  lemma {:induction false} ValueFound(history: map<HistoryKey, string>, run: string, field: Field, revision: nat)
    ensures match ValueAt(history, run, field, revision)
            case None => forall key :: key in history && key.run == run && key.field == field ==> key.revision > revision
            case Some(text) => exists key :: key in history && key.run == run && key.field == field
                                 && IsBaseline(history, key, revision) && history[key] == text
    decreases revision
  {
    var here := HistoryKey(run, field, revision);
    if here in history {
      assert IsBaseline(history, here, revision);
    } else if revision > 0 {
      ValueFound(history, run, field, revision - 1);
      forall key | key in history && key.run == run && key.field == field && key.revision <= revision
        ensures key.revision <= revision - 1
      {
        assert key.revision == revision ==> key == here;
      }
      if ValueAt(history, run, field, revision).Some? {
        var key :| key in history && key.run == run && key.field == field && IsBaseline(history, key, revision - 1)
          && history[key] == ValueAt(history, run, field, revision).value;
        assert IsBaseline(history, key, revision);
      }
    } else {
      assert forall key :: key in history && key.run == run && key.field == field && key.revision == 0 ==> key == here;
    }
  }

  /** A baseline that stays the baseline keeps the value. */
  lemma SameValue(before: map<HistoryKey, string>, after: map<HistoryKey, string>, run: string, field: Field, p: nat)
    requires forall key: HistoryKey :: key.run == run ==>
      (IsBaseline(before, key, p) <==> IsBaseline(after, key, p))
      && (IsBaseline(before, key, p) ==> key in after && after[key] == before[key])
    ensures ValueAt(after, run, field, p) == ValueAt(before, run, field, p)
  {
    ValueFound(before, run, field, p);
    ValueFound(after, run, field, p);
    hide ValueAt;
    if ValueAt(before, run, field, p).Some? && ValueAt(after, run, field, p).Some? {
      var a :| a in before && a.run == run && a.field == field && IsBaseline(before, a, p)
        && before[a] == ValueAt(before, run, field, p).value;
      var b :| b in after && b.run == run && b.field == field && IsBaseline(after, b, p)
        && after[b] == ValueAt(after, run, field, p).value;
      OneBaseline(before, a, b, p);
    }
  }

  lemma {:induction false} ValueElsewhere(
    before: map<HistoryKey, string>, after: map<HistoryKey, string>, run: string, field: Field, p: nat)
    requires forall key: HistoryKey :: key.run == run ==> (key in before <==> key in after) && (key in before ==> after[key] == before[key])
    ensures ValueAt(after, run, field, p) == ValueAt(before, run, field, p)
    decreases p
  {
    if p > 0 { ValueElsewhere(before, after, run, field, p - 1); }
  }

  /** The parts of an applicable plan that concern revisions and history. */
  lemma PlanParts(base: Reader, t: Tables, run: string, policy: Policy, operation: string)
    requires PlanOf(base, t, run, policy).Some? && PlanOf(base, t, run, policy).value.applicable
    ensures run in t.current && Protected(t, run, policy) <= RevisionsOf(t.revisions, run)
    ensures var plan := PlanOf(base, t, run, policy).value;
            var u := Applied(t, plan, operation);
            && u.revisions == t.revisions - Tagged(run, RevisionsOf(t.revisions, run) - Protected(t, run, policy))
            && u.history == t.history - HistoryCandidates(t.history, run, Protected(t, run, policy))
            && u.events == t.events - EventCandidates(t.events, t.cursors, run, policy)
            && plan.history == HistoryCandidates(t.history, run, Protected(t, run, policy))
            && plan.events == EventCandidates(t.events, t.cursors, run, policy)
            && u.items == t.items && u.recoveries == t.recoveries
  {
    hide ContentOk, Roots, ObjectCandidates, Protected, HistoryCandidates, EventCandidates, RevisionsOf, Tagged;
  }

  /** The revisions that stay are exactly the wanted ones, and those of every other Run. */
  lemma RevisionsThatStay(base: Reader, t: Tables, run: string, policy: Policy, operation: string, row: RunRevision)
    requires PlanOf(base, t, run, policy).Some? && PlanOf(base, t, run, policy).value.applicable
    ensures var u := Applied(t, PlanOf(base, t, run, policy).value, operation);
            row in u.revisions <==> if row.run == run then Wanted(t, run, policy, row.revision) else row in t.revisions
  {
    PlanParts(base, t, run, policy, operation);
    hide PlanOf, Applied, Protected, Wanted;
    WantedIsProtected(t, run, policy, row.revision);
    assert row.run == run ==> row == RunRevision(run, row.revision);
    assert row.revision in Protected(t, run, policy) ==> row.revision in RevisionsOf(t.revisions, run);
    assert row in Tagged(run, RevisionsOf(t.revisions, run) - Protected(t, run, policy)) <==>
      row.run == run && row.revision in RevisionsOf(t.revisions, run) && row.revision !in Protected(t, run, policy);
  }

  /** At each of them every field holds what it held, and so does every field of another Run at
      every revision. */
  lemma ValuesThatStay(
    base: Reader, t: Tables, run: string, policy: Policy, operation: string, other: string, field: Field, revision: nat)
    requires PlanOf(base, t, run, policy).Some? && PlanOf(base, t, run, policy).value.applicable
    requires other == run ==> Wanted(t, run, policy, revision)
    ensures var u := Applied(t, PlanOf(base, t, run, policy).value, operation);
            ValueAt(u.history, other, field, revision) == ValueAt(t.history, other, field, revision)
  {
    PlanParts(base, t, run, policy, operation);
    var protected := Protected(t, run, policy);
    var after := t.history - HistoryCandidates(t.history, run, protected);
    hide PlanOf, Applied;
    if other == run {
      WantedIsProtected(t, run, policy, revision);
      hide Protected, Wanted, HistoryCandidates, IsBaseline;
      forall key: HistoryKey | key.run == run
        ensures (IsBaseline(t.history, key, revision) <==> IsBaseline(after, key, revision))
        ensures IsBaseline(t.history, key, revision) ==> key in after && after[key] == t.history[key]
      {
        BaselinesSurvive(t.history, run, protected, key, revision);
      }
      SameValue(t.history, after, run, field, revision);
    } else {
      hide Protected, Wanted, IsBaseline, Baselines;
      ValueElsewhere(t.history, after, other, field, revision);
    }
  }

  // ---------------------------------------------------------------- events

  /** A decision event of the Run goes exactly if enough later ones follow it and every
      subscription of the Run has passed it; every other event stays as it is. */
  lemma EventsThatStay(base: Reader, t: Tables, run: string, policy: Policy, operation: string, e: nat)
    requires PlanOf(base, t, run, policy).Some? && PlanOf(base, t, run, policy).value.applicable && e in t.events
    ensures var u := Applied(t, PlanOf(base, t, run, policy).value, operation);
            && (e in u.events <==>
                  !(t.events[e].run == run && t.events[e].kind == DECIDED && policy.decisionEvents.Some?
                    && |set x | x in t.events && x > e && t.events[x].run == run && t.events[x].kind == DECIDED|
                         >= policy.decisionEvents.value
                    && forall c :: c in t.cursors && c.run == run ==> e <= t.cursors[c]))
            && (e in u.events ==> u.events[e] == t.events[e])
  {
    PlanParts(base, t, run, policy, operation);
    hide PlanOf, Applied, Protected, HistoryCandidates, Beyond, Decisions;
    LaterDecisions(t.events, run, e);
  }

  lemma LaterDecisions(events: map<nat, Event>, run: string, e: nat)
    ensures Beyond(Decisions(events, run), e) == set x | x in events && x > e && events[x].run == run && events[x].kind == DECIDED
    ensures e in Decisions(events, run) <==> e in events && events[e].run == run && events[e].kind == DECIDED
  {
  }

  // ---------------------------------------------------------------- content

  /** The text means after the application what it meant before, to a decoder with any limits. */
  predicate KeepsMeaning(other: Reader, t: Tables, u: Tables, text: string)
  {
    ValueOf(ReaderOf(other, u), text) == ValueOf(ReaderOf(other, t), text)
  }

  /** Every text of the store that carries content: items, history that is left, events that are
      left, and all columns of recoveries. */
  lemma ContentStays(base: Reader, t: Tables, run: string, policy: Policy, operation: string, other: Reader)
    requires PlanOf(base, t, run, policy).Some? && PlanOf(base, t, run, policy).value.applicable && other.loads == base.loads
    ensures var u := Applied(t, PlanOf(base, t, run, policy).value, operation);
            && u.items == t.items && u.recoveries == t.recoveries
            && (forall k :: k in t.items ==> KeepsMeaning(other, t, u, t.items[k]))
            && (forall k :: k in u.history ==> k in t.history && u.history[k] == t.history[k] && KeepsMeaning(other, t, u, u.history[k]))
            && (forall e :: e in u.events ==> e in t.events && u.events[e] == t.events[e] && KeepsMeaning(other, t, u, u.events[e].payload))
            && (forall x :: x in t.recoveries ==>
                  && KeepsMeaning(other, t, u, t.recoveries[x].decision) && KeepsMeaning(other, t, u, t.recoveries[x].manifest)
                  && (t.recoveries[x].applicationState.Some? ==>
                        KeepsMeaning(other, t, u, t.recoveries[x].applicationState.value)))
  {
    var plan := PlanOf(base, t, run, policy).value;
    var u := Applied(t, plan, operation);
    PlanParts(base, t, run, policy, operation);
    hide PlanOf, Applied, HistoryCandidates, EventCandidates, Protected, ValueOf;
    forall text | text in Roots(t, plan.history, plan.events) ensures KeepsMeaning(other, t, u, text) {
      RetainedRootKeepsValue(base, t, run, policy, operation, text, other);
    }
    hide KeepsMeaning;
  }

  lemma OneBaseline(history: map<HistoryKey, string>, a: HistoryKey, b: HistoryKey, p: nat)
    requires SameField(a, b) && IsBaseline(history, a, p) && IsBaseline(history, b, p)
    ensures a == b
  {
  }

  // ---------------------------------------------------------------- the receipt

  lemma Removed<T>(all: set<T>, gone: set<T>)
    requires gone <= all
    ensures |all - gone| + |gone| == |all|
  {
    assert (all - gone) + gone == all && (all - gone) !! gone;
  }

  lemma RowsRemoved(run: string, rows: set<RunRevision>, gone: set<nat>)
    requires Tagged(run, gone) <= rows
    ensures |rows - Tagged(run, gone)| + |gone| == |rows|
  {
    TaggedSize(run, gone);
    Removed(rows, Tagged(run, gone));
  }

  /** The receipt counts exactly the rows that are gone, every revision that is gone is remembered as
      expired, and no other is. */
  lemma ReceiptCounts(base: Reader, t: Tables, run: string, policy: Policy, operation: string)
    requires PlanOf(base, t, run, policy).Some? && PlanOf(base, t, run, policy).value.applicable
    ensures var plan := PlanOf(base, t, run, policy).value;
            var u, receipt := Applied(t, plan, operation), ResultOf(plan, operation);
            && operation in u.operations && u.operations[operation] == receipt
            && |u.history| + receipt.history == |t.history| && |u.revisions| + receipt.revisions == |t.revisions|
            && |u.events| + receipt.events == |t.events| && |u.objects| + receipt.objects == |t.objects|
            && u.history.Keys <= t.history.Keys && u.revisions <= t.revisions && u.events.Keys <= t.events.Keys
            && (forall row :: row in u.expired <==> row in t.expired || (row in t.revisions && row !in u.revisions))
  {
    var plan := PlanOf(base, t, run, policy).value;
    var u := Applied(t, plan, operation);
    PlanSubsets(base, t, run, policy);
    hide PlanOf;
    RowsRemoved(run, t.revisions, plan.revisions);
    Removed(t.history.Keys, plan.history);
    Removed(t.events.Keys, plan.events);
    Removed(t.objects.Keys, plan.objects);
    assert u.history.Keys == t.history.Keys - plan.history && u.events.Keys == t.events.Keys - plan.events
      && u.objects.Keys == t.objects.Keys - plan.objects;
    hide Raised, Tagged, Writes;
  }

  lemma PlanSubsets(base: Reader, t: Tables, run: string, policy: Policy)
    requires PlanOf(base, t, run, policy).Some? && PlanOf(base, t, run, policy).value.applicable
    ensures var plan := PlanOf(base, t, run, policy).value;
            && plan.run == run && plan.history <= t.history.Keys && Tagged(run, plan.revisions) <= t.revisions
            && plan.events <= t.events.Keys && plan.objects <= t.objects.Keys
  {
    hide ContentOk, Roots, Protected, Reachable, Starts, Baselines;
  }
}
