/** Runs of the handoff put together from pieces. */
module HandoffRuns {
  import opened StrictJson
  import opened HandoffProtocol
  import opened HandoffContents

  lemma {:induction false} Joined(w: World, p: seq<Event>, q: seq<Event>)
    requires After(w, p).Some?
    ensures After(w, p + q) == After(After(w, p).value, q)
    decreases |q|
  {
    hide Next;
    if q == [] {
      assert p + q == p;
    } else {
      var k := |q| - 1;
      assert (p + q)[..|p + q| - 1] == p + q[..k];
      Joined(w, p, q[..k]);
    }
  }

  lemma One(w: World, e: Event, v: World)
    requires Next(w, e) == Some(v)
    ensures After(w, [e]) == Some(v)
  {
    hide Next;
    assert [e][..0] == [];
    assert After(w, [e][..0]) == Some(w);
  }

  lemma Three(w: World, e1: Event, e2: Event, e3: Event, w1: World, w2: World, w3: World)
    requires Next(w, e1) == Some(w1) && Next(w1, e2) == Some(w2) && Next(w2, e3) == Some(w3)
    ensures After(w, [e1, e2, e3]) == Some(w3)
  {
    hide Next, After;
    One(w, e1, w1);
    One(w1, e2, w2);
    One(w2, e3, w3);
    Joined(w, [e1], [e2]);
    Joined(w, [e1] + [e2], [e3]);
    assert [e1] + [e2] + [e3] == [e1, e2, e3];
  }

  /** Nothing is lost along the way. */
  predicate Lossless(run: seq<Event>) { forall e :: e in run ==> !e.LoseDir? && !e.LoseReservation? }

  lemma LosslessJoined(p: seq<Event>, q: seq<Event>)
    requires Lossless(p) && Lossless(q)
    ensures Lossless(p + q)
  {
  }

  lemma NothingLost()
    ensures Lossless([])
  {
  }

  /** An orderly run that leads from one world to another. */
  ghost predicate Leads(w: World, run: seq<Event>, v: World) { After(w, run) == Some(v) && OrderlyRun(w, run) }

  lemma {:induction false} OrderlyJoined(w: World, p: seq<Event>, q: seq<Event>)
    requires After(w, p).Some? && OrderlyRun(w, p) && OrderlyRun(After(w, p).value, q)
    ensures OrderlyRun(w, p + q)
    decreases |q|
  {
    hide Next, Orderly;
    if q == [] {
      assert p + q == p;
    } else {
      var k := |q| - 1;
      assert (p + q)[..|p + q| - 1] == p + q[..k];
      OrderlyJoined(w, p, q[..k]);
      Joined(w, p, q[..k]);
    }
  }

  lemma LeadsOn(w: World, p: seq<Event>, u: World, q: seq<Event>, v: World)
    requires Leads(w, p, u) && Leads(u, q, v)
    ensures Leads(w, p + q, v)
  {
    hide After, OrderlyRun;
    Joined(w, p, q);
    OrderlyJoined(w, p, q);
  }

  lemma LeadsOne(w: World, e: Event, v: World)
    requires Next(w, e) == Some(v) && Orderly(w, e)
    ensures Leads(w, [e], v)
  {
    hide Next, Orderly;
    One(w, e, v);
    assert [e][..0] == [];
    assert After(w, [e][..0]) == Some(w) && OrderlyRun(w, [e][..0]);
  }

  lemma LeadsNowhere(w: World)
    ensures Leads(w, [], w)
  {
  }

  /** Every step but the raising of a gate and the opening of a destination is orderly anywhere. */
  predicate Mild(e: Event) { e.Act? ==> !e.action.RaiseGate? && !e.action.Open? }

  lemma LeadsMild(w: World, e: Event, v: World)
    requires Next(w, e) == Some(v) && Mild(e)
    ensures Leads(w, [e], v)
  {
    assert Orderly(w, e) by { hide Next; }
    hide Next, Orderly;
    LeadsOne(w, e, v);
  }

  lemma Leads2(w: World, e1: Event, w1: World, e2: Event, v: World)
    requires Next(w, e1) == Some(w1) && Next(w1, e2) == Some(v) && Mild(e1) && Mild(e2)
    ensures Leads(w, [e1, e2], v)
  {
    hide Next, Leads;
    LeadsMild(w, e1, w1);
    LeadsMild(w1, e2, v);
    LeadsOn(w, [e1], w1, [e2], v);
    assert [e1] + [e2] == [e1, e2];
  }

  lemma Leads3(w: World, e1: Event, w1: World, e2: Event, w2: World, e3: Event, v: World)
    requires Next(w, e1) == Some(w1) && Next(w1, e2) == Some(w2) && Next(w2, e3) == Some(v)
    requires Mild(e1) && Mild(e2) && Mild(e3)
    ensures Leads(w, [e1, e2, e3], v)
  {
    hide Next, Leads;
    Leads2(w, e1, w1, e2, w2);
    LeadsMild(w2, e3, v);
    LeadsOn(w, [e1, e2], w2, [e3], v);
    assert [e1, e2] + [e3] == [e1, e2, e3];
  }
}
